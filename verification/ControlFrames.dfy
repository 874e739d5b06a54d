/**
 The control stream by frame and history: which frames close the connection and with which code,
 and what those that do not leave behind, said of the list of frames that the peer has sent, not
 of the walk over its bytes.
 */
module ControlFrames {
  import opened Varint
  import opened FrameHeader
  import C = ControlStream
  import W = CapsuleWire

  /** A frame is on the wire what a capsule is: two integers, perhaps longer than necessary, and a payload. */
  type Frame = W.Item

  // ---------------------------------------------------------------- what the frames say

  /** The payload is one integer and nothing else. */
  predicate OneInteger(payload: seq<byte>) {
    Decode(payload).Decoded? && Decode(payload).length == |payload|
  }

  function Value(x: Frame): nat {
    if OneInteger(x.payload) then Decode(x.payload).value else 0
  }

  /** DATA, HEADERS, PUSH_PROMISE and the types that HTTP/2 had. */
  predicate NeverHere(typ: nat) {
    typ == 0x00 || typ == 0x01 || typ == 0x02 || typ == 0x05 || typ == 0x06 || typ == 0x08 || typ == 0x09
  }

  /** CANCEL_PUSH, GOAWAY, MAX_PUSH_ID. */
  predicate CarriesInteger(typ: nat) {
    typ == 0x03 || typ == 0x07 || typ == 0x0d
  }

  /** What the header alone rules out, after the frames `done`. */
  function HeaderError(env: C.Env, done: seq<Frame>, typ: nat, length: nat): C.Option<C.Error> {
    if done == [] && typ != 0x04 then C.Some(C.MissingSettings)
    else if done != [] && (typ == 0x04 || NeverHere(typ) || (typ == 0x0d && env.client)) then C.Some(C.FrameUnexpected)
    else if typ == 0x04 && length > 512 then C.Some(C.ExcessiveLoad)
    else if CarriesInteger(typ) && !(1 <= length <= 8) then C.Some(C.FrameError)
    else C.None
  }

  /** What the payload rules out: unacceptable settings, malformed integers, and ids against the order. */
  function PayloadError(env: C.Env, done: seq<Frame>, x: Frame): C.Option<C.Error> {
    if x.typ == 0x04 then
      match env.check(x.payload)
      case BadSetting => C.Some(C.SettingsError)
      case BadLayout => C.Some(C.FrameError)
      case Fine => C.None
    else if !CarriesInteger(x.typ) then C.None
    else if !OneInteger(x.payload) then C.Some(C.FrameError)
    else if x.typ == 0x03 then C.Some(C.IdError)
    else if x.typ == 0x0d then (if exists y <- done :: y.typ == 0x0d && Value(y) > Value(x) then C.Some(C.IdError) else C.None)
    else if (env.client && Value(x) % 4 != 0) || (exists y <- done :: y.typ == 0x07 && Value(y) < Value(x)) then C.Some(C.IdError)
    else C.None
  }

  /** What the session above is told of. */
  function Told(done: seq<Frame>): seq<C.Seen> {
    if done == [] then []
    else
      var x := done[|done| - 1];
      Told(done[..|done| - 1]) +
      (if x.typ == 0x04 then [C.PeerSettings(x.payload)] else if x.typ == 0x07 then [C.Goaway(Value(x))] else [])
  }

  /** The value of the last frame of this type. */
  function Last(done: seq<Frame>, typ: nat): C.Option<nat> {
    if done == [] then C.None
    else if done[|done| - 1].typ == typ then C.Some(Value(done[|done| - 1]))
    else Last(done[..|done| - 1], typ)
  }

  /** The connection as the frames it has accepted make it. */
  function Standing(done: seq<Frame>): C.Conn {
    C.Conn(done != [], Last(done, 0x07), Last(done, 0x0d), C.None, Told(done))
  }

  /** Accepted GOAWAY ids never rise and MAX_PUSH_ID never falls, so the last is the extreme. */
  predicate InOrder(done: seq<Frame>) {
    (forall y <- done :: y.typ == 0x07 ==> Last(done, 0x07).Some? && Last(done, 0x07).value <= Value(y)) &&
    (forall y <- done :: y.typ == 0x0d ==> Last(done, 0x0d).Some? && Last(done, 0x0d).value >= Value(y)) &&
    (Last(done, 0x07).Some? ==> exists y <- done :: y.typ == 0x07 && Value(y) == Last(done, 0x07).value) &&
    (Last(done, 0x0d).Some? ==> exists y <- done :: y.typ == 0x0d && Value(y) == Last(done, 0x0d).value)
  }

  /** Neither header nor payload of `x` closes the connection. */
  predicate Accepted(env: C.Env, done: seq<Frame>, x: Frame) {
    HeaderError(env, done, x.typ, |x.payload|).None? && PayloadError(env, done, x).None?
  }

  lemma StandingGrows(done: seq<Frame>, x: Frame)
    ensures var s, t := Standing(done), Standing(done + [x]);
            t.settings && t.goaway == (if x.typ == 0x07 then C.Some(Value(x)) else s.goaway) &&
            t.maxPush == (if x.typ == 0x0d then C.Some(Value(x)) else s.maxPush) &&
            t.log == s.log + (if x.typ == 0x04 then [C.PeerSettings(x.payload)] else if x.typ == 0x07 then [C.Goaway(Value(x))] else [])
  {
    assert (done + [x])[..|done|] == done;
  }

  lemma OrderGrows(env: C.Env, done: seq<Frame>, x: Frame)
    requires InOrder(done) && Accepted(env, done, x)
    ensures InOrder(done + [x])
  {
    StandingGrows(done, x);
    var all := done + [x];
    assert all[|done|] == x;
    assert forall y <- all :: y == x || y in done;
    assert forall y <- done :: y in all;
    hide Last, Value;
  }

  // ---------------------------------------------------------------- one frame

  lemma RefusalIs(env: C.Env, done: seq<Frame>, typ: nat, length: nat)
    ensures C.Refusal(env, Standing(done), typ, length) == HeaderError(env, done, typ, length)
  {
  }

  /** A frame that is not refused by its header is refused by its payload, or does its part. */
  lemma FinishIs(env: C.Env, done: seq<Frame>, x: Frame)
    requires InOrder(done) && HeaderError(env, done, x.typ, |x.payload|).None?
    ensures var d := C.Finish(env, Standing(done), x.typ, x.payload);
            match PayloadError(env, done, x)
            case Some(e) => d == Standing(done).(closed := C.Some(e))
            case None => d == Standing(done + [x]).(closed := if x.typ == 0x04 || x.typ == 0x07 then env.react(Told(done + [x])) else C.None)
  {
    StandingGrows(done, x);
    hide Last, Told, Decode;
  }

  lemma FrameMeans(env: C.Env, done: seq<Frame>, x: Frame, rest: seq<byte>)
    requires InOrder(done) && W.Writable(x)
    ensures var m := C.Meaning(env, Standing(done), W.Wire(x) + rest);
            if HeaderError(env, done, x.typ, |x.payload|).Some?
            then m == Standing(done).(closed := HeaderError(env, done, x.typ, |x.payload|))
            else if PayloadError(env, done, x).Some? then m == Standing(done).(closed := PayloadError(env, done, x))
            else var closed := if x.typ == 0x04 || x.typ == 0x07 then env.react(Told(done + [x])) else C.None;
                 m == if closed.Some? then Standing(done + [x]).(closed := closed) else C.Meaning(env, Standing(done + [x]), rest)
  {
    hide W.Wire, W.Writable, ParseHeader, C.Finish, C.Refusal, HeaderError, PayloadError, InOrder;
    W.WireHeader(x, rest);
    var bs := W.Wire(x) + rest;
    assert bs[|W.Wire(x)|..] == rest;
    RefusalIs(env, done, x.typ, |x.payload|);
    if HeaderError(env, done, x.typ, |x.payload|).None? {
      FinishIs(env, done, x);
      var d := C.Finish(env, Standing(done), x.typ, x.payload);
      if d.closed.Some? {
        ClosedMeansItself(env, d, rest);
      }
    }
  }

  lemma ClosedMeansItself(env: C.Env, c: C.Conn, bs: seq<byte>)
    requires c.closed.Some?
    ensures C.Meaning(env, c, bs) == c
  {
  }

  // ---------------------------------------------------------------- every list of frames

  predicate AllWritable(xs: seq<Frame>) {
    forall x <- xs :: W.Writable(x)
  }

  /** Each frame is accepted after those before it, and no report makes the session close the connection. */
  predicate Admitted(env: C.Env, xs: seq<Frame>) {
    xs == [] || (Admitted(env, xs[..|xs| - 1]) && Accepted(env, xs[..|xs| - 1], xs[|xs| - 1]) && Quiet(env, xs))
  }

  predicate Quiet(env: C.Env, done: seq<Frame>) {
    done != [] && (done[|done| - 1].typ == 0x04 || done[|done| - 1].typ == 0x07) ==> env.react(Told(done)).None?
  }

  lemma {:induction false} WiresSplit(xs: seq<Frame>, ys: seq<Frame>)
    requires AllWritable(xs) && AllWritable(ys) && AllWritable(xs + ys)
    ensures W.Wires(xs + ys) == W.Wires(xs) + W.Wires(ys)
  {
    hide W.Wire, W.Writable;
    if xs == [] {
      assert xs + ys == ys;
    } else {
      assert (xs + ys)[1..] == xs[1..] + ys && (xs + ys)[0] == xs[0];
      WiresSplit(xs[1..], ys);
    }
  }

  lemma WiresGrow(xs: seq<Frame>, x: Frame, rest: seq<byte>)
    requires AllWritable(xs) && W.Writable(x) && AllWritable(xs + [x])
    ensures W.Wires(xs + [x]) + rest == W.Wires(xs) + (W.Wire(x) + rest)
  {
    hide W.Wire, W.Writable;
    WiresSplit(xs, [x]);
    assert [x][1..] == [];
    assert W.Wires([x]) == W.Wire(x) + W.Wires([]) == W.Wire(x);
  }

  /**
   Frames that are all admitted leave the connection as they make it: settings seen, the last
   GOAWAY and the last MAX_PUSH_ID, and the reports in order; and what follows is read after them.
   */
  lemma {:induction false} AdmittedMeans(env: C.Env, xs: seq<Frame>, rest: seq<byte>)
    requires AllWritable(xs) && Admitted(env, xs)
    ensures InOrder(xs)
    ensures C.Meaning(env, C.NewConn, W.Wires(xs) + rest) == C.Meaning(env, Standing(xs), rest)
  {
    hide C.Meaning, W.Wire, W.Writable, Accepted, Quiet, InOrder;
    if xs == [] {
      assert W.Wires(xs) + rest == rest;
      NothingDone();
    } else {
      var n := |xs| - 1;
      var done, x := xs[..n], xs[n];
      assert xs == done + [x];
      AdmittedMeans(env, done, W.Wire(x) + rest);
      WiresGrow(done, x, rest);
      OrderGrows(env, done, x);
      FrameAdmitted(env, done, x, rest);
    }
  }

  lemma NothingDone()
    ensures InOrder([]) && Standing([]) == C.NewConn
  {
  }

  lemma FrameAdmitted(env: C.Env, done: seq<Frame>, x: Frame, rest: seq<byte>)
    requires InOrder(done) && W.Writable(x) && Accepted(env, done, x) && Quiet(env, done + [x])
    ensures C.Meaning(env, Standing(done), W.Wire(x) + rest) == C.Meaning(env, Standing(done + [x]), rest)
  {
    hide C.Meaning, W.Wire, W.Writable, InOrder, HeaderError, PayloadError, Told;
    FrameMeans(env, done, x, rest);
    assert (done + [x])[|done|] == x;
  }

  /**
   Which frame closes the connection, and with which code. After any frames that were admitted the
   next one closes it with the error of its header, else with that of its payload, else only if the
   session above wants it closed; whatever bytes follow.
   */
  lemma NextFrameCloses(env: C.Env, xs: seq<Frame>, x: Frame, rest: seq<byte>)
    requires AllWritable(xs) && Admitted(env, xs) && W.Writable(x) && AllWritable(xs + [x])
    ensures var m := C.Meaning(env, C.NewConn, W.Wires(xs + [x]) + rest);
            var e := if HeaderError(env, xs, x.typ, |x.payload|).Some? then HeaderError(env, xs, x.typ, |x.payload|) else PayloadError(env, xs, x);
            (e.Some? ==> m == Standing(xs).(closed := e)) &&
            (e.None? && !Quiet(env, xs + [x]) ==> m == Standing(xs + [x]).(closed := env.react(Told(xs + [x])))) &&
            (Accepted(env, xs, x) && Quiet(env, xs + [x]) <==> Admitted(env, xs + [x]))
  {
    hide C.Meaning, W.Wire, W.Writable, InOrder, HeaderError, PayloadError, Told, Last;
    AdmittedMeans(env, xs, W.Wire(x) + rest);
    WiresGrow(xs, x, rest);
    FrameMeans(env, xs, x, rest);
    assert (xs + [x])[|xs|] == x && (xs + [x])[..|xs|] == xs;
  }

  /** A frame that its header rules out closes the connection before any of its payload has arrived. */
  lemma HeaderAloneCloses(env: C.Env, xs: seq<Frame>, bs: seq<byte>)
    requires AllWritable(xs) && Admitted(env, xs) && ParseHeader(bs).Header?
    requires HeaderError(env, xs, ParseHeader(bs).typ, ParseHeader(bs).length).Some?
    ensures C.Meaning(env, C.NewConn, W.Wires(xs) + bs) ==
            Standing(xs).(closed := HeaderError(env, xs, ParseHeader(bs).typ, ParseHeader(bs).length))
  {
    hide W.Wires, C.Refusal, HeaderError, ParseHeader, InOrder, Last, Told;
    AdmittedMeans(env, xs, bs);
    RefusalIs(env, xs, ParseHeader(bs).typ, ParseHeader(bs).length);
  }
}
