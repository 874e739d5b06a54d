/**
 The peer's control stream (section 7.2 of RFC 9114): SETTINGS first and once, GOAWAY and
 MAX_PUSH_ID within their limits, everything unknown skipped. The engine walks whatever bytes
 each delivery brings; the outcome is proved to depend on the bytes alone.
 */
module ControlStream {
  import opened Varint
  import opened FrameHeader

  const SettingsType: nat := 0x04
  const CancelPushType: nat := 0x03
  const GoawayType: nat := 0x07
  const MaxPushIdType: nat := 0x0d
  const BufferSize: nat := 512

  datatype Error = MissingSettings | FrameUnexpected | ExcessiveLoad | FrameError | IdError | SettingsError | OtherError(code: nat)

  datatype Option<T> = None | Some(value: T)

  /** What the walk reports to the session above. */
  datatype Seen = PeerSettings(payload: seq<byte>) | Goaway(id: nat)

  datatype Verdict = Fine | BadSetting | BadLayout

  /**
   What the walk does not decide itself: which end this is, whether a SETTINGS payload is
   acceptable, and whether handling the last report made somebody close the connection.
   */
  datatype Env = Env(client: bool, check: seq<byte> -> Verdict, react: seq<Seen> -> Option<Error>)

  datatype Conn = Conn(settings: bool, goaway: Option<nat>, maxPush: Option<nat>, closed: Option<Error>, log: seq<Seen>)

  const NewConn := Conn(false, None, None, None, [])

  datatype Kind = SettingsFrame | OneVarint | Skipped

  predicate Forbidden(typ: nat) {
    typ == 0x00 || typ == 0x01 || typ == 0x05 || typ == 0x02 || typ == 0x06 || typ == 0x08 || typ == 0x09
  }

  function Fatal(c: Conn, e: Error): Conn {
    if c.closed.Some? then c else c.(closed := Some(e))
  }

  function Report(env: Env, c: Conn, x: Seen): Conn {
    var log := c.log + [x];
    var t := c.(log := log);
    match env.react(log)
    case None => t
    case Some(e) => Fatal(t, e)
  }

  predicate IsOneVarint(typ: nat) {
    typ == GoawayType || typ == CancelPushType || typ == MaxPushIdType
  }

  function KindOf(typ: nat): Kind {
    if typ == SettingsType then SettingsFrame else if IsOneVarint(typ) then OneVarint else Skipped
  }

  /** A frame is refused by its header, or its payload is awaited. */
  function Refusal(env: Env, c: Conn, typ: nat, length: nat): Option<Error> {
    var isSettings := typ == SettingsType;
    if !c.settings && !isSettings then Some(MissingSettings)
    else if c.settings && isSettings then Some(FrameUnexpected)
    else if !isSettings && Forbidden(typ) then Some(FrameUnexpected)
    else if isSettings then (if length > BufferSize then Some(ExcessiveLoad) else None)
    else if IsOneVarint(typ) then
      if typ == MaxPushIdType && env.client then Some(FrameUnexpected)
      else if length == 0 || length > 8 then Some(FrameError)
      else None
    else None
  }

  /** What a complete frame does. */
  function Finish(env: Env, c: Conn, typ: nat, payload: seq<byte>): Conn {
    match KindOf(typ)
    case Skipped => c
    case SettingsFrame =>
      (match env.check(payload)
       case BadSetting => Fatal(c, SettingsError)
       case BadLayout => Fatal(c, FrameError)
       case Fine => Report(env, c.(settings := true), PeerSettings(payload)))
    case OneVarint =>
      (match Decode(payload)
       case Incomplete => Fatal(c, FrameError)
       case Decoded(v, n) =>
         if n != |payload| then Fatal(c, FrameError)
         else if typ == CancelPushType then Fatal(c, IdError)
         else if typ == MaxPushIdType then
           if c.maxPush.Some? && v < c.maxPush.value then Fatal(c, IdError) else c.(maxPush := Some(v))
         else if (env.client && v % 4 != 0) || (c.goaway.Some? && v > c.goaway.value) then Fatal(c, IdError)
         else Report(env, c.(goaway := Some(v)), Goaway(v)))
  }

  // ---------------------------------------------------------------- whole buffers

  /** The meaning of a byte string: one frame after the other, until the connection is closed. */
  function Meaning(env: Env, c: Conn, bs: seq<byte>): Conn
    decreases |bs|
  {
    var h := ParseHeader(bs);
    if c.closed.Some? || h.NoHeader? then c
    else
      match Refusal(env, c, h.typ, h.length)
      case Some(e) => Fatal(c, e)
      case None =>
        var n := h.bytes + h.length;
        if |bs| < n then c else Meaning(env, Finish(env, c, h.typ, bs[h.bytes..n]), bs[n..])
  }

  // ---------------------------------------------------------------- byte by byte

  datatype Walk =
    | InHeader(r: Reading)
    | InPayload(typ: nat, remaining: nat, buffer: seq<byte>)
    | Dead

  datatype State = State(conn: Conn, walk: Walk)

  const AtHeader := InHeader(FreshHeader)

  /** After a frame, or a refusal. */
  function Onward(c: Conn): State {
    State(c, if c.closed.Some? then Dead else AtHeader)
  }

  function Opened(env: Env, c: Conn, h: Header): State
    requires h.Header?
  {
    match Refusal(env, c, h.typ, h.length)
    case Some(e) => Onward(Fatal(c, e))
    case None =>
      if h.length == 0 then Onward(Finish(env, c, h.typ, [])) else State(c, InPayload(h.typ, h.length, []))
  }

  function StepByte(env: Env, s: State, b: byte): State {
    match s.walk
    case Dead => s
    case InHeader(r) =>
      (match HeaderStep(r, b)
       case Still(q) => s.(walk := InHeader(q))
       case Got(h) => if h.NoHeader? then s else Opened(env, s.conn, h))
    case InPayload(typ, remaining, buffer) =>
      var more := if KindOf(typ) == Skipped then buffer else buffer + [b];
      if remaining <= 1 then Onward(Finish(env, s.conn, typ, more))
      else s.(walk := InPayload(typ, remaining - 1, more))
  }

  function Run(env: Env, s: State, bs: seq<byte>): State {
    if bs == [] then s else StepByte(env, Run(env, s, bs[..|bs| - 1]), bs[|bs| - 1])
  }

  lemma {:induction false} RunConcat(env: Env, s: State, a: seq<byte>, b: seq<byte>)
    ensures Run(env, s, a + b) == Run(env, Run(env, s, a), b)
  {
    hide StepByte;
    if b == [] {
      assert a + b == a;
    } else {
      var n := |b| - 1;
      RunConcat(env, s, a, b[..n]);
      assert (a + b)[..|a + b| - 1] == a + b[..n];
    }
  }

  lemma RunNothing(env: Env, s: State, src: seq<byte>)
    ensures Run(env, s, src[..0]) == s
  {
  }

  lemma {:induction false} DeadStays(env: Env, s: State, bs: seq<byte>)
    requires s.walk.Dead?
    ensures Run(env, s, bs) == s
  {
    if bs != [] {
      DeadStays(env, s, bs[..|bs| - 1]);
    }
  }

  /** The walk follows the header reader up to the byte that completes the header. */
  lemma {:induction false} HeaderRuns(env: Env, c: Conn, r: Reading, bs: seq<byte>)
    requires bs == [] || HeaderSteps(r, bs[..|bs| - 1]).Still?
    requires HeaderSteps(r, bs).Got? ==> HeaderSteps(r, bs).h.Header?
    ensures var a := HeaderSteps(r, bs);
      Run(env, State(c, InHeader(r)), bs) == if a.Still? then State(c, InHeader(a.r)) else Opened(env, c, a.h)
    decreases |bs|
  {
    if bs != [] {
      var front := bs[..|bs| - 1];
      if front != [] {
        StillBefore(r, front, |front| - 1);
      }
      HeaderRuns(env, c, r, front);
      hide HeaderStep, Opened;
    }
  }

  /** The payload that has arrived; skipped frames are not kept. */
  function Kept(typ: nat, bs: seq<byte>): seq<byte> {
    if KindOf(typ) == Skipped then [] else bs
  }

  lemma {:induction false} PayloadRuns(env: Env, s: State, bs: seq<byte>)
    requires s.walk.InPayload? && |bs| <= s.walk.remaining && 0 < s.walk.remaining
    ensures var w := s.walk; var all := w.buffer + Kept(w.typ, bs);
      Run(env, s, bs) ==
      if |bs| < w.remaining then s.(walk := InPayload(w.typ, w.remaining - |bs|, all)) else Onward(Finish(env, s.conn, w.typ, all))
  {
    hide Finish;
    var w := s.walk;
    if bs == [] {
      assert w.buffer + [] == w.buffer;
    } else {
      var n := |bs| - 1;
      PayloadRuns(env, s, bs[..n]);
      assert bs[..n] + [bs[n]] == bs;
      assert w.buffer + bs[..n] + [bs[n]] == w.buffer + bs;
    }
  }

  /** A whole frame at the front of a buffer. */
  lemma FrameRuns(env: Env, c: Conn, bs: seq<byte>)
    requires c.closed.None? && ParseHeader(bs).Header?
    ensures var h := ParseHeader(bs); Run(env, State(c, AtHeader), bs[..h.bytes]) == Opened(env, c, h)
    ensures var h := ParseHeader(bs); var n := h.bytes + h.length;
      Refusal(env, c, h.typ, h.length).None? && |bs| >= n ==>
      Run(env, State(c, AtHeader), bs[..n]) == Onward(Finish(env, c, h.typ, Kept(h.typ, bs[h.bytes..n])))
    ensures var h := ParseHeader(bs);
      Refusal(env, c, h.typ, h.length).None? && |bs| < h.bytes + h.length ==> Run(env, State(c, AtHeader), bs).conn == c
  {
    hide Run, ParseHeader, HeaderSteps, Finish;
    var h := ParseHeader(bs);
    HeaderIsParsed(bs);
    ShorterHasNoHeader(bs);
    HeaderIsParsed(bs[..h.bytes - 1]);
    assert bs[..h.bytes][..h.bytes - 1] == bs[..h.bytes - 1];
    HeaderRuns(env, c, FreshHeader, bs[..h.bytes]);
    if Refusal(env, c, h.typ, h.length).None? {
      PayloadAfter(env, c, bs, h);
    }
  }

  lemma PayloadAfter(env: Env, c: Conn, bs: seq<byte>, h: Header)
    requires h.Header? && h.bytes <= |bs| && Refusal(env, c, h.typ, h.length).None?
    requires Run(env, State(c, AtHeader), bs[..h.bytes]) == Opened(env, c, h)
    ensures var n := h.bytes + h.length;
      |bs| >= n ==> Run(env, State(c, AtHeader), bs[..n]) == Onward(Finish(env, c, h.typ, Kept(h.typ, bs[h.bytes..n])))
    ensures |bs| < h.bytes + h.length ==> Run(env, State(c, AtHeader), bs).conn == c
  {
    hide Run, Finish, Refusal;
    var n := if |bs| < h.bytes + h.length then |bs| else h.bytes + h.length;
    var payload := bs[h.bytes..n];
    RunConcat(env, State(c, AtHeader), bs[..h.bytes], payload);
    assert bs[..h.bytes] + payload == bs[..n];
    assert bs[..|bs|] == bs;
    if h.length == 0 {
      assert payload == [] && bs[..n] == bs[..h.bytes];
    } else {
      PayloadRuns(env, State(c, InPayload(h.typ, h.length, [])), payload);
      assert [] + Kept(h.typ, payload) == Kept(h.typ, payload);
    }
  }

  /** Skipped frames do nothing, whatever their payload. */
  lemma KeptEnough(env: Env, c: Conn, typ: nat, payload: seq<byte>)
    ensures Finish(env, c, typ, Kept(typ, payload)) == Finish(env, c, typ, payload)
  {
  }

  /** For every byte string, walking it byte by byte means what the whole string means. */
  lemma {:induction false} RunIsMeaning(env: Env, c: Conn, bs: seq<byte>)
    requires c.closed.None?
    ensures Run(env, State(c, AtHeader), bs).conn == Meaning(env, c, bs)
    decreases |bs|
  {
    hide Run, ParseHeader, HeaderSteps, Finish;
    var s := State(c, AtHeader);
    var h := ParseHeader(bs);
    if h.NoHeader? {
      HeaderIsParsed(bs);
      if bs != [] {
        StillBefore(FreshHeader, bs, |bs| - 1);
      }
      HeaderRuns(env, c, FreshHeader, bs);
    } else {
      FrameRuns(env, c, bs);
      var n := h.bytes + h.length;
      if Refusal(env, c, h.typ, h.length).Some? {
        RunConcat(env, s, bs[..h.bytes], bs[h.bytes..]);
        assert bs[..h.bytes] + bs[h.bytes..] == bs;
        DeadStays(env, Run(env, s, bs[..h.bytes]), bs[h.bytes..]);
      } else if |bs| >= n {
        KeptEnough(env, c, h.typ, bs[h.bytes..n]);
        var d := Finish(env, c, h.typ, bs[h.bytes..n]);
        RunConcat(env, s, bs[..n], bs[n..]);
        assert bs[..n] + bs[n..] == bs;
        if d.closed.Some? {
          DeadStays(env, Onward(d), bs[n..]);
        } else {
          RunIsMeaning(env, d, bs[n..]);
        }
      }
    }
  }

  // ---------------------------------------------------------------- limits only move one way

  /** A limit that is set stays set and does not rise. */
  predicate NotRaised(a: Option<nat>, b: Option<nat>) {
    a.Some? ==> b.Some? && b.value <= a.value
  }

  predicate NotLowered(a: Option<nat>, b: Option<nat>) {
    a.Some? ==> b.Some? && a.value <= b.value
  }

  /** Every GOAWAY reported was at or above the present limit, in falling order; settings came first and once. */
  predicate LogOk(c: Conn) {
    (forall i :: 0 <= i < |c.log| && c.log[i].Goaway? ==> c.goaway.Some? && c.goaway.value <= c.log[i].id) &&
    (forall i, j :: 0 <= i < j < |c.log| && c.log[i].Goaway? && c.log[j].Goaway? ==> c.log[j].id <= c.log[i].id) &&
    (forall i :: 0 <= i < |c.log| ==> (c.log[i].PeerSettings? <==> i == 0)) && (c.settings <==> c.log != [])
  }

  predicate Moves(a: Conn, b: Conn) {
    NotRaised(a.goaway, b.goaway) && NotLowered(a.maxPush, b.maxPush) && |a.log| <= |b.log| && b.log[..|a.log|] == a.log &&
    (LogOk(a) ==> LogOk(b))
  }

  lemma FinishMoves(env: Env, c: Conn, typ: nat, payload: seq<byte>)
    requires typ == SettingsType <==> !c.settings
    ensures Moves(c, Finish(env, c, typ, payload))
  {
    hide Decode;
  }

  /** A payload is only awaited for a frame that its header did not rule out. */
  predicate Sound(s: State) {
    s.walk.InPayload? ==> (s.walk.typ == SettingsType <==> !s.conn.settings)
  }

  lemma StepMoves(env: Env, s: State, b: byte)
    requires Sound(s)
    ensures Moves(s.conn, StepByte(env, s, b).conn) && Sound(StepByte(env, s, b))
  {
    hide Finish, Moves;
    SameMoves(s.conn);
    match s.walk
    case Dead =>
    case InHeader(r) =>
      var a := HeaderStep(r, b);
      if a.Got? && a.h.Header? {
        OpenMoves(env, s.conn, a.h);
      }
    case InPayload(typ, remaining, buffer) =>
      FinishMoves(env, s.conn, typ, if KindOf(typ) == Skipped then buffer else buffer + [b]);
  }

  lemma SameMoves(c: Conn)
    ensures Moves(c, c)
  {
  }

  lemma OpenMoves(env: Env, c: Conn, h: Header)
    requires h.Header?
    ensures Moves(c, Opened(env, c, h).conn) && Sound(Opened(env, c, h))
  {
    match Refusal(env, c, h.typ, h.length)
    case Some(e) => assert LogOk(c) ==> LogOk(Fatal(c, e));
    case None =>
      if h.length == 0 {
        FinishMoves(env, c, h.typ, []);
      }
  }

  lemma MovesOn(a: Conn, b: Conn, c: Conn)
    requires Moves(a, b) && Moves(b, c)
    ensures Moves(a, c)
  {
    assert c.log[..|a.log|] == c.log[..|b.log|][..|a.log|];
  }

  /**
   Over every byte string: accepted GOAWAY ids never rise, MAX_PUSH_ID never falls, reports are
   only added, and SETTINGS is the first of them and the only one of its kind.
   */
  lemma {:induction false} LimitsMoveOneWay(env: Env, s: State, bs: seq<byte>)
    requires Sound(s)
    ensures Moves(s.conn, Run(env, s, bs).conn) && Sound(Run(env, s, bs))
  {
    hide StepByte, Moves;
    if bs == [] {
      SameMoves(s.conn);
    } else {
      var front := bs[..|bs| - 1];
      LimitsMoveOneWay(env, s, front);
      StepMoves(env, Run(env, s, front), bs[|bs| - 1]);
      MovesOn(s.conn, Run(env, s, front).conn, Run(env, s, bs).conn);
    }
  }

  lemma NewConnOk()
    ensures LogOk(NewConn) && Sound(State(NewConn, AtHeader))
  {
  }

  // ---------------------------------------------------------------- the walk as the engine does it

  class ControlWalk {
    const dec: HeaderDecoder
    const buffer: array<byte>
    var active: bool
    var typ: nat
    var remaining: nat
    var fill: nat
    var conn: Conn

    ghost predicate Valid()
      reads this, dec, dec.vi
    {
      dec.Valid() && buffer.Length == BufferSize && fill <= BufferSize &&
      (active && conn.closed.None? ==> remaining > 0 && Fits())
    }

    /** There is room for the rest of the payload. */
    ghost predicate Fits()
      reads this, dec, dec.vi
    {
      dec.View() == FreshHeader && fill <= BufferSize &&
      if KindOf(typ) == Skipped then fill == 0 else fill + remaining <= BufferSize
    }

    ghost function View(): State
      requires fill <= buffer.Length
      reads this, dec, dec.vi, buffer
    {
      State(conn, if conn.closed.Some? then Dead else if active then InPayload(typ, remaining, buffer[..fill]) else InHeader(dec.View()))
    }

    constructor ()
      ensures Valid() && View() == State(NewConn, AtHeader) && fresh(dec) && fresh(dec.vi) && fresh(buffer)
    {
      dec := new HeaderDecoder();
      buffer := new byte[BufferSize];
      active, typ, remaining, fill, conn := false, 0, 0, 0, NewConn;
    }

    /** Read a header; unless it is refused, its payload comes next, even an empty one. */
    method TakeHeader(env: Env, data: seq<byte>) returns (more: bool, consumed: nat)
      requires Valid() && !active && conn.closed.None?
      modifies this, dec, dec.vi
      ensures consumed <= |data| && dec.Valid() && buffer.Length == BufferSize && fill <= BufferSize
      ensures !more ==> Valid() && View() == Run(env, old(View()), data[..consumed]) && (consumed == |data| || conn.closed.Some?)
      ensures more ==> consumed > 0 && active && conn == old(conn) && Fits() && fill == 0
      ensures more && remaining > 0 ==> View() == Run(env, old(View()), data[..consumed])
      ensures more && remaining == 0 ==> Run(env, old(View()), data[..consumed]) == Onward(Finish(env, conn, typ, []))
    {
      hide Run, Waiting, HeaderSteps, Finish;
      ghost var before := dec.View();
      var done, h, c := dec.Feed(data);
      consumed := c;
      HeaderFed(env, conn, before, data, c, done);
      if !done {
        assert data[..c] == data;
        return false, consumed;
      }
      typ, remaining, active, fill := h.typ, h.length, true, 0;
      assert buffer[..0] == [];
      var refusal := Refusal(env, conn, typ, remaining);
      if refusal.Some? {
        conn := Fatal(conn, refusal.value);
        return false, consumed;
      }
      return true, consumed;
    }

    /** Copy what there is of the payload; process the frame when it is complete. */
    method TakePayload(env: Env, data: seq<byte>) returns (consumed: nat)
      requires dec.Valid() && buffer.Length == BufferSize && active && conn.closed.None? && Fits()
      modifies this, buffer
      ensures Valid() && consumed <= |data| && (remaining == 0 || conn.closed.Some? || consumed == |data| || !active)
      ensures old(remaining) == 0 ==> consumed == 0 && View() == Onward(Finish(env, old(conn), old(typ), old(buffer[..fill])))
      ensures old(remaining) > 0 ==> View() == Run(env, old(View()), data[..consumed]) && (data != [] ==> consumed > 0)
    {
      hide Run, Waiting, Finish;
      ghost var before := View();
      var take := if remaining < |data| then remaining else |data|;
      if KindOf(typ) != Skipped && take > 0 {
        Copy(data[..take]);
      }
      assert buffer[..fill] == before.walk.buffer + Kept(typ, data[..take]) by {
        assert before.walk.buffer + [] == before.walk.buffer;
        assert data[..0] == [];
      }
      consumed := take;
      remaining := remaining - take;
      if before.walk.remaining > 0 {
        PayloadRuns(env, before, data[..take]);
      } else {
        assert data[..0] == [];
      }
      if remaining == 0 {
        active := false;
        conn := Finish(env, conn, typ, buffer[..fill]);
      }
    }

    method Copy(src: seq<byte>)
      requires buffer.Length == BufferSize && fill + |src| <= BufferSize
      modifies this`fill, buffer
      ensures fill == old(fill) + |src| && buffer[..fill] == old(buffer[..fill]) + src
    {
      ghost var was := buffer[..fill];
      var i := 0;
      while i < |src|
        invariant i <= |src| && fill == old(fill) && buffer[..fill + i] == was + src[..i]
      {
        buffer[fill + i] := src[i];
        assert buffer[..fill + i + 1] == buffer[..fill + i] + [src[i]];
        assert src[..i + 1] == src[..i] + [src[i]];
        i := i + 1;
      }
      fill := fill + |src|;
      assert src[..i] == src;
    }

    /** Whatever a delivery brings: the state depends on the bytes and nothing else. */
    method ControlBytes(env: Env, data: seq<byte>)
      requires Valid()
      modifies this, dec, dec.vi, buffer
      ensures Valid() && View() == Run(env, old(View()), data)
    {
      hide Run, Waiting, Finish;
      ghost var before := View();
      var off := 0;
      RunNothing(env, before, data);
      while off < |data| && conn.closed.None?
        invariant off <= |data| && Valid() && View() == Run(env, before, data[..off])
        decreases |data| - off
      {
        ghost var middle := View();
        var from := off;
        if !active {
          var more, c := TakeHeader(env, data[off..]);
          RunJoin(env, before, data, from, c, middle);
          off := off + c;
          if !more {
            WalkOver(env, before, data, off, View());
            return;
          }
        }
        ghost var inside := View();
        ghost var empty := remaining == 0;
        var c := TakePayload(env, data[off..]);
        if !empty {
          RunJoin(env, before, data, off, c, inside);
        }
        off := off + c;
      }
      WalkOver(env, before, data, off, View());
    }
  }

  lemma HeaderFed(env: Env, c: Conn, r: Reading, data: seq<byte>, n: nat, done: bool)
    requires n <= |data|
    requires if done then n > 0 && HeaderSteps(r, data[..n - 1]).Still? && HeaderSteps(r, data[..n]).Got? && HeaderSteps(r, data[..n]).h.Header?
             else n == |data| && HeaderSteps(r, data).Still?
    ensures done ==> Run(env, State(c, InHeader(r)), data[..n]) == Opened(env, c, HeaderSteps(r, data[..n]).h)
    ensures !done ==> Run(env, State(c, InHeader(r)), data) == State(c, InHeader(HeaderSteps(r, data).r))
  {
    hide HeaderSteps, Run;
    if done {
      assert data[..n][..n - 1] == data[..n - 1];
      HeaderRuns(env, c, r, data[..n]);
    } else {
      if data != [] {
        StillBefore(r, data, |data| - 1);
      }
      HeaderRuns(env, c, r, data);
    }
  }

  lemma RunJoin(env: Env, s: State, data: seq<byte>, n: nat, c: nat, middle: State)
    requires n + c <= |data| && Run(env, s, data[..n]) == middle
    ensures Run(env, s, data[..n + c]) == Run(env, middle, data[n..][..c])
  {
    hide Run;
    RunConcat(env, s, data[..n], data[n..][..c]);
    assert data[..n] + data[n..][..c] == data[..n + c];
  }

  /** The walk ends with the data, or the connection is closed and ignores the rest. */
  lemma WalkOver(env: Env, s: State, data: seq<byte>, off: nat, last: State)
    requires off <= |data| && Run(env, s, data[..off]) == last && (off == |data| || last.walk.Dead?)
    ensures Run(env, s, data) == last
  {
    hide Run;
    RunConcat(env, s, data[..off], data[off..]);
    assert data[..off] + data[off..] == data;
    if off == |data| {
      assert data[..off] == data;
    } else {
      DeadStays(env, last, data[off..]);
    }
  }

  function Joined(chunks: seq<seq<byte>>): seq<byte> {
    if chunks == [] then [] else Joined(chunks[..|chunks| - 1]) + chunks[|chunks| - 1]
  }

  lemma NothingJoined(env: Env)
    ensures Run(env, State(NewConn, AtHeader), Joined([])) == State(NewConn, AtHeader)
  {
  }

  /** However the peer's bytes are split into deliveries, the outcome is that of the whole. */
  method WalkChunks(env: Env, chunks: seq<seq<byte>>) returns (conn: Conn)
    ensures conn == Meaning(env, NewConn, Joined(chunks))
    ensures LogOk(conn)
  {
    hide Run, Meaning, Waiting, Finish, LogOk;
    var walk := new ControlWalk();
    ghost var start := walk.View();
    NothingJoined(env);
    var i := 0;
    while i < |chunks|
      invariant i <= |chunks| && walk.Valid() && fresh(walk) && fresh(walk.dec) && fresh(walk.dec.vi) && fresh(walk.buffer)
      invariant walk.View() == Run(env, start, Joined(chunks[..i]))
    {
      walk.ControlBytes(env, chunks[i]);
      assert chunks[..i + 1][..i] == chunks[..i];
      RunConcat(env, start, Joined(chunks[..i]), chunks[i]);
      i := i + 1;
    }
    assert chunks[..i] == chunks;
    RunIsMeaning(env, NewConn, Joined(chunks));
    NewConnOk();
    LimitsMoveOneWay(env, start, Joined(chunks));
    conn := walk.conn;
  }
}
