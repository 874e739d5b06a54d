/**
 How received bytes reach the application on a Network stream, as the code does it: the engine's
 loop over chunks with its count of what it consumed, the backend's walk over the regions of a
 held completion with its offset, and the calls the application makes from inside every callback.
 All of it changes one object in place. The object carries the run of the receive machine that it
 has gone through, so what holds over every run of the machine holds for the loops.
 */
module NwDelivery {
  import opened NwReceive

  // ---------------------------------------------------------------- regions

  function Joined(regions: seq<seq<byte>>): seq<byte> {
    if regions == [] then [] else Joined(regions[..|regions| - 1]) + regions[|regions| - 1]
  }

  /** Where region `r` lies in the whole. */
  lemma {:induction false} JoinedAt(regions: seq<seq<byte>>, r: nat)
    requires r < |regions|
    ensures var off := |Joined(regions[..r])|; var end := off + |regions[r]|;
      |Joined(regions[..r + 1])| == end <= |Joined(regions)| && Joined(regions)[off..end] == regions[r]
    decreases |regions|
  {
    var n := |regions| - 1;
    assert regions[..r + 1][..r] == regions[..r];
    if r < n {
      JoinedAt(regions[..n], r);
      assert regions[..n][..r] == regions[..r] && regions[..n][..r + 1] == regions[..r + 1];
    } else {
      assert regions[..r + 1] == regions;
    }
  }

  predicate NoneEmpty(regions: seq<seq<byte>>) {
    forall r :: 0 <= r < |regions| ==> regions[r] != []
  }

  lemma JoinedEnds(regions: seq<seq<byte>>, r: nat)
    requires r <= |regions| && NoneEmpty(regions)
    ensures |Joined(regions[..r])| <= |Joined(regions)|
    ensures |Joined(regions[..r])| == |Joined(regions)| <==> r == |regions|
  {
    if r < |regions| {
      JoinedAt(regions, r);
    } else {
      assert regions[..r] == regions;
    }
  }

  lemma AtStart(regions: seq<seq<byte>>)
    ensures |Joined(regions[..0])| == 0
  {
  }

  lemma RegionAt(regions: seq<seq<byte>>, data: seq<byte>, r: nat)
    requires r < |regions| && NoneEmpty(regions) && Joined(regions) == data
    ensures regions[r] != []
    ensures var off := |Joined(regions[..r])|; var end := off + |regions[r]|;
      |Joined(regions[..r + 1])| == end <= |data| && data[off..end] == regions[r] && (end < |data| <==> r + 1 < |regions|)
  {
    hide Joined;
    JoinedAt(regions, r);
    JoinedEnds(regions, r + 1);
  }

  // ---------------------------------------------------------------- the machine and the fields

  /** What the application may do, inside a callback or outside. */
  datatype Call = AskPause | AskResume | Shut | CloseConnection | EndSend

  datatype Answer = Ok | Closed | WrongState

  /** What the engine says about bytes it was given. */
  datatype Verdict = Taken | WouldBlock | Refused

  /** What reaches the stream from outside. */
  datatype Input =
    | Completion(content: seq<seq<byte>>, some: bool, isFin: bool, isError: bool)
    | ByApplication(call: Call)
    | Failure

  /** What the transport completes a receive with: regions that are not empty, and not both an end and an error. */
  predicate WellFormed(content: seq<seq<byte>>, some: bool, isFin: bool, isError: bool) {
    NoneEmpty(content) && (content != [] ==> some) && !(isFin && isError)
  }

  /** The engine's part of the stream; `attached` while slot and backend stream name each other. */
  datatype Slot = Slot(recvOpen: bool, sendOpen: bool, drain: bool, paused: bool, attached: bool, connClosed: bool)

  /**
   The backend fields stand for the machine's, except that the machine has already counted what
   the engine was handed and not yet reported: `pos` bytes and perhaps the end. Nothing is
   promised about the accounts of a stream that is torn down.
   */
  predicate Mirrors(b: Backend, m: Backend, pos: nat, handed: bool) {
    if b.down
    then m.down && m.pending == b.pending && m.delivering == b.delivering && m.enabled == b.enabled && m.deferred == b.deferred
    else m == b.(offset := b.offset + pos, finDelivered := b.finDelivered || handed)
  }

  /** `closed`: the engine has closed the receive side after the end of stream, the machine has yet to. */
  predicate SlotMirrors(x: Slot, s: State, closed: bool) {
    s.e.paused == x.paused &&
    (if s.b.down then x.recvOpen ==> x.connClosed
     else !x.drain && !x.connClosed && s.e.recvOpen == (x.recvOpen || closed) && !(x.recvOpen && closed)) &&
    (!x.attached ==> !x.recvOpen && !x.drain)
  }

  predicate Tied(b: Backend, x: Slot, s: State, pos: nat, handed: bool, closed: bool) {
    Inv(s) && Mirrors(b, s.b, pos, handed) && SlotMirrors(x, s, closed)
  }

  // ---------------------------------------------------------------- what a call of the application does

  datatype Sides = Sides(b: Backend, x: Slot)

  function Released(x: Slot): Slot {
    x.(attached := x.attached && (x.sendOpen || x.recvOpen || x.drain))
  }

  /** Pause or resume: refused by the engine, refused by the backend, or carried out. */
  function Asked(b: Backend, x: Slot, enable: bool): Sides {
    if x.connClosed || !x.attached || !x.recvOpen || !Accepts(b, enable) then Sides(b, x)
    else Sides(SwitchedBack(b, enable), x.(paused := !enable))
  }

  /** Stop, abort or the end of the session: the backend lets go and cancels, the engine drains. */
  function ShutDown(b: Backend, x: Slot): Sides {
    if x.connClosed || !x.attached || !(x.sendOpen || x.recvOpen) then Sides(b, x)
    else
      Sides(if b.down then b else DroppedBack(b).(down := true),
            Released(x.(sendOpen := false, recvOpen := false, drain := x.drain || x.recvOpen)))
  }

  function Called(b: Backend, x: Slot, c: Call): Sides {
    match c
    case AskPause => Asked(b, x, false)
    case AskResume => Asked(b, x, true)
    case Shut => ShutDown(b, x)
    case CloseConnection => Sides(b.(down := true), x.(connClosed := true))
    case EndSend => Sides(b, if x.connClosed then x else Released(x.(sendOpen := false)))
  }

  /** The step of the machine that a call is, if it is one. */
  function EventOf(b: Backend, x: Slot, c: Call): seq<Event> {
    match c
    case AskPause => [Pause]
    case AskResume => [Resume]
    case Shut => if ShutDown(b, x) == Sides(b, x) then [] else [Cancel(!b.down)]
    case CloseConnection => [Cancel(false)]
    case EndSend => []
  }

  function After(s: State, evs: seq<Event>): State
    requires |evs| <= 1 && (evs != [] ==> Enabled(s, evs[0]))
  {
    if evs == [] then s else Next(s, evs[0])
  }

  /** What a call does to the fields: who closes which side, and what stays. */
  lemma CallEffect(b: Backend, x: Slot)
    ensures var r := Called(b, x, Shut);
            if x.connClosed || !x.attached || (!x.sendOpen && !x.recvOpen) then r == Sides(b, x)
            else r.b.down && (!b.down ==> !r.b.deferred) && !r.x.sendOpen && !r.x.recvOpen && r.x.paused == x.paused &&
                 (r.x.drain <==> x.drain || x.recvOpen) && (r.x.attached <==> r.x.drain) && !r.x.connClosed
    ensures var r := Called(b, x, CloseConnection); r.b == b.(down := true) && r.x == x.(connClosed := true)
    ensures var r := Called(b, x, EndSend);
            r.b == b &&
            if x.connClosed then r.x == x
            else r.x == x.(sendOpen := false, attached := x.attached && (x.recvOpen || x.drain))
  {
  }

  lemma AskTies(b: Backend, x: Slot, s: State, pos: nat, handed: bool, enable: bool)
    requires Tied(b, x, s, pos, handed, false)
    ensures var r, t := Asked(b, x, enable), Switched(s, enable);
      Mirrors(r.b, t.b, pos, handed) && SlotMirrors(r.x, t, false) && t.h == s.h
  {
  }

  lemma ShutTies(b: Backend, x: Slot, s: State, pos: nat, handed: bool)
    requires Tied(b, x, s, pos, handed, false) && ShutDown(b, x) != Sides(b, x)
    ensures var r, t := ShutDown(b, x), Next(s, Cancel(!b.down));
      Mirrors(r.b, t.b, pos, handed) && SlotMirrors(r.x, t, false) && t.h.(lost := s.h.lost) == s.h
  {
  }

  lemma CloseTies(b: Backend, x: Slot, s: State, pos: nat, handed: bool)
    requires Tied(b, x, s, pos, handed, false)
    ensures var r, t := Called(b, x, CloseConnection), Next(s, Cancel(false));
      Mirrors(r.b, t.b, pos, handed) && SlotMirrors(r.x, t, false) && t.h == s.h
  {
    hide Inv, ShutDown, Asked, Switched, Stepped, Completed, Done;
  }

  /** Fields and machine stay tied through every call. */
  lemma CallTies(b: Backend, x: Slot, s: State, pos: nat, handed: bool, c: Call)
    requires Tied(b, x, s, pos, handed, false)
    ensures |EventOf(b, x, c)| <= 1 && (EventOf(b, x, c) != [] ==> Enabled(s, EventOf(b, x, c)[0]))
    ensures var r := Called(b, x, c); Tied(r.b, r.x, After(s, EventOf(b, x, c)), pos, handed, false)
    ensures After(s, EventOf(b, x, c)).h.(lost := s.h.lost) == s.h
  {
    hide Inv;
    var evs := EventOf(b, x, c);
    if evs != [] {
      StepKeeps(s, evs[0]);
    }
    match c
    case AskPause =>
      AskTies(b, x, s, pos, handed, false);
      hide Mirrors, SlotMirrors, Switched, Asked;
    case AskResume =>
      AskTies(b, x, s, pos, handed, true);
      hide Mirrors, SlotMirrors, Switched, Asked;
    case Shut =>
      if ShutDown(b, x) != Sides(b, x) {
        ShutTies(b, x, s, pos, handed);
      }
      hide Mirrors, SlotMirrors, Next, ShutDown;
    case CloseConnection =>
      CloseTies(b, x, s, pos, handed);
      hide Mirrors, SlotMirrors, Next;
    case EndSend =>
  }

  /** What the calls of one callback leave of the stream, unless they tear it down. */
  predicate Kept(b: Backend, x: Slot, c: Backend, y: Slot) {
    c.delivering == b.delivering && c.pending == b.pending && (b.down ==> c.down) && (x.connClosed ==> y.connClosed) &&
    (!c.down ==> c == b.(enabled := c.enabled) && y.recvOpen == x.recvOpen && (x.attached && x.recvOpen ==> y.attached))
  }

  lemma CallKeeps(b: Backend, x: Slot, s: State, pos: nat, handed: bool, c: Call)
    requires Tied(b, x, s, pos, handed, false) && (b.delivering || !x.recvOpen)
    ensures var r := Called(b, x, c); Kept(b, x, r.b, r.x) && (r.b.delivering || !r.x.recvOpen)
  {
  }

  lemma KeptSame(b: Backend, x: Slot)
    ensures Kept(b, x, b, x)
  {
  }

  lemma KeptTwice(b: Backend, x: Slot, c: Backend, y: Slot, d: Backend, z: Slot)
    requires Kept(b, x, c, y) && Kept(c, y, d, z)
    ensures Kept(b, x, d, z)
  {
  }

  // ---------------------------------------------------------------- what the machine does meanwhile

  /** The next bytes of the held completion, with the end if they are the last. */
  predicate Fits(b: Backend, pos: nat, chunk: seq<byte>, f: bool) {
    b.deferred && b.delivering && !b.finDelivered && (chunk != [] || f) &&
    var p := b.offset + pos;
    p + |chunk| <= |b.data| && chunk == b.data[p..p + |chunk|] && (f <==> b.fin && p + |chunk| == |b.data|)
  }

  lemma FitsAnyway(b: Backend, bytes: seq<byte>, isFin: bool, enabled: bool)
    requires Fits(b, 0, bytes, isFin)
    ensures Fits(b.(enabled := enabled), 0, bytes, isFin) && !b.finDelivered
  {
  }

  lemma FitsPart(b: Backend, bytes: seq<byte>, isFin: bool, off: nat, n: nat, enabled: bool)
    requires Fits(b, 0, bytes, isFin) && off + n <= |bytes| && (n > 0 || bytes == [])
    ensures Fits(b.(enabled := enabled), off, bytes[off..off + n], isFin && off + n == |bytes|)
  {
    var p := b.offset;
    assert b.data[p..p + |bytes|][off..off + n] == b.data[p + off..p + off + n];
  }

  /** Handing over a chunk is one step of the machine. */
  lemma ChunkTies(b: Backend, x: Slot, s: State, pos: nat, chunk: seq<byte>, f: bool)
    requires Tied(b, x, s, pos, false, false) && !b.down && b.enabled && Fits(b, pos, chunk, f) && |chunk| <= MaxChunk
    ensures Enabled(s, Step(|chunk|))
    ensures var t := Next(s, Step(|chunk|));
      Tied(b, x, t, pos + |chunk|, f, false) && t.h == s.h.(got := s.h.got + chunk, fins := s.h.fins + (if f then 1 else 0))
  {
    DeliveryKeeps(s, |chunk|);
    hide Inv;
    assert !Done(s.b);
  }

  /** The end of stream closes the engine's side before the machine's. */
  lemma EndTies(b: Backend, x: Slot, s: State, pos: nat)
    requires Tied(b, x, s, pos, true, false) && (b.down || x.recvOpen)
    ensures Tied(b, Released(x.(recvOpen := false, drain := false)), s, pos, true, true)
  {
  }

  /** What the tie says about a stream that is alive. */
  lemma TiedFacts(b: Backend, x: Slot, s: State, pos: nat, handed: bool, closed: bool)
    requires Tied(b, x, s, pos, handed, closed)
    ensures x.recvOpen && !x.connClosed ==> !b.down && x.attached
    ensures !b.down ==> !x.drain && !x.connClosed && x.paused == !b.enabled && s.b.down == b.down
    ensures !b.down && !handed && !closed && !x.recvOpen ==> b.finDelivered
  {
  }

  /** Nothing is promised about the accounts of a stream that is down. */
  lemma DownTies(b: Backend, x: Slot, s: State, pos: nat, handed: bool, closed: bool, p: nat, h: bool, c: bool)
    requires Tied(b, x, s, pos, handed, closed) && b.down
    ensures Tied(b, x, s, p, h, c) && Tied(b, Released(x.(drain := false)), s, p, h, c)
  {
  }

  /** The backend books what the engine says it consumed, unless the slot is gone, and the end. */
  function Booked(b: Backend, x: Slot, at: nat, consumed: nat, ended: bool): Backend {
    var c := if b.deferred && x.attached then b.(offset := at + consumed) else b;
    if ended then c.(finDelivered := true) else c
  }

  lemma BookTies(b: Backend, x: Slot, s: State, at: nat, consumed: nat, handed: bool, ended: bool, pos: nat, closed: bool)
    requires Tied(b, x, s, consumed, handed, handed) && (!b.down ==> at == b.offset && b.deferred && ended == handed && (handed || x.attached))
    requires pos == (if x.attached then 0 else consumed) && closed == (!b.down && handed)
    ensures Tied(Booked(b, x, at, consumed, ended), x, s, pos, false, closed)
  {
  }

  /** The same for the end alone. */
  lemma EndBooks(b: Backend, x: Slot, s: State, handed: bool, ended: bool, closed: bool)
    requires Tied(b, x, s, 0, handed, handed) && (!b.down ==> !b.finDelivered && ended == handed) && closed == (!b.down && handed)
    ensures Tied(b.(finDelivered := ended), x, s, 0, false, closed)
  {
  }

  lemma InContent(b: Backend, x: Slot, s: State)
    requires Tied(b, x, s, 0, false, false) && !b.down
    ensures b.offset <= |b.data|
  {
  }

  lemma RegionFits(b: Backend, region: seq<byte>, off: nat, skip: nat)
    requires b.deferred && b.delivering && !b.finDelivered && off + skip == b.offset && skip < |region|
    requires off + |region| <= |b.data| && region == b.data[off..off + |region|]
    ensures Fits(b, 0, region[skip..], b.fin && off + |region| == |b.data|)
  {
    assert region[skip..] == b.data[b.offset..off + |region|];
  }

  /** The application has, on top of `g` and `f`, the content from where it was up to `reached`, and the end if noted. */
  predicate Reached(b: Backend, g: seq<byte>, f: nat, c: Backend, h: seq<byte>, e: nat, reached: nat) {
    !b.down && c == b.(enabled := c.enabled, offset := c.offset, finDelivered := c.finDelivered) &&
    b.offset <= reached <= |b.data| && h == g + b.data[b.offset..reached] && (b.finDelivered ==> c.finDelivered) &&
    e == f + (if c.finDelivered && !b.finDelivered then 1 else 0)
  }

  lemma ReachedTwice(b: Backend, g: seq<byte>, f: nat, c: Backend, h: seq<byte>, e: nat, d: Backend, i: seq<byte>, k: nat, reached: nat)
    requires Reached(b, g, f, c, h, e, c.offset) && Reached(c, h, e, d, i, k, reached)
    ensures Reached(b, g, f, d, i, k, reached)
  {
    assert b.data[b.offset..c.offset] + b.data[c.offset..reached] == b.data[b.offset..reached];
  }

  lemma ReachedNothing(b: Backend, g: seq<byte>, f: nat)
    requires !b.down && b.offset <= |b.data|
    ensures Reached(b, g, f, b, g, f, b.offset)
  {
    assert b.data[b.offset..b.offset] == [];
  }

  lemma ReachedWhole(b: Backend, g: seq<byte>, f: nat, c: Backend, h: seq<byte>, e: nat, reached: nat)
    requires Reached(b, g, f, c, h, e, reached)
    ensures c == b.(enabled := c.enabled, offset := c.offset, finDelivered := c.finDelivered)
    ensures b.offset <= reached <= |b.data| && h == g + b.data[b.offset..reached]
    ensures reached == |b.data| ==> h == g + b.data[b.offset..]
    ensures e == f + (if c.finDelivered && !b.finDelivered then 1 else 0)
  {
  }

  lemma ReachedFacts(b: Backend, g: seq<byte>, f: nat, c: Backend, h: seq<byte>, e: nat, reached: nat)
    requires Reached(b, g, f, c, h, e, reached)
    ensures !b.down && !c.down && c.data == b.data && c.fin == b.fin && c.deferred == b.deferred && c.delivering == b.delivering
    ensures b.offset <= reached <= |b.data|
  {
  }

  /** The delivery is over for the backend, and about to be for the machine. */
  predicate Ending(b: Backend, x: Slot, s: State) {
    Inv(s) && s.b.delivering && !b.delivering &&
    if b.deferred then
      !b.down && Mirrors(b.(delivering := true), s.b, 0, false) && !s.b.enabled && !Done(s.b) && SlotMirrors(x, s, false)
    else
      SlotMirrors(x, s, s.b.fin && s.b.finDelivered) &&
      if b.down then s.b.down && s.b.pending == b.pending && s.b.enabled == b.enabled
      else Done(s.b) && b == DroppedBack(s.b).(delivering := false)
  }

  /** A completion is let go only when all of it was handed over, or the stream is torn down. */
  lemma DropEnds(b: Backend, x: Slot, s: State, pos: nat, closed: bool)
    requires Tied(b, x, s, pos, false, closed) && b.delivering && closed == (!b.down && b.finDelivered)
    requires !b.down ==> b.offset + pos == |b.data| && (b.fin <==> b.finDelivered)
    ensures Ending(DroppedBack(b).(delivering := false), x, s)
  {
  }

  lemma FinOf(b: Backend, x: Slot, s: State, pos: nat, closed: bool)
    requires Tied(b, x, s, pos, false, closed) && !b.down
    ensures s.b.fin == b.fin && s.b.errored == b.errored
  {
  }

  /** And kept when some of it was not. */
  lemma BlockEnds(b: Backend, x: Slot, s: State)
    requires Tied(b, x, s, 0, false, false) && b.delivering && !b.down && b.deferred && x.paused
    requires b.offset < |b.data| || (b.fin && !b.finDelivered)
    ensures Ending(b.(delivering := false), x, s)
  {
  }

  /** After the arming that follows, the machine has caught up. */
  lemma EndingTies(b: Backend, x: Slot, s: State, last: bool)
    requires Ending(b, x, s) && (!b.down && !b.deferred ==> last == (s.b.fin || s.b.errored))
    ensures Enabled(s, Step(0))
    ensures var c, t := if last then b else ArmedBack(b), Next(s, Step(0));
      Tied(c, x, t, 0, false, false) && !c.delivering && t.h.(lost := s.h.lost) == s.h
  {
    DeliveryKeeps(s, 0);
  }

  lemma CompleteTies(b: Backend, x: Slot, s: State, content: seq<byte>, some: bool, isFin: bool, isError: bool)
    requires Tied(b, x, s, 0, false, false) && b.pending && (content != [] ==> some) && !(isFin && isError)
    ensures !b.delivering && !b.deferred && Enabled(s, Complete(content, some, isFin, isError))
    ensures var c, t := CompletedBack(b, content, some, isFin, isError), Completed(s, content, some, isFin, isError);
      Tied(c, x, t, 0, false, false) && (c.delivering ==> !c.finDelivered) && (c.deferred ==> !b.down && c.data == content)
    ensures var t := Completed(s, content, some, isFin, isError);
      t.h == s.h.(received := s.h.received + (if b.down then [] else content), finReceived := s.h.finReceived || (!b.down && isFin))
  {
    CompleteKeeps(s, content, some, isFin, isError);
  }

  lemma EmptyJoins(regions: seq<seq<byte>>)
    ensures regions == [] ==> Joined(regions) == []
  {
  }

  /** A completion that is held, and not being delivered, is not over. */
  lemma HeldIsFresh(b: Backend, x: Slot, s: State)
    requires Tied(b, x, s, 0, false, false) && !b.delivering
    ensures b.deferred && !b.down ==> !b.finDelivered
  {
  }

  lemma FailTies(b: Backend, x: Slot, s: State, y: Slot)
    requires Tied(b, x, s, 0, false, false) && !b.delivering
    requires y == if x.attached && !x.connClosed && !b.down && !b.finDelivered then x.(recvOpen := false) else x
    ensures Enabled(s, Fail)
    ensures var c, t := DroppedBack(b).(down := true), Next(s, Fail); Tied(c, y, t, 0, false, false) && t.h.(lost := s.h.lost) == s.h
  {
    StepKeeps(s, Fail);
  }

  lemma KeptDown(b: Backend, x: Slot, c: Backend, y: Slot)
    requires Kept(b, x, c, y) && b.down
    ensures c.down && c.delivering == b.delivering
  {
  }

  const Fresh := Slot(true, true, false, false, true, false)

  lemma StartTies()
    ensures Tied(Init.b, Fresh, Init, 0, false, false) && Inv(Init) && Run([], [Init]) && NoneEmpty([])
    ensures ArmedBack(Init.b.(pending := false)) == Init.b
  {
  }

  /** A held completion that can be delivered now. */
  predicate Goes(b: Backend, x: Slot) {
    !b.delivering && b.deferred && x.attached
  }

  // ---------------------------------------------------------------- the stream

  /** The structs of one stream, changed in place. */
  class ReceiveSide {
    /** The backend stream, and how the content it holds lies in memory. */
    var b: Backend
    var regions: seq<seq<byte>>
    /** The engine's slot. */
    var x: Slot
    /** The application: what it will do in its next callbacks, and what it got. */
    var script: seq<seq<Call>>
    var got: seq<byte>
    var fins: nat
    /** What the peer sent. */
    ghost var received: seq<byte>
    ghost var finReceived: bool
    /** The run of the machine so far, and where it is. */
    ghost var events: seq<Event>
    ghost var states: seq<State>
    ghost var now: State

    ghost predicate Traced()
      reads `events, `states, `now
    {
      Run(events, states) && states[|events|] == now && Inv(now)
    }

    ghost predicate Recorded()
      reads `b, `regions, `got, `fins, `received, `finReceived, `now
    {
      now.h.got == got && now.h.fins == fins && now.h.received == received && now.h.finReceived == finReceived &&
      NoneEmpty(regions) && (b.deferred ==> Joined(regions) == b.data)
    }

    ghost predicate Linked(pos: nat, handed: bool, closed: bool)
      reads this
    {
      Traced() && Recorded() && Tied(b, x, now, pos, handed, closed)
    }

    /** Between deliveries. */
    ghost predicate Valid()
      reads this
    {
      Linked(0, false, false) && !b.delivering
    }

    /** The machine is delivering and the backend is about to. */
    ghost predicate Starting()
      reads this
    {
      Traced() && Recorded() && Tied(b.(delivering := true), x, now, 0, false, false) &&
      b.deferred && !b.delivering && !b.down && b.enabled && !b.finDelivered
    }

    /** The machine takes a step. */
    ghost method Log(ev: Event)
      requires Traced() && Enabled(now, ev)
      modifies `events, `states, `now
      ensures Traced() && now == Next(old(now), ev)
    {
      hide Inv, Next, Enabled;
      StepKeeps(now, ev);
      now := Next(now, ev);
      states := states + [now];
      events := events + [ev];
    }

    constructor (script: seq<seq<Call>>)
      ensures Valid() && this.script == script && b == Init.b && got == [] && fins == 0 && received == [] && events == []
    {
      b := Init.b.(pending := false);
      x := Fresh;
      this.script, regions, got, fins := script, [], [], 0;
      received, finReceived, events, states, now := [], false, [], [Init], Init;
      new;
      hide Inv, Run, Tied, NoneEmpty, Joined;
      StartTies();
      Arm();
    }

    // -------------------------------------------------------------- small pieces

    method Arm()
      modifies `b
      ensures b == ArmedBack(old(b))
    {
      if !b.pending && !b.deferred && !b.delivering && b.enabled && !b.finDelivered && !b.ended && !b.down {
        b := b.(pending := true);
      }
    }

    method DropDeferred()
      modifies `b, `regions
      ensures b == DroppedBack(old(b)) && regions == [] && NoneEmpty(regions)
    {
      b := b.(deferred := false, data := [], offset := 0, fin := false, errored := false);
      regions := [];
    }

    /** A slot with nothing open and nothing to drain is released, and the backend stream detached from it. */
    method ReleaseIfDone()
      modifies `x
      ensures x == Released(old(x))
    {
      if !x.sendOpen && !x.recvOpen && !x.drain {
        x := x.(attached := false);
      }
    }

    // -------------------------------------------------------------- calls of the application

    /** Something is held that a pause concerns, or a resume while no delivery is under way. */
    static predicate HeldFor(v: Backend, enable: bool) {
      v.deferred && (enable ==> !v.delivering)
    }

    /** The backend's part of a pause or resume; `replay` if a held completion is to be delivered now. */
    method OpRecvEnable(enable: bool) returns (answer: Answer, replay: bool)
      modifies `b
      ensures answer == Ok <==> Accepts(old(b), enable)
      ensures answer == Closed <==> old(b).down
      // on the fields: a stream whose receiving has not ended takes both; after that, only what is held can be paused
      // at any time, and resumed when no delivery is under way
      ensures !old(b).down && !old(b).ended ==> answer == Ok
      ensures !old(b).down && old(b).ended && !enable ==> (answer == Ok <==> old(b).deferred)
      ensures !old(b).down && old(b).ended && enable ==> (answer == Ok <==> old(b).deferred && !old(b).delivering)
      ensures answer == Ok ==> b.enabled == enable
      ensures answer == Ok && !enable ==> b == old(b).(enabled := false)
      ensures answer == Ok && enable && !old(b).delivering ==>
                if old(b).deferred then replay else b.pending || old(b).finDelivered
      ensures answer == Ok ==> (if replay then b.(delivering := true) else b) == SwitchedBack(old(b), enable)
      ensures answer != Ok ==> b == old(b) && !replay
      ensures replay ==> enable && b.deferred && !b.delivering && b.enabled
      ensures b.delivering == old(b).delivering && b.finDelivered == old(b).finDelivered && b.down == old(b).down
    {
      if b.down {
        return Closed, false;
      }
      if b.ended && (!b.deferred || (enable && b.delivering)) {
        return WrongState, false;
      }
      b := b.(enabled := enable);
      if !enable || b.delivering {
        return Ok, false;
      }
      if b.deferred {
        return Ok, true;
      }
      Arm();
      return Ok, false;
    }

    /** The engine publishes the wish first, and takes it back if the backend refuses. */
    method RecvEnable(enable: bool) returns (replay: bool)
      modifies `b, `x
      ensures Sides(if replay then b.(delivering := true) else b, x) == Asked(old(b), old(x), enable)
      // on the fields: a wish that engine and backend take is published in both, any other leaves no trace
      ensures !old(x).connClosed && old(x).attached && old(x).recvOpen && !old(b).down && (!old(b).ended || HeldFor(old(b), enable)) ==>
                x == old(x).(paused := !enable) && b.enabled == enable
      ensures old(x).connClosed || !old(x).attached || !old(x).recvOpen || old(b).down ||
              (old(b).ended && !HeldFor(old(b), enable)) ==>
                x == old(x) && b == old(b) && !replay
      ensures replay ==> b.deferred && !b.delivering && b.enabled && !b.down
      ensures b.delivering == old(b).delivering && b.finDelivered == old(b).finDelivered && b.down == old(b).down
      ensures old(b).delivering || !old(x).recvOpen ==> !replay
    {
      if x.connClosed || !x.attached || !x.recvOpen {
        return false;
      }
      var previous := x.paused;
      x := x.(paused := !enable);
      var answer, again := OpRecvEnable(enable);
      if answer != Ok {
        x := x.(paused := previous);
      }
      return again;
    }

    method Perform(c: Call) returns (replay: bool)
      modifies `b, `regions, `x
      ensures Sides(if replay then b.(delivering := true) else b, x) == Called(old(b), old(x), c)
      ensures replay ==> b.deferred && !b.delivering && b.enabled && !b.down
      ensures b.delivering == old(b).delivering && b.finDelivered == old(b).finDelivered && (old(b).down ==> b.down)
      ensures old(b).delivering || !old(x).recvOpen ==> !replay
      ensures b.deferred ==> old(b).deferred && b.data == old(b).data && regions == old(regions)
      ensures NoneEmpty(old(regions)) ==> NoneEmpty(regions)
      ensures !b.down ==> regions == old(regions)
    {
      replay := false;
      match c
      case AskPause => replay := RecvEnable(false);
      case AskResume => replay := RecvEnable(true);
      case Shut =>
        if !x.connClosed && x.attached && (x.sendOpen || x.recvOpen) {
          if !b.down {
            DropDeferred();
            b := b.(down := true);
          }
          x := x.(sendOpen := false, recvOpen := false, drain := x.drain || x.recvOpen);
          ReleaseIfDone();
        }
      case CloseConnection =>
        b := b.(down := true);
        x := x.(connClosed := true);
      case EndSend =>
        if !x.connClosed {
          x := x.(sendOpen := false);
          ReleaseIfDone();
        }
    }

    /** A callback: the application makes its calls, in order. */
    method RunCallback(ghost pos: nat, ghost handed: bool)
      requires Linked(pos, handed, false) && (b.delivering || !x.recvOpen)
      modifies `b, `regions, `x, `script, `events, `states, `now
      ensures Linked(pos, handed, false) && Kept(old(b), old(x), b, x) && (b.delivering || !x.recvOpen)
      ensures !b.down ==> regions == old(regions)
      ensures |script| <= |old(script)|
    {
      hide Inv, Run, Joined, NoneEmpty, Tied, Kept, Called, EventOf, Next, Enabled;
      KeptSame(b, x);
      if script == [] {
        return;
      }
      var calls := script[0];
      script := script[1..];
      var i := 0;
      while i < |calls|
        invariant i <= |calls| && Linked(pos, handed, false) && Kept(old(b), old(x), b, x) && (b.delivering || !x.recvOpen)
        invariant !b.down ==> regions == old(regions)
        invariant |script| <= |old(script)|
      {
        ghost var b0, x0 := b, x;
        CallTies(b, x, now, pos, handed, calls[i]);
        CallKeeps(b, x, now, pos, handed, calls[i]);
        ghost var evs := EventOf(b, x, calls[i]);
        var replay := Perform(calls[i]);
        if evs != [] {
          Log(evs[0]);
        }
        KeptTwice(old(b), old(x), b0, x0, b, x);
        i := i + 1;
      }
    }

    /** A stream that is alive is as it was, and the application has `given` and perhaps the end. */
    ghost predicate Accounted(b0: Backend, r0: seq<seq<byte>>, given: seq<byte>, f0: nat, handed: bool)
      reads `b, `regions, `got, `fins, `x
    {
      !b.down ==>
        !b0.down && b == b0.(enabled := b.enabled) && regions == r0 && got == given && fins == f0 + (if handed then 1 else 0) &&
        (handed || x.attached)
    }

    // -------------------------------------------------------------- the engine

    /** A chunk goes to the application; the end of stream closes the side. */
    method HandOver(chunk: seq<byte>, f: bool, ghost pos: nat)
      requires Linked(pos, false, false) && b.delivering && |chunk| <= MaxChunk && !b.down && b.enabled
      requires x.recvOpen && x.attached && Fits(b, pos, chunk, f)
      modifies `b, `regions, `x, `script, `got, `fins, `events, `states, `now
      ensures Linked(pos + |chunk|, f, f) && b.delivering
      ensures !b.down ==> b == old(b).(enabled := b.enabled) && regions == old(regions) && (!f ==> x.recvOpen && x.attached)
      ensures got == old(got) + chunk && fins == old(fins) + (if f then 1 else 0)
      ensures |script| <= |old(script)|
    {
      hide Inv, Run, Joined, NoneEmpty, Tied, Next, Enabled, Fits;
      ChunkTies(b, x, now, pos, chunk, f);
      Log(Step(|chunk|));
      got := got + chunk;
      fins := fins + if f then 1 else 0;
      RunCallback(pos + |chunk|, f);
      if f {
        if x.attached {
          EndTies(b, x, now, pos + |chunk|);
          x := x.(recvOpen := false, drain := false);
          ReleaseIfDone();
        } else {
          DownTies(b, x, now, pos + |chunk|, f, false, pos + |chunk|, f, true);
        }
      }
    }

    /** One chunk: absorbed if the side was stopped, else handed over. */
    method WtDeliver(chunk: seq<byte>, f: bool, ghost pos: nat)
      requires Linked(pos, false, false) && b.delivering && |chunk| <= MaxChunk && !x.connClosed && x.attached
      requires if x.drain then b.down else x.recvOpen && !x.paused && Fits(b, pos, chunk, f)
      modifies `b, `regions, `x, `script, `got, `fins, `events, `states, `now
      ensures Linked(pos + |chunk|, f, f) && b.delivering && (old(b).down ==> b.down)
      ensures !b.down ==> b == old(b).(enabled := b.enabled) && regions == old(regions) && (!f ==> x.recvOpen && x.attached)
      ensures old(b).down ==> got == old(got) && fins == old(fins)
      ensures !old(b).down ==> got == old(got) + chunk && fins == old(fins) + (if f then 1 else 0)
      ensures |script| <= |old(script)|
    {
      hide Inv, Run, Joined, NoneEmpty, Tied, Next, Enabled, Fits;
      TiedFacts(b, x, now, pos, false, false);
      if x.drain {
        DownTies(b, x, now, pos, false, false, pos + |chunk|, f, f);
        if f {
          x := x.(drain := false);
          ReleaseIfDone();
        }
      } else {
        HandOver(chunk, f, pos);
      }
    }

    /** One turn of the engine's loop; `more` if another one follows. */
    method NextChunk(bytes: seq<byte>, isFin: bool, off: nat) returns (n: nat, more: bool, ghost handed: bool)
      requires Linked(off, false, false) && b.delivering && !x.connClosed && x.attached && (off < |bytes| || (off == 0 && bytes == []))
      requires (x.recvOpen || x.drain) && (x.paused ==> x.drain)
      requires !b.down ==> Fits(b, 0, bytes, isFin)
      modifies `b, `regions, `x, `script, `got, `fins, `events, `states, `now
      ensures off + n <= |bytes| && handed == (isFin && off + n == |bytes|) && Linked(off + n, handed, handed) && b.delivering
      ensures more ==> off + n < |bytes| && n > 0 && !x.connClosed && x.attached
      ensures !b.down ==> more == (off + n < |bytes|) && (more || !isFin ==> x.recvOpen && x.attached)
      ensures !b.down ==> !old(b).down && b == old(b).(enabled := b.enabled) && regions == old(regions)
      ensures got == old(got) + (if old(b).down then [] else bytes[off..off + n])
      ensures fins == old(fins) + (if !old(b).down && isFin && off + n == |bytes| then 1 else 0)
      ensures |script| <= |old(script)|
    {
      hide Inv, Run, Joined, NoneEmpty, Tied, Next, Enabled, Fits;
      TiedFacts(b, x, now, off, false, false);
      n := if |bytes| - off > MaxChunk then MaxChunk else |bytes| - off;
      var last := off + n == |bytes|;
      if !x.drain {
        FitsPart(b, bytes, isFin, off, n, b.enabled);
      }
      var f := isFin && last;
      handed := f;
      WtDeliver(bytes[off..off + n], f, off);
      TiedFacts(b, x, now, off + n, f, f);
      more := !(last || x.connClosed || !x.attached);
    }

    /** The engine's loop decides: the side is closed, or paused, or the next chunk goes out. */
    method Turn(bytes: seq<byte>, isFin: bool, off: nat) returns (n: nat, more: bool, blocked: bool, ghost handed: bool)
      requires Linked(off, false, false) && b.delivering && !x.connClosed && x.attached && (off < |bytes| || (off == 0 && bytes == []))
      requires !b.down ==> Fits(b, 0, bytes, isFin)
      modifies `b, `regions, `x, `script, `got, `fins, `events, `states, `now
      ensures off + n <= |bytes| && b.delivering && |script| <= |old(script)|
      ensures Linked(off + n, handed, handed) && handed == (!blocked && isFin && off + n == |bytes|)
      ensures blocked ==> !b.down && x.paused && n == 0 && !more && got == old(got) && fins == old(fins)
      ensures more ==> off + n < |bytes| && n > 0 && !x.connClosed && x.attached
      ensures !b.down && !blocked ==> more == (off + n < |bytes|)
      ensures !b.down && (blocked || more || !isFin) ==> x.attached
      ensures !b.down ==> !old(b).down && b == old(b).(enabled := b.enabled) && regions == old(regions)
      ensures got == old(got) + (if old(b).down then [] else bytes[off..off + n])
      ensures !b.down && !blocked ==> fins == old(fins) + (if isFin && off + n == |bytes| then 1 else 0)
    {
      hide Inv, Run, Joined, NoneEmpty, Tied, Next, Enabled, Fits;
      TiedFacts(b, x, now, off, false, false);
      if !b.down {
        FitsAnyway(b, bytes, isFin, true);
      }
      n, more, blocked, handed := 0, false, false, false;
      if !x.recvOpen && !x.drain {
        handed := isFin && off == |bytes|;
        DownTies(b, x, now, off, false, false, off, handed, handed);
      } else if x.paused && !x.drain {
        blocked := true;
      } else {
        n, more, handed := NextChunk(bytes, isFin, off);
      }
    }

    /**
     Bytes of the stream, in chunks of at most 65535. On a live stream the engine has consumed
     exactly what the application was handed: everything, with the end if it was there, or, once
     the application paused, less than that.
     */
    method StreamBytes(bytes: seq<byte>, isFin: bool) returns (rc: Verdict, consumed: nat, ghost handed: bool)
      requires Linked(0, false, false) && b.delivering && (!b.down ==> b.enabled && Fits(b, 0, bytes, isFin))
      modifies `b, `regions, `x, `script, `got, `fins, `events, `states, `now
      ensures Linked(consumed, handed, handed) && b.delivering && consumed <= |bytes|
      ensures !b.down ==> rc != Refused && got == old(got) + bytes[..consumed] && fins == old(fins) + (if handed then 1 else 0)
      ensures !b.down && rc == Taken ==> consumed == |bytes| && handed == isFin
      ensures rc == WouldBlock ==> !b.down && x.paused && !handed && (consumed < |bytes| || bytes == [])
      ensures !b.down ==> !old(b).down && b == old(b).(enabled := b.enabled) && regions == old(regions)
      ensures !b.down && !handed ==> x.attached
      ensures |script| <= |old(script)|
    {
      hide Inv, Run, Joined, NoneEmpty, Tied, Next, Enabled, Fits;
      TiedFacts(b, x, now, 0, false, false);
      handed := false;
      if x.connClosed || !x.attached {
        if !b.down {
          FitsAnyway(b, bytes, isFin, true);
        }
        return Refused, 0, false;
      }
      rc, consumed := Taken, |bytes|;
      var off: nat, more := 0, true;
      while more
        invariant off <= |bytes| && Linked(off, handed, handed) && b.delivering && |script| <= |old(script)|
        invariant more ==> rc == Taken && !handed && !x.connClosed && x.attached && (off < |bytes| || (off == 0 && bytes == []))
        invariant Accounted(old(b), old(regions), old(got) + bytes[..off], old(fins), handed)
        invariant rc != Refused
        invariant rc == WouldBlock ==> !b.down && x.paused && !handed && (off < |bytes| || bytes == []) && consumed == off
        invariant rc == Taken ==> consumed == |bytes| && (!more && !b.down ==> off == |bytes| && handed == isFin)
        decreases more, |bytes| - off
      {
        if !b.down {
          FitsAnyway(old(b), bytes, isFin, b.enabled);
        }
        var n, blocked;
        n, more, blocked, handed := Turn(bytes, isFin, off);
        off := off + n;
        if blocked {
          rc, consumed := WouldBlock, off;
        }
      }
      if b.down {
        DownTies(b, x, now, off, handed, handed, consumed, handed, handed);
      }
    }

    // -------------------------------------------------------------- the backend's walk over the regions

    /** The walk stands at `off` in the content, at or before the first byte not yet handed over. */
    ghost predicate Walking(off: nat)
      reads `b, `x
    {
      b.delivering && (!b.down ==> b.deferred && !b.finDelivered && x.attached && off <= b.offset < |b.data|)
    }

    /** A live stream after part of a walk: the application has the content up to `reached`. */
    ghost predicate Advanced(b0: Backend, r0: seq<seq<byte>>, g0: seq<byte>, f0: nat, reached: nat)
      reads `b, `regions, `got, `fins
    {
      regions == r0 && Reached(b0, g0, f0, b, got, fins, reached)
    }

    /** The offset is written only now that the engine has returned, and the end noted if it took it. */
    method Book(at: nat, consumed: nat, ended: bool, ghost handed: bool) returns (ghost pos: nat, ghost closed: bool)
      requires Linked(consumed, handed, handed)
      requires !b.down ==> at == b.offset && b.deferred && ended == handed && (handed || x.attached)
      modifies `b
      ensures Linked(pos, false, closed) && pos == (if x.attached then 0 else consumed) && closed == (!b.down && handed)
      ensures b == Booked(old(b), x, at, consumed, ended)
    {
      hide Inv, Run, Joined, NoneEmpty, Tied;
      pos := if x.attached then 0 else consumed;
      closed := !b.down && handed;
      BookTies(b, x, now, at, consumed, handed, ended, pos, closed);
      var c := b;
      if c.deferred && x.attached {
        c := c.(offset := at + consumed);
      }
      if ended {
        c := c.(finDelivered := true);
      }
      b := c;
    }

    /** Hand the engine the region at `off` from where the last delivery stopped, which is `at`. */
    method Give(region: seq<byte>, off: nat, ending: bool) returns (at: nat, rc: Verdict, consumed: nat, ghost handed: bool)
      requires Linked(0, false, false) && Walking(off) && !b.down && b.enabled
      requires b.offset < off + |region| <= |b.data| && region == b.data[off..off + |region|]
      requires ending == (b.fin && off + |region| == |b.data|)
      modifies `b, `regions, `x, `script, `got, `fins, `events, `states, `now
      ensures at == old(b).offset && b.delivering && |script| <= |old(script)| && Linked(consumed, handed, handed)
      ensures at + consumed <= off + |region| && (rc == WouldBlock ==> !b.down && x.paused && !handed && at + consumed < off + |region|)
      ensures Accounted(old(b), old(regions), old(got) + old(b).data[at..at + consumed], old(fins), handed)
      ensures !b.down ==> rc != Refused && (rc == Taken ==> at + consumed == off + |region| && handed == ending)
    {
      hide Inv, Run, Joined, NoneEmpty, Tied, Next, Enabled, Fits;
      var skip := if b.offset > off then b.offset - off else 0;
      at := off + skip;
      RegionFits(b, region, off, skip);
      rc, consumed, handed := StreamBytes(region[skip..], ending);
      assert region[skip..][..consumed] == old(b).data[at..at + consumed];
    }

    /** And book what it says. */
    method Feed(region: seq<byte>, off: nat, total: nat, isFin: bool) returns (rc: Verdict, ghost pos: nat, ghost closed: bool)
      requires Linked(0, false, false) && Walking(off) && !b.down && b.enabled
      requires total == |b.data| && isFin == b.fin && b.offset < off + |region| <= total && region == b.data[off..off + |region|]
      modifies `b, `regions, `x, `script, `got, `fins, `events, `states, `now
      ensures b.delivering && |script| <= |old(script)| && Linked(pos, false, closed) && closed == (!b.down && b.finDelivered)
      ensures !b.down ==> rc != Refused && Advanced(old(b), old(regions), old(got), old(fins), b.offset + pos)
      ensures !b.down && rc == Taken ==> b.offset + pos == off + |region| && (b.finDelivered <==> isFin && off + |region| == total)
      ensures rc == WouldBlock ==> !b.down && x.paused && b.offset < off + |region| && !b.finDelivered
      ensures !b.down && !b.finDelivered ==> pos == 0 && x.attached
    {
      hide Inv, Run, Joined, NoneEmpty, Tied, Next, Enabled, Fits;
      var last := off + |region| == total;
      var at, consumed;
      ghost var handed;
      at, rc, consumed, handed := Give(region, off, isFin && last);
      pos, closed := Book(at, consumed, isFin && last && rc == Taken, handed);
    }

    /** The region at `off`: the walk ends here, passes it over, or feeds it. */
    method Visit(region: seq<byte>, off: nat, total: nat, isFin: bool)
      returns (go: bool, blocked: bool, ghost pos: nat, ghost closed: bool)
      requires Linked(0, false, false) && Walking(off) && region != []
      requires !b.down ==> total == |b.data| && isFin == b.fin && off + |region| <= total && region == b.data[off..off + |region|]
      modifies `b, `regions, `x, `script, `got, `fins, `events, `states, `now
      ensures b.delivering && |script| <= |old(script)| && Linked(pos, false, closed) && closed == (!b.down && b.finDelivered)
      ensures !b.down ==> Advanced(old(b), old(regions), old(got), old(fins), b.offset + pos)
      ensures blocked ==> !go && !b.down && x.paused && b.offset < total && !b.finDelivered
      ensures !b.down && !go ==> blocked
      ensures !b.down && go ==> off + |region| <= b.offset + pos <= total && (b.finDelivered <==> isFin && b.offset + pos == total)
      ensures !b.down && go ==> b.offset + pos == off + |region| || (pos == 0 && b == old(b))
      ensures !b.down && !b.finDelivered ==> pos == 0 && x.attached
    {
      hide Inv, Run, Joined, NoneEmpty, Tied, Next, Enabled, Fits;
      go, blocked, pos, closed := false, false, 0, false;
      if !b.deferred || !x.attached || b.down {
        return;
      }
      if !b.enabled {
        TiedFacts(b, x, now, 0, false, false);
        blocked := true;
        return;
      }
      if off + |region| <= b.offset {
        go := true;
        return;
      }
      var rc;
      rc, pos, closed := Feed(region, off, total, isFin);
      blocked := rc == WouldBlock;
      go := rc == Taken;
    }

    /** Walk over the regions, from the first, until one of them stops the walk. */
    method Walk(total: nat, isFin: bool) returns (blocked: bool, ghost pos: nat, ghost closed: bool)
      requires Linked(0, false, false) && Walking(0) && !b.down && total == |b.data| && isFin == b.fin
      modifies `b, `regions, `x, `script, `got, `fins, `events, `states, `now
      ensures b.delivering && |script| <= |old(script)| && Linked(pos, false, closed) && closed == (!b.down && b.finDelivered)
      ensures !b.down ==> Advanced(old(b), old(regions), old(got), old(fins), b.offset + pos)
      ensures blocked ==> !b.down && x.paused && b.offset < total && !b.finDelivered && pos == 0
      ensures !b.down && !blocked ==> b.offset + pos == total && b.finDelivered == isFin
    {
      hide Inv, Run, Joined, NoneEmpty, Tied, Next, Enabled, Fits, Reached;
      var content := regions;
      blocked, pos, closed := false, 0, false;
      var r, off, go := 0, 0, true;
      AtStart(content);
      ReachedNothing(b, got, fins);
      while go && r < |content|
        invariant r <= |content| && off == |Joined(content[..r])| && b.delivering && |script| <= |old(script)|
        invariant Linked(pos, false, closed) && closed == (!b.down && b.finDelivered)
        invariant !b.down ==> Advanced(old(b), old(regions), old(got), old(fins), b.offset + pos)
        invariant blocked ==> !go && !b.down && x.paused && b.offset < total && !b.finDelivered && pos == 0
        invariant !b.down && !go ==> blocked
        invariant go && !b.down ==> off <= b.offset + pos <= total && (b.finDelivered <==> isFin && b.offset + pos == total)
        invariant go && !b.down && !b.finDelivered ==> pos == 0 && x.attached
        invariant go && !b.down && r < |content| ==> b.offset + pos < total
        decreases |content| - r, go
      {
        ghost var b1, g1, f1 := b, got, fins;
        RegionAt(content, old(b).data, r);
        if b.down {
          DownTies(b, x, now, pos, false, closed, 0, false, false);
        }
        if !b.down {
          ReachedFacts(old(b), old(got), old(fins), b, got, fins, b.offset);
        }
        go, blocked, pos, closed := Visit(content[r], off, total, isFin);
        if !b.down {
          ReachedFacts(b1, g1, f1, b, got, fins, b.offset + pos);
          ReachedTwice(old(b), old(got), old(fins), b1, g1, f1, b, got, fins, b.offset + pos);
        }
        off := off + |content[r]|;
        r := r + 1;
      }
      JoinedEnds(content, r);
    }

    /** What is left of the held completion: bytes, by regions, or only the end, in a call of its own. */
    method DeliverRest() returns (blocked: bool, ghost pos: nat, ghost closed: bool)
      requires Linked(0, false, false) && b.delivering && b.deferred && !b.down && b.enabled && !b.finDelivered && x.attached
      modifies `b, `regions, `x, `script, `got, `fins, `events, `states, `now
      ensures b.delivering && |script| <= |old(script)| && Linked(pos, false, closed) && closed == (!b.down && b.finDelivered)
      ensures !b.down ==> Advanced(old(b), old(regions), old(got), old(fins), b.offset + pos)
      ensures blocked ==> !b.down && x.paused && !b.finDelivered && pos == 0 && (b.offset < |b.data| || b.fin)
      ensures !b.down && !blocked ==> b.offset + pos == |b.data| && b.finDelivered == b.fin
    {
      hide Inv, Run, Joined, NoneEmpty, Tied, Next, Enabled;
      InContent(b, x, now);
      blocked, pos, closed := false, 0, false;
      var total, isFin := |b.data|, b.fin;
      if total > b.offset {
        blocked, pos, closed := Walk(total, isFin);
      } else {
        ReachedNothing(b, got, fins);
        if isFin {
          blocked, pos, closed := DeliverEnd();
        }
      }
    }

    /** The end of stream alone. */
    method DeliverEnd() returns (blocked: bool, ghost pos: nat, ghost closed: bool)
      requires Linked(0, false, false) && b.delivering && b.deferred && !b.down && b.enabled && !b.finDelivered && x.attached
      requires b.fin && b.offset == |b.data|
      modifies `b, `regions, `x, `script, `got, `fins, `events, `states, `now
      ensures b.delivering && |script| <= |old(script)| && Linked(pos, false, closed) && closed == (!b.down && b.finDelivered)
      ensures !b.down ==> Advanced(old(b), old(regions), old(got), old(fins), b.offset + pos) && pos == 0
      ensures blocked ==> !b.down && x.paused && !b.finDelivered
      ensures !b.down && !blocked ==> b.finDelivered
    {
      hide Inv, Run, Joined, NoneEmpty, Tied, Next, Enabled;
      var rc, consumed, handed := StreamBytes([], true);
      blocked := rc == WouldBlock;
      pos, closed := 0, !b.down && handed;
      EndBooks(b, x, now, handed, rc == Taken, closed);
      b := b.(finDelivered := rc == Taken);
    }

    /**
     Deliver what is held, in whatever regions it lies and whatever the application does in its
     callbacks. On a live stream it stays held if and only if something of it remains, with the
     offset at the first byte that was not handed over; else all of it, and the end, went out.
     */
    method DeliverBytes()
      requires Goes(b, x) ==> Starting()
      modifies `b, `regions, `x, `script, `got, `fins, `events, `states, `now
      ensures !Goes(old(b), old(x)) ==> got == old(got) && fins == old(fins) && x == old(x) && now == old(now)
      ensures !Goes(old(b), old(x)) ==> b == if old(b).delivering || !old(b).deferred then old(b) else DroppedBack(old(b))
      ensures Goes(old(b), old(x)) ==> Traced() && Recorded() && Ending(b, x, now)
      ensures Goes(old(b), old(x)) && !b.down && b.deferred ==> StillHeld(old(b), old(got), old(fins)) && regions == old(regions) && x.paused
      ensures Goes(old(b), old(x)) && !b.down && !b.deferred ==> WentOut(old(b), old(got), old(fins))
      ensures Goes(old(b), old(x)) && !b.down && !b.deferred ==> now.b.fin == old(b).fin && now.b.errored == old(b).errored
      ensures |script| <= |old(script)|
    {
      if b.delivering || !b.deferred {
        return;
      }
      if !x.attached {
        DropDeferred();
        return;
      }
      DeliverHeld();
    }

    /** Something of what was held in `b0` remains, from the new offset on; the application has what came before. */
    ghost predicate StillHeld(b0: Backend, g0: seq<byte>, f0: nat)
      reads `b, `got, `fins
    {
      b == b0.(enabled := b.enabled, offset := b.offset) && b0.offset <= b.offset <= |b.data| && (b.offset < |b.data| || b.fin) &&
      got == g0 + b.data[b0.offset..b.offset] && fins == f0
    }

    /** The application has all that was held in `b0`, and the end if it was there. */
    ghost predicate WentOut(b0: Backend, g0: seq<byte>, f0: nat)
      reads `got, `fins
    {
      b0.offset <= |b0.data| && got == g0 + b0.data[b0.offset..] && fins == f0 + (if b0.fin then 1 else 0)
    }

    method DeliverHeld()
      requires Starting()
      modifies `b, `regions, `x, `script, `got, `fins, `events, `states, `now
      ensures Traced() && Recorded() && Ending(b, x, now) && |script| <= |old(script)|
      ensures !b.down && b.deferred ==> StillHeld(old(b), old(got), old(fins)) && regions == old(regions) && x.paused
      ensures !b.down && !b.deferred ==> WentOut(old(b), old(got), old(fins))
      ensures !b.down && !b.deferred ==> now.b.fin == old(b).fin && now.b.errored == old(b).errored
    {
      hide Inv, Run, Joined, NoneEmpty, Tied, Next, Enabled, Ending, Reached;
      b := b.(delivering := true);
      TiedFacts(b, x, now, 0, false, false);
      ghost var b0 := b;
      var blocked;
      ghost var pos, closed;
      blocked, pos, closed := DeliverRest();
      if !b.down {
        ReachedWhole(b0, old(got), old(fins), b, got, fins, b.offset + pos);
      }
      Conclude(blocked, pos, closed);
    }

    /** The held completion is let go, unless the walk was blocked. */
    method Conclude(blocked: bool, ghost pos: nat, ghost closed: bool)
      requires Linked(pos, false, closed) && b.delivering && closed == (!b.down && b.finDelivered)
      requires blocked ==> !b.down && b.deferred && x.paused && !b.finDelivered && pos == 0 && (b.offset < |b.data| || b.fin)
      requires !b.down && !blocked ==> b.offset + pos == |b.data| && b.finDelivered == b.fin
      modifies `b, `regions
      ensures Traced() && Recorded() && Ending(b, x, now)
      ensures blocked ==> b == old(b).(delivering := false) && regions == old(regions)
      ensures !blocked ==> b == DroppedBack(old(b)).(delivering := false)
      ensures !b.down ==> now.b.fin == old(b).fin && now.b.errored == old(b).errored
    {
      hide Inv, Run, Joined, NoneEmpty, Tied, Next, Enabled, Ending;
      if !b.down {
        FinOf(b, x, now, pos, closed);
      }
      if blocked {
        BlockEnds(b, x, now);
      } else {
        DropEnds(b, x, now, pos, closed);
        DropDeferred();
      }
      b := b.(delivering := false);
    }

    /** And ask for more, unless that was the last. */
    method DeliverAndArm()
      requires Starting()
      modifies `b, `regions, `x, `script, `got, `fins, `events, `states, `now
      ensures Valid() && |script| <= |old(script)|
    {
      hide Inv, Run, Joined, NoneEmpty, Tied, Next, Enabled, Ending;
      var last := b.fin || b.errored;
      TiedFacts(b.(delivering := true), x, now, 0, false, false);
      DeliverBytes();
      EndingTies(b, x, now, last);
      if !last {
        Arm();
      }
      Log(Step(0));
    }

    // -------------------------------------------------------------- what comes from outside

    /** A completion is latched, held, or answered with the next receive; `deliver` if it goes out at once. */
    method Receive(content: seq<seq<byte>>, some: bool, isFin: bool, isError: bool) returns (deliver: bool)
      requires !b.delivering
      modifies `b, `regions
      ensures (if deliver then b.(delivering := true) else b) == CompletedBack(old(b), Joined(content), some, isFin, isError)
      ensures deliver ==> b.deferred && !b.delivering && !b.down && b.enabled
      ensures !b.delivering && (regions == content || regions == old(regions))
      ensures b.deferred && !old(b).deferred ==> regions == content && b.data == Joined(content)
    {
      hide Joined;
      deliver := false;
      b := b.(pending := false);
      if b.down {
        return;
      }
      b := b.(ended := b.ended || isFin || isError);
      if some || isFin {
        deliver := Hold(content, isFin, isError);
      } else if !isError {
        Arm();
      }
    }

    /** One completion is held; a second would be one too many. */
    method Hold(content: seq<seq<byte>>, isFin: bool, isError: bool) returns (deliver: bool)
      modifies `b, `regions
      ensures deliver == (!old(b).deferred && b.enabled)
      ensures b == if old(b).deferred then old(b).(overflow := true)
                   else old(b).(deferred := true, data := Joined(content), offset := 0, fin := isFin, errored := isError)
      ensures regions == if old(b).deferred then old(regions) else content
    {
      hide Joined;
      if b.deferred {
        b := b.(overflow := true);
        return false;
      }
      b := b.(deferred := true, data := Joined(content), offset := 0, fin := isFin, errored := isError);
      regions := content;
      return b.enabled;
    }

    ghost method LogComplete(content: seq<byte>, some: bool, isFin: bool, isError: bool)
      requires Traced() && Enabled(now, Complete(content, some, isFin, isError))
      modifies `events, `states, `now
      ensures Traced() && now == Completed(old(now), content, some, isFin, isError)
    {
      Log(Complete(content, some, isFin, isError));
    }

    /** What a completion brings is on record, and held. */
    method Take(content: seq<seq<byte>>, some: bool, isFin: bool, isError: bool) returns (deliver: bool)
      requires Valid() && b.pending && WellFormed(content, some, isFin, isError)
      modifies `b, `regions, `received, `finReceived, `events, `states, `now
      ensures if deliver then Starting() else Valid()
      ensures received == old(received) + (if !old(b).down then Joined(content) else [])
      ensures finReceived == (old(finReceived) || (!old(b).down && isFin))
    {
      hide Inv, Run, Joined, NoneEmpty, Tied, Next, Enabled, Completed, CompletedBack;
      EmptyJoins(content);
      CompleteTies(b, x, now, Joined(content), some, isFin, isError);
      if !b.down {
        received, finReceived := received + Joined(content), finReceived || isFin;
      }
      deliver := Receive(content, some, isFin, isError);
      LogComplete(Joined(content), some, isFin, isError);
    }

    /** A receive has completed. */
    method OnComplete(content: seq<seq<byte>>, some: bool, isFin: bool, isError: bool)
      requires Valid() && b.pending && WellFormed(content, some, isFin, isError)
      modifies this
      ensures Valid() && |script| <= |old(script)|
      ensures received == old(received) + (if !old(b).down then Joined(content) else [])
      ensures finReceived == (old(finReceived) || (!old(b).down && isFin))
    {
      hide Inv, Run, Joined, NoneEmpty, Tied, Next, Enabled;
      var deliver := Take(content, some, isFin, isError);
      if deliver {
        DeliverAndArm();
      }
    }

    /** A call of the application outside of a delivery; a resume may have something to deliver. */
    method OnCall(c: Call)
      requires Valid()
      modifies this
      ensures Valid() && |script| <= |old(script)| && received == old(received) && finReceived == old(finReceived)
    {
      hide Inv, Run, Joined, NoneEmpty, Tied, Next, Enabled, Called, EventOf;
      CallTies(b, x, now, 0, false, c);
      HeldIsFresh(b, x, now);
      ghost var evs := EventOf(b, x, c);
      var replay := Perform(c);
      if evs != [] {
        Log(evs[0]);
      }
      if replay {
        DeliverAndArm();
      }
    }

    /** The backend stream is going down; what is held is dropped. */
    method GoDown() returns (report: bool)
      requires Valid()
      modifies `b, `regions, `x, `events, `states, `now
      ensures Linked(0, false, false) && b.down && !b.delivering && x == old(x).(recvOpen := old(x).recvOpen && !report)
    {
      hide Inv, Run, Joined, NoneEmpty, Tied, Next, Enabled;
      report := x.attached && !x.connClosed && !b.down && !b.finDelivered;
      var y := if report then x.(recvOpen := false) else x;
      FailTies(b, x, now, y);
      x := y;
      DropDeferred();
      b := b.(down := true);
      Log(Fail);
    }

    /** The transport reports a failure, which is how a reset by the peer comes in. */
    method OnFailure()
      requires Valid()
      modifies this
      ensures Valid() && b.down && |script| <= |old(script)| && received == old(received) && finReceived == old(finReceived)
    {
      hide Inv, Run, Joined, NoneEmpty, Tied, Next, Enabled, Kept;
      var report := GoDown();
      if report {
        ghost var b0, x0 := b, x;
        RunCallback(0, false);
        KeptDown(b0, x0, b, x);
        DownTies(b, x, now, 0, false, false, 0, false, false);
        x := x.(drain := false);
        ReleaseIfDone();
      }
    }

    // -------------------------------------------------------------- what the application may rely on

    /** The bytes still held for the application. */
    ghost function Held(): seq<byte>
      reads this
    {
      if b.deferred && b.offset <= |b.data| then b.data[b.offset..] else []
    }

    /** In order, nothing twice, nothing missing on a stream that lives, the end once and last. */
    ghost predicate Faithful()
      reads this
    {
      IsPrefix(got, received) && fins <= 1 && (fins == 1 ==> finReceived && got == received) &&
      (!b.down ==> received == got + Held()) &&
      (!b.down && !x.paused ==> got == received && (finReceived ==> fins == 1))
    }

    /** What the machine keeps over every run holds for the loops. */
    lemma ValidIsFaithful()
      requires Valid()
      ensures Faithful()
    {
      hide Run, Joined, NoneEmpty;
      InOrderOnce(events, states, |events|);
      if !b.down && !x.paused {
        NothingWithheld(events, states, |events|);
      }
    }

    /** Whatever the transport and the application do, in any order, and whatever the application does inside its callbacks. */
    method Serve(inputs: seq<Input>)
      requires Valid()
      modifies this
      ensures Valid() && Faithful()
      ensures old(received) <= received
    {
      hide Inv, Run, Joined, Tied, Linked, Faithful;
      var i := 0;
      while i < |inputs|
        invariant i <= |inputs| && Valid() && old(received) <= received
      {
        match inputs[i] {
          case Completion(content, some, isFin, isError) =>
            if b.pending && WellFormed(content, some, isFin, isError) {
              OnComplete(content, some, isFin, isError);
            }
          case ByApplication(call) => OnCall(call);
          case Failure => OnFailure();
        }
        i := i + 1;
      }
      ValidIsFaithful();
    }
  }
}
