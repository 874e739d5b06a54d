/**
 Receiving on a Network stream that the application may pause and resume at any time, also from
 inside its own callbacks. The engine refuses bytes of a paused stream and says how many it took;
 the backend holds at most one completion and replays the rest of it. Together they hand the
 application exactly the bytes the peer sent, in order, with the end of stream last.
 */
module NwReceive {

  type byte = x: int | 0 <= x < 256

  const MaxChunk: nat := 65535

  /** The receive side of the backend stream. */
  datatype Backend = Backend(
    pending: bool,
    enabled: bool,
    deferred: bool,
    data: seq<byte>,
    offset: nat,
    fin: bool,
    errored: bool,
    ended: bool,
    delivering: bool,
    finDelivered: bool,
    down: bool,
    overflow: bool)

  /** The engine's side: the direction is open, and the application has paused it. */
  datatype Engine = Engine(recvOpen: bool, paused: bool)

  /** What the peer sent so far and what the application got. */
  datatype History = History(received: seq<byte>, finReceived: bool, got: seq<byte>, fins: nat, lost: bool)

  datatype State = State(b: Backend, e: Engine, h: History)

  /** A stream that is ready has a receive armed. */
  const Init := State(Backend(true, true, false, [], 0, false, false, false, false, false, false, false),
                      Engine(true, false), History([], false, [], 0, false))

  /** Every sign of an end or a teardown forbids another receive. */
  predicate MayArm(b: Backend) {
    !b.pending && !b.deferred && !b.delivering && b.enabled && !b.finDelivered && !b.ended && !b.down
  }

  function ArmedBack(b: Backend): Backend {
    if MayArm(b) then b.(pending := true) else b
  }

  function Armed(s: State): State {
    s.(b := ArmedBack(s.b))
  }

  function DroppedBack(b: Backend): Backend {
    b.(deferred := false, data := [], offset := 0, fin := false, errored := false)
  }

  /** Let go of the held completion; what was not handed over is lost with the stream. */
  function Dropped(s: State): State {
    s.(b := DroppedBack(s.b), h := s.h.(lost := s.h.lost || (s.b.deferred && !Done(s.b))))
  }

  /** Everything the held completion carried has been handed over. */
  predicate Done(b: Backend) {
    b.offset == |b.data| && (b.fin ==> b.finDelivered)
  }

  datatype Event =
    | Complete(content: seq<byte>, some: bool, fin: bool, errored: bool)
    | Step(n: nat)
    | Pause
    | Resume
    | Cancel(drop: bool)
    | Fail

  predicate Enabled(s: State, ev: Event) {
    match ev
    case Complete(content, some, fin, errored) => s.b.pending && !s.b.delivering && (content != [] ==> some) && !(fin && errored)
    case Step(n) =>
      s.b.delivering && s.b.offset <= |s.b.data| &&
      (!Done(s.b) && s.b.deferred && !s.b.down && s.b.enabled && s.b.offset < |s.b.data| ==>
        1 <= n <= MaxChunk && n <= |s.b.data| - s.b.offset)
    case Pause => true
    case Resume => true
    case Cancel(_) => true
    case Fail => !s.b.delivering
  }

  /** A receive has completed: hold it, and hand it over at once unless the stream is paused. */
  function CompletedBack(b: Backend, content: seq<byte>, some: bool, fin: bool, errored: bool): Backend {
    var t := b.(pending := false);
    if b.down then t
    else
      var u := t.(ended := t.ended || fin || errored);
      if !some && !fin then (if errored then u else ArmedBack(u))
      else if u.deferred then u.(overflow := true)
      else u.(deferred := true, data := content, offset := 0, fin := fin, errored := errored, delivering := u.enabled)
  }

  function Completed(s: State, content: seq<byte>, some: bool, fin: bool, errored: bool): State {
    var t := s.(b := CompletedBack(s.b, content, some, fin, errored));
    if s.b.down || (!some && !fin) || s.b.deferred then t
    else t.(h := s.h.(received := s.h.received + content, finReceived := s.h.finReceived || fin))
  }

  /** The delivery is over: a completion that was handed over is let go, and the next one asked for. */
  function Finish(s: State): State {
    var last := s.b.fin || s.b.errored;
    var t := Dropped(s);
    var u := t.(b := t.b.(delivering := false), e := t.e.(recvOpen := t.e.recvOpen && !(s.b.fin && s.b.finDelivered)));
    if last then u else Armed(u)
  }

  /** One turn of the delivery: end it, hold the rest, or hand over the next chunk. */
  function Stepped(s: State, n: nat): State
    requires Enabled(s, Step(n))
  {
    if Done(s.b) || !s.b.deferred || s.b.down then Finish(s)
    else if !s.b.enabled then s.(b := s.b.(delivering := false))
    else if s.b.offset < |s.b.data| then
      var chunk := s.b.data[s.b.offset..s.b.offset + n];
      var last := s.b.offset + n == |s.b.data| && s.b.fin;
      s.(b := s.b.(offset := s.b.offset + n, finDelivered := s.b.finDelivered || last),
         h := s.h.(got := s.h.got + chunk, fins := s.h.fins + (if last then 1 else 0)))
    else s.(b := s.b.(finDelivered := true), h := s.h.(fins := s.h.fins + 1))
  }

  /** Whether the backend takes a pause or a resume. */
  predicate Accepts(b: Backend, enable: bool) {
    !b.down && !(b.ended && (!b.deferred || (enable && b.delivering)))
  }

  /** The engine publishes the wish first and takes it back if the backend refuses. */
  function Switched(s: State, enable: bool): State {
    if !s.e.recvOpen then s
    else
      var t := s.(e := s.e.(paused := !enable));
      if !Accepts(s.b, enable) then t.(e := s.e)
      else
        t.(b := SwitchedBack(s.b, enable))
  }

  function SwitchedBack(b: Backend, enable: bool): Backend
    requires Accepts(b, enable)
  {
    var u := b.(enabled := enable);
    if !enable || b.delivering then u else if b.deferred then u.(delivering := true) else ArmedBack(u)
  }

  function Next(s: State, ev: Event): State
    requires Enabled(s, ev)
  {
    match ev
    case Complete(content, some, fin, errored) => Completed(s, content, some, fin, errored)
    case Step(n) => Stepped(s, n)
    case Pause => Switched(s, false)
    case Resume => Switched(s, true)
    case Cancel(drop) =>
      var t := s.(b := s.b.(down := true), e := s.e.(recvOpen := false));
      if drop then Dropped(t) else t
    case Fail => Dropped(s.(b := s.b.(down := true), e := s.e.(recvOpen := false)))
  }

  predicate Run(es: seq<Event>, ss: seq<State>) {
    |ss| == |es| + 1 && ss[0] == Init &&
    forall i :: 0 <= i < |es| ==> Enabled(ss[i], es[i]) && ss[i + 1] == Next(ss[i], es[i])
  }

  // ---------------------------------------------------------------- what every step keeps

  /** What is still held for the application. */
  function Rest(b: Backend): seq<byte> {
    if b.deferred && b.offset <= |b.data| then b.data[b.offset..] else []
  }

  predicate SlotOk(b: Backend) {
    !b.overflow && b.offset <= |b.data| &&
    (b.pending ==> !b.deferred && !b.delivering && !b.ended) &&
    (!b.deferred ==> b.data == [] && b.offset == 0 && !b.fin && !b.errored) &&
    (b.deferred && !b.delivering ==> !b.enabled || b.down) &&
    (b.delivering ==> b.deferred || b.down) &&
    (b.fin || b.errored ==> b.ended) && (b.finDelivered ==> b.ended) && (b.finDelivered && b.deferred ==> Done(b) && b.fin && (b.delivering || b.down))
  }

  /** Paused means the same on both sides, and a live stream that may receive is receiving. */
  predicate Agree(s: State) {
    s.e.paused == !s.b.enabled &&
    (s.e.recvOpen && s.b.enabled && !s.b.ended && !s.b.delivering && !s.b.down ==> s.b.pending) &&
    (s.e.recvOpen ==> !s.b.down) && (!s.e.recvOpen ==> s.b.down || s.b.finDelivered) &&
    (s.b.finDelivered && !s.b.deferred ==> !s.e.recvOpen)
  }

  predicate IsPrefix(a: seq<byte>, b: seq<byte>) {
    |a| <= |b| && b[..|a|] == a
  }

  predicate HistoryOk(s: State) {
    IsPrefix(s.h.got, s.h.received) && (s.h.lost ==> s.b.down) &&
    (!s.h.lost ==> s.h.received == s.h.got + Rest(s.b)) &&
    s.h.fins == (if s.b.finDelivered then 1 else 0) &&
    (s.b.finDelivered ==> s.h.finReceived && s.h.got == s.h.received) &&
    (s.h.finReceived ==> s.b.ended) &&
    (s.b.fin ==> s.h.finReceived) &&
    (s.h.finReceived && !s.h.lost && !s.b.finDelivered ==> s.b.deferred && s.b.fin)
  }

  predicate Inv(s: State) {
    SlotOk(s.b) && Agree(s) && HistoryOk(s)
  }

  lemma StepKeeps(s: State, ev: Event)
    requires Inv(s) && Enabled(s, ev)
    ensures Inv(Next(s, ev))
  {
    match ev
    case Complete(content, some, fin, errored) => CompleteKeeps(s, content, some, fin, errored);
    case Step(n) => DeliveryKeeps(s, n);
    case _ =>
  }

  lemma CompleteKeeps(s: State, content: seq<byte>, some: bool, fin: bool, errored: bool)
    requires Inv(s) && Enabled(s, Complete(content, some, fin, errored))
    ensures Inv(Completed(s, content, some, fin, errored))
  {
    assert s.h.received + content == s.h.got + content || s.h.lost;
    assert content[0..] == content;
  }

  lemma DeliveryKeeps(s: State, n: nat)
    requires Inv(s) && Enabled(s, Step(n))
    ensures Inv(Stepped(s, n))
  {
    var t := Stepped(s, n);
    if Done(s.b) || !s.b.deferred || s.b.down {
      assert s.h.got + [] == s.h.got;
    } else if s.b.enabled && s.b.offset < |s.b.data| {
      var chunk := s.b.data[s.b.offset..s.b.offset + n];
      assert Rest(s.b) == chunk + Rest(t.b);
      assert s.h.got + (chunk + Rest(t.b)) == t.h.got + Rest(t.b);
    }
  }

  lemma {:induction false} RunKeeps(es: seq<Event>, ss: seq<State>, n: nat)
    requires Run(es, ss) && n <= |es|
    ensures Inv(ss[n])
  {
    if n > 0 {
      RunKeeps(es, ss, n - 1);
      hide Inv;
      StepKeeps(ss[n - 1], es[n - 1]);
    }
  }

  // ---------------------------------------------------------------- what the application may rely on

  /**
   Whatever the completions, the chunks and the pattern of pauses and resumes: the application
   has a prefix of what the peer sent, all but what is held if the stream is not torn down, and
   the end of stream once, after the last byte.
   */
  lemma InOrderOnce(es: seq<Event>, ss: seq<State>, n: nat)
    requires Run(es, ss) && n <= |es|
    ensures var s := ss[n];
      IsPrefix(s.h.got, s.h.received) && (!s.h.lost ==> s.h.received == s.h.got + Rest(s.b)) && (s.h.lost ==> s.b.down) &&
      s.h.fins <= 1 && (s.h.fins == 1 ==> s.h.finReceived && s.h.got == s.h.received)
  {
    RunKeeps(es, ss, n);
  }

  /** At rest, with the stream alive and not paused, everything received has been handed over. */
  lemma NothingWithheld(es: seq<Event>, ss: seq<State>, n: nat)
    requires Run(es, ss) && n <= |es| && !ss[n].b.delivering && !ss[n].b.down && !ss[n].e.paused
    ensures ss[n].h.got == ss[n].h.received && (ss[n].h.finReceived ==> ss[n].h.fins == 1)
    ensures ss[n].e.recvOpen && !ss[n].b.ended ==> ss[n].b.pending
  {
    RunKeeps(es, ss, n);
    assert ss[n].h.got + [] == ss[n].h.got;
  }

  /** Nothing is handed over while the application has the stream paused. */
  lemma QuietWhilePaused(es: seq<Event>, ss: seq<State>, n: nat)
    requires Run(es, ss) && n < |es| && ss[n].e.paused
    ensures ss[n + 1].h.got == ss[n].h.got && ss[n + 1].h.fins == ss[n].h.fins
  {
    RunKeeps(es, ss, n);
    var s := ss[n];
    assert !s.b.enabled;
  }

  /** A receive is never outstanding while one is held or after the end; two are never held. */
  lemma OneAtATime(es: seq<Event>, ss: seq<State>, n: nat)
    requires Run(es, ss) && n <= |es|
    ensures !(ss[n].b.pending && (ss[n].b.deferred || ss[n].b.ended)) && !ss[n].b.overflow
  {
    RunKeeps(es, ss, n);
  }

  /**
   A pause is taken whenever the direction is open and there is anything left to pause: until the
   receive side has ended, and after that as long as a completion is held. What is refused leaves
   no trace.
   */
  lemma PauseTakes(es: seq<Event>, ss: seq<State>, n: nat)
    requires Run(es, ss) && n < |es| && es[n] == Pause
    ensures var s := ss[n];
            if s.e.recvOpen && (!s.b.ended || s.b.deferred)
            then ss[n + 1] == s.(b := s.b.(enabled := false), e := s.e.(paused := true))
            else ss[n + 1] == s
  {
    RunKeeps(es, ss, n);
    assert Enabled(ss[n], es[n]) && ss[n + 1] == Next(ss[n], es[n]);
  }

  /**
   A resume is taken until the receive side has ended, and after that while a completion is held
   that no delivery is handing over. It brings what is held, or else the next receive.
   */
  lemma ResumeTakes(es: seq<Event>, ss: seq<State>, n: nat)
    requires Run(es, ss) && n < |es| && es[n] == Resume
    ensures var s, t := ss[n], ss[n + 1];
            if s.e.recvOpen && (!s.b.ended || (s.b.deferred && !s.b.delivering))
            then !t.e.paused && t.b.enabled && t.e.recvOpen && t.h == s.h && t.b.data == s.b.data && t.b.offset == s.b.offset &&
                 t.b.delivering == s.b.deferred && t.b.pending == !s.b.deferred && !t.b.down
            else t == s
  {
    RunKeeps(es, ss, n);
    assert Enabled(ss[n], es[n]) && ss[n + 1] == Next(ss[n], es[n]);
  }

  /**
   What a completion brings is held for the application and handed over at once unless it has
   paused; an empty one without an end asks for the next; an error alone ends the receiving.
   */
  lemma CompletionTaken(es: seq<Event>, ss: seq<State>, n: nat, content: seq<byte>, some: bool, fin: bool, errored: bool)
    requires Run(es, ss) && n < |es| && es[n] == Complete(content, some, fin, errored)
    ensures var s := ss[n];
            var ended := s.b.(pending := false, ended := s.b.ended || fin || errored);
            ss[n + 1] ==
            if s.b.down then s.(b := s.b.(pending := false))
            else if some || fin
            then State(ended.(deferred := true, data := content, offset := 0, fin := fin, errored := errored, delivering := s.b.enabled),
                       s.e, s.h.(received := s.h.received + content, finReceived := s.h.finReceived || fin))
            else s.(b := ended.(pending := !errored && s.b.enabled && !s.b.finDelivered))
  {
    RunKeeps(es, ss, n);
    assert Enabled(ss[n], es[n]) && ss[n + 1] == Next(ss[n], es[n]);
  }

  lemma DownStays(s: State, ev: Event)
    requires Enabled(s, ev) && (ev.Cancel? || ev.Fail? || (s.b.down && !s.e.recvOpen))
    ensures var t := Next(s, ev); t.b.down && !t.e.recvOpen && t.h.got == s.h.got && t.h.fins == s.h.fins
  {
  }

  /** A stream that is torn down takes no more, and hands nothing more to the application. */
  lemma {:induction false} TornDown(es: seq<Event>, ss: seq<State>, m: nat, n: nat)
    requires Run(es, ss) && m < n <= |es| && (es[m].Cancel? || es[m].Fail?)
    ensures ss[n].b.down && !ss[n].e.recvOpen && ss[n].h.got == ss[m].h.got && ss[n].h.fins == ss[m].h.fins
  {
    hide Next, Enabled;
    if m + 1 < n {
      TornDown(es, ss, m, n - 1);
    }
    assert Enabled(ss[n - 1], es[n - 1]) && ss[n] == Next(ss[n - 1], es[n - 1]);
    DownStays(ss[n - 1], es[n - 1]);
  }
}
