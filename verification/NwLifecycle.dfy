/**
 The managed handle of the Network backend: references, posts, the deferred main-thread start
 and the stop protocol. Every critical section and every block of the serial domain queue is
 one step; what happens between a critical section and the dispatch it decided on is visible
 as pending work, so other threads may get in between.
 */
module NwLifecycle {

  // ---------------------------------------------------------------- critical sections

  datatype Start = Queued | Starting | Started

  /** The fields of the handle that its mutex protects. */
  datatype Handle = Handle(
    refs: int,
    stopStarted: bool,
    closed: bool,
    lifecycleOver: bool,
    stoppedDone: bool,
    start: Start,
    stopEnqueued: bool)

  const Created := Handle(2, false, false, false, false, Queued, false)

  function Retained(h: Handle): Handle {
    h.(refs := h.refs + 1)
  }

  /** What a release leaves to do once the mutex is dropped. */
  datatype Duty = Nothing | ImplicitStop | FreeHandle

  function Released(h: Handle): Handle {
    if h.refs <= 0 then h else h.(refs := h.refs - 1)
  }

  function ReleaseDuty(h: Handle): Duty {
    if h.refs != 1 then Nothing
    else if !h.stopStarted then ImplicitStop
    else if h.lifecycleOver then FreeHandle
    else Nothing
  }

  /** A post is accepted with a reference of its own, or refused. */
  function Posted(h: Handle): Handle {
    if h.closed then h else h.(refs := h.refs + 1)
  }

  function StopBegun(h: Handle): Handle {
    if h.stopStarted then h
    else h.(stopStarted := true, closed := true, stopEnqueued := h.stopEnqueued || h.start == Started)
  }

  function StartBegun(h: Handle): Handle {
    h.(start := Starting)
  }

  function StartEnded(h: Handle): Handle {
    h.(start := Started, stopEnqueued := h.stopEnqueued || h.stopStarted)
  }

  function Finished(h: Handle): Handle {
    h.(stoppedDone := true, lifecycleOver := true)
  }

  /** The section decided that the stop worker is to be dispatched. */
  predicate Enqueues(h: Handle, t: Handle) {
    t.stopEnqueued && !h.stopEnqueued
  }

  // ---------------------------------------------------------------- the machine

  datatype Block = PostBlock(id: nat) | StopBlock | FinishBlock

  datatype Running = Idle | InPost | InFinish

  /** What the threads outside are up to, and what has happened so far. */
  datatype Outside = Outside(
    held: nat,
    construction: bool,
    pendingStop: nat,
    pendingEnqueue: nat,
    accepted: nat,
    ran: nat,
    done: nat,
    stoppedCalls: nat,
    frees: nat)

  /** The domain's view of the driver. */
  datatype Driver = Driver(terminalDone: bool, stopStarted: bool, finishScheduled: bool)

  datatype State = State(h: Handle, o: Outside, d: Driver, queue: seq<Block>, running: Running)

  datatype Event =
    | Retain
    | Release
    | Post
    | StopBegin
    | BeginImplicitStop
    | DispatchStop
    | BeginStart
    | EndStart
    | DropConstruction
    | RunBlock
    | EndBlock
    | GroupTerminal

  const Init := State(Created, Outside(1, true, 0, 0, 0, 0, 0, 0, 0), Driver(false, false, false), [], Idle)

  /** The application calls with a reference of its own, or from inside an accepted post. */
  predicate MayCall(s: State) {
    s.o.held > 0 || s.running == InPost
  }

  predicate Enabled(s: State, ev: Event) {
    match ev
    case Retain => MayCall(s)
    case Release => s.o.held > 0
    case Post => MayCall(s)
    case StopBegin => MayCall(s)
    case BeginImplicitStop => s.o.pendingStop > 0
    case DispatchStop => s.o.pendingEnqueue > 0
    case BeginStart => s.h.start == Queued
    case EndStart => s.h.start == Starting
    case DropConstruction => s.h.start == Started && s.o.construction
    case RunBlock => s.running == Idle && s.queue != []
    case EndBlock => s.running != Idle
    case GroupTerminal => s.running == Idle && s.h.start != Queued && !s.h.lifecycleOver
  }

  function Dropped(s: State): State {
    var duty := ReleaseDuty(s.h);
    s.(h := Released(s.h),
       o := s.o.(pendingStop := s.o.pendingStop + (if duty == ImplicitStop then 1 else 0),
                 frees := s.o.frees + (if duty == FreeHandle then 1 else 0)))
  }

  /** A section that may decide to dispatch the stop worker. */
  function Section(s: State, h: Handle): State {
    s.(h := h, o := s.o.(pendingEnqueue := s.o.pendingEnqueue + (if Enqueues(s.h, h) then 1 else 0)))
  }

  function MaybeFinish(s: State): State {
    if s.d.finishScheduled || !s.d.terminalDone || !s.d.stopStarted then s
    else s.(d := s.d.(finishScheduled := true), queue := s.queue + [FinishBlock])
  }

  /** The domain takes the next block: a post, the stop worker, or the finisher with its callback. */
  function BlockBegun(s: State): State
    requires s.queue != []
  {
    var t := s.(queue := s.queue[1..]);
    match s.queue[0]
    case PostBlock(id) => t.(o := s.o.(ran := s.o.ran + 1), running := InPost)
    case StopBlock => MaybeFinish(t.(d := s.d.(stopStarted := true)))
    case FinishBlock => t.(o := s.o.(stoppedCalls := s.o.stoppedCalls + 1), running := InFinish)
  }

  /** A post drops its reference; the finisher ends the lifecycle and frees a handle nobody holds. */
  function BlockEnded(s: State): State {
    if s.running == InPost then Dropped(s.(o := s.o.(done := s.o.done + 1), running := Idle))
    else
      s.(h := Finished(s.h), running := Idle,
         o := s.o.(frees := s.o.frees + (if s.h.refs == 0 then 1 else 0)))
  }

  function Next(s: State, ev: Event): State
    requires Enabled(s, ev)
  {
    match ev
    case Retain => s.(h := Retained(s.h), o := s.o.(held := s.o.held + 1))
    case Release => Dropped(s.(o := s.o.(held := s.o.held - 1)))
    case Post =>
      if s.h.closed then s
      else s.(h := Posted(s.h), o := s.o.(accepted := s.o.accepted + 1), queue := s.queue + [PostBlock(s.o.accepted)])
    case StopBegin => Section(s, StopBegun(s.h))
    case BeginImplicitStop => Section(s.(o := s.o.(pendingStop := s.o.pendingStop - 1)), StopBegun(s.h))
    case DispatchStop => s.(o := s.o.(pendingEnqueue := s.o.pendingEnqueue - 1), queue := s.queue + [StopBlock])
    case BeginStart => s.(h := StartBegun(s.h))
    case EndStart => Section(s, StartEnded(s.h))
    case DropConstruction => Dropped(s.(o := s.o.(construction := false)))
    case RunBlock => BlockBegun(s)
    case EndBlock => BlockEnded(s)
    case GroupTerminal => MaybeFinish(s.(d := s.d.(terminalDone := true)))
  }

  predicate Run(es: seq<Event>, ss: seq<State>) {
    |ss| == |es| + 1 && ss[0] == Init &&
    forall i :: 0 <= i < |es| ==> Enabled(ss[i], es[i]) && ss[i + 1] == Next(ss[i], es[i])
  }

  // ---------------------------------------------------------------- what every step keeps

  function Bit(b: bool): nat {
    if b then 1 else 0
  }

  /** Every reference is accounted for. */
  predicate Counted(s: State) {
    s.o.done <= s.o.ran <= s.o.accepted && s.o.ran == s.o.done + Bit(s.running == InPost) &&
    s.h.refs == s.o.held + (s.o.accepted - s.o.done) + Bit(s.o.construction)
  }

  /** The queue holds the accepted posts in order, and after them at most one worker. */
  predicate Lined(s: State) {
    var posts := s.o.accepted - s.o.ran;
    posts >= 0 && posts <= |s.queue| <= posts + 1 &&
    (forall k :: 0 <= k < posts ==> s.queue[k] == PostBlock(s.o.ran + k)) &&
    (|s.queue| == posts + 1 ==> s.queue[posts] == StopBlock || s.queue[posts] == FinishBlock)
  }

  predicate LastIs(s: State, b: Block) {
    s.queue != [] && s.queue[|s.queue| - 1] == b
  }

  /** The stop worker: decided once, after the start, dispatched once, run once. */
  predicate StopOk(s: State) {
    s.h.closed == s.h.stopStarted &&
    s.o.pendingEnqueue + Bit(LastIs(s, StopBlock)) + Bit(s.d.stopStarted) == Bit(s.h.stopEnqueued) &&
    (s.h.stopEnqueued <==> s.h.stopStarted && s.h.start == Started) &&
    (s.d.stopStarted ==> s.o.accepted == s.o.ran && s.running != InPost) &&
    s.o.pendingStop == Bit(s.h.refs == 0 && !s.h.stopStarted) &&
    (s.o.construction <== s.h.start != Started)
  }

  /** The finisher: scheduled once both the stop worker has run and the group is over. */
  predicate FinishOk(s: State) {
    (s.d.finishScheduled <==> s.d.stopStarted && s.d.terminalDone) &&
    Bit(LastIs(s, FinishBlock)) + Bit(s.running == InFinish) + Bit(s.h.lifecycleOver) == Bit(s.d.finishScheduled) &&
    s.o.stoppedCalls == Bit(s.running == InFinish || s.h.lifecycleOver) && s.h.stoppedDone == s.h.lifecycleOver
  }

  predicate FreeOk(s: State) {
    s.o.frees == Bit(s.h.lifecycleOver && s.h.refs == 0)
  }

  predicate Inv(s: State) {
    Counted(s) && Lined(s) && StopOk(s) && FinishOk(s) && FreeOk(s)
  }

  lemma DroppedKeeps(s: State, t: State)
    requires Lined(s) && StopOk(s) && FinishOk(s) && FreeOk(s)
    requires s.h.refs > 0 && t.h == s.h && t.d == s.d && t.queue == s.queue
    requires t.o.pendingStop == s.o.pendingStop && t.o.pendingEnqueue == s.o.pendingEnqueue && t.o.frees == s.o.frees
    requires t.o.accepted == s.o.accepted && t.o.ran == s.o.ran && t.o.stoppedCalls == s.o.stoppedCalls
    requires t.running == s.running || (s.running == InPost && t.running == Idle)
    requires t.o.construction == s.o.construction || s.h.start == Started
    requires Counted(Dropped(t))
    ensures Inv(Dropped(t))
  {
  }

  lemma RunBlockKeeps(s: State)
    requires Inv(s) && Enabled(s, RunBlock)
    ensures Inv(Next(s, RunBlock))
  {
    var posts := s.o.accepted - s.o.ran;
    if posts > 0 {
      assert s.queue[0] == PostBlock(s.o.ran + 0);
      assert forall k :: 0 <= k < posts - 1 ==> s.queue[1..][k] == s.queue[k + 1];
    } else {
      assert s.queue[1..] == [];
    }
  }

  lemma EndBlockKeeps(s: State)
    requires Inv(s) && Enabled(s, EndBlock)
    ensures Inv(Next(s, EndBlock))
  {
    if s.running == InPost {
      DroppedKeeps(s, s.(o := s.o.(done := s.o.done + 1), running := Idle));
    }
  }

  lemma StopKeeps(s: State, ev: Event)
    requires Inv(s) && Enabled(s, ev) && (ev.StopBegin? || ev.BeginImplicitStop? || ev.EndStart? || ev.DispatchStop?)
    ensures Inv(Next(s, ev))
  {
  }

  lemma PostKeeps(s: State)
    requires Inv(s) && Enabled(s, Post)
    ensures Inv(Next(s, Post))
  {
  }

  lemma ReleaseKeeps(s: State, ev: Event)
    requires Inv(s) && Enabled(s, ev) && (ev.Release? || ev.DropConstruction?)
    ensures Inv(Next(s, ev))
  {
    DroppedKeeps(s, s.(o := if ev.Release? then s.o.(held := s.o.held - 1) else s.o.(construction := false)));
  }

  lemma QuietKeeps(s: State, ev: Event)
    requires Inv(s) && Enabled(s, ev) && (ev.Retain? || ev.BeginStart? || ev.GroupTerminal?)
    ensures Inv(Next(s, ev))
  {
  }

  lemma StepKeeps(s: State, ev: Event)
    requires Inv(s) && Enabled(s, ev)
    ensures Inv(Next(s, ev))
  {
    hide Inv, Next, Enabled;
    match ev {
      case RunBlock => RunBlockKeeps(s);
      case Release => ReleaseKeeps(s, ev);
      case DropConstruction => ReleaseKeeps(s, ev);
      case EndBlock => EndBlockKeeps(s);
      case Post => PostKeeps(s);
      case Retain => QuietKeeps(s, ev);
      case BeginStart => QuietKeeps(s, ev);
      case GroupTerminal => QuietKeeps(s, ev);
      case _ => StopKeeps(s, ev);
    }
  }

  lemma {:induction false} RunKeeps(es: seq<Event>, ss: seq<State>, n: nat)
    requires Run(es, ss) && n <= |es|
    ensures Inv(ss[n])
  {
    if n > 0 {
      RunKeeps(es, ss, n - 1);
      StepKeeps(ss[n - 1], es[n - 1]);
    }
  }

  // ---------------------------------------------------------------- what the owner may rely on

  /** The blocks that have begun, in order: which posts, and whether the workers. */
  predicate StoppedLast(s: State) {
    s.o.stoppedCalls > 0 ==> s.o.ran == s.o.accepted && s.o.done == s.o.accepted && s.d.stopStarted && s.h.closed
  }

  /**
   In every run: posts run in the order they were accepted; the stop worker is dispatched at most
   once, never before the start has returned, and runs after every accepted post; on_stopped is
   called at most once, after all of them; and the handle is freed at most once, after on_stopped
   and with no reference left.
   */
  lemma LifecycleSafe(es: seq<Event>, ss: seq<State>, n: nat)
    requires Run(es, ss) && n <= |es|
    ensures var s := ss[n];
      s.o.pendingEnqueue + Bit(LastIs(s, StopBlock)) + Bit(s.d.stopStarted) <= 1 &&
      (s.o.pendingEnqueue > 0 || LastIs(s, StopBlock) || s.d.stopStarted ==> s.h.start == Started) &&
      (s.d.stopStarted ==> s.o.ran == s.o.accepted && s.o.done == s.o.accepted) &&
      s.o.stoppedCalls <= 1 && StoppedLast(s) &&
      s.o.frees <= 1 && (s.o.frees == 1 ==> s.h.refs == 0 && s.o.held == 0 && s.o.stoppedCalls == 1 && s.running == Idle && s.queue == [])
  {
    RunKeeps(es, ss, n);
    assert LastIs(ss[n], StopBlock) ==> ss[n].queue != [];
  }

  /** A post that the domain takes is the oldest one that has not run. */
  lemma PostsRunInOrder(es: seq<Event>, ss: seq<State>, n: nat)
    requires Run(es, ss) && n < |es| && es[n] == RunBlock && ss[n].queue[0].PostBlock?
    ensures ss[n].queue[0] == PostBlock(ss[n].o.ran) && ss[n].o.ran < ss[n].o.accepted && !ss[n].d.stopStarted
  {
    RunKeeps(es, ss, n);
    var s := ss[n];
    assert s.o.accepted - s.o.ran > 0 ==> s.queue[0] == PostBlock(s.o.ran + 0);
  }

  /** A stop has begun, by the application or by the release of the last reference. */
  ghost predicate StopSeen(es: seq<Event>, n: nat)
    requires n <= |es|
  {
    exists m :: 0 <= m < n && (es[m] == StopBegin || es[m] == BeginImplicitStop)
  }

  lemma {:induction false} ClosedIffStopped(es: seq<Event>, ss: seq<State>, n: nat)
    requires Run(es, ss) && n <= |es|
    ensures ss[n].h.closed == ss[n].h.stopStarted && (ss[n].h.closed <==> StopSeen(es, n))
  {
    if n > 0 {
      ClosedIffStopped(es, ss, n - 1);
      assert Enabled(ss[n - 1], es[n - 1]) && ss[n] == Next(ss[n - 1], es[n - 1]);
    }
  }

  /** A post is accepted, with a reference of its own and last in the queue, if and only if no stop has begun. */
  lemma PostAcceptedIff(es: seq<Event>, ss: seq<State>, n: nat)
    requires Run(es, ss) && n < |es| && es[n] == Post
    ensures var s := ss[n];
            ss[n + 1] ==
            if StopSeen(es, n) then s
            else s.(h := s.h.(refs := s.h.refs + 1), o := s.o.(accepted := s.o.accepted + 1),
                    queue := s.queue + [PostBlock(s.o.accepted)])
  {
    ClosedIffStopped(es, ss, n);
    assert Enabled(ss[n], es[n]) && ss[n + 1] == Next(ss[n], es[n]);
  }

  /** Whoever drops the last reference begins the stop that nobody asked for, or frees the handle whose lifecycle is over. */
  lemma LastReferenceActs(es: seq<Event>, ss: seq<State>, n: nat)
    requires Run(es, ss) && n < |es| && ss[n].h.refs == 1
    requires es[n] == Release || es[n] == DropConstruction || (es[n] == EndBlock && ss[n].running == InPost)
    ensures var s, t := ss[n], ss[n + 1];
            t.h == s.h.(refs := 0) &&
            t.o.pendingStop == s.o.pendingStop + (if StopSeen(es, n) then 0 else 1) &&
            t.o.frees == s.o.frees + (if StopSeen(es, n) && s.h.lifecycleOver then 1 else 0)
  {
    ClosedIffStopped(es, ss, n);
    assert Enabled(ss[n], es[n]) && ss[n + 1] == Next(ss[n], es[n]);
  }

  /** Nobody touches the handle once it is freed: no step that needs it is enabled. */
  lemma NoUseAfterFree(es: seq<Event>, ss: seq<State>, n: nat, ev: Event)
    requires Run(es, ss) && n <= |es| && ss[n].o.frees > 0
    ensures !Enabled(ss[n], ev)
  {
    LifecycleSafe(es, ss, n);
    RunKeeps(es, ss, n);
  }

  /** All threads, the start and the domain are done, the group is over and the owner has let go. */
  predicate Quiet(s: State) {
    s.queue == [] && s.running == Idle && s.o.pendingStop == 0 && s.o.pendingEnqueue == 0 &&
    s.h.start == Started && !s.o.construction && s.o.held == 0 && s.d.terminalDone
  }

  /** And then everything has happened exactly once. */
  lemma QuietMeansFreed(es: seq<Event>, ss: seq<State>, n: nat)
    requires Run(es, ss) && n <= |es| && Quiet(ss[n])
    ensures ss[n].o.frees == 1 && ss[n].o.stoppedCalls == 1 && ss[n].o.done == ss[n].o.accepted && ss[n].h.refs == 0
  {
    RunKeeps(es, ss, n);
  }

  /** A step of the threads, the start, the domain or the transport that gets something done. */
  predicate Advances(s: State, ev: Event) {
    Enabled(s, ev) && !(ev.Retain? || ev.Release? || ev.Post? || ev.StopBegin?) && !(ev.GroupTerminal? && s.d.terminalDone)
  }

  /** How far the stop protocol is from its end. */
  function Stage(s: State): nat {
    if s.h.lifecycleOver then 0
    else if s.running == InFinish then 1
    else if s.d.finishScheduled then 2
    else if s.d.stopStarted then 3
    else if LastIs(s, StopBlock) then 4
    else if s.h.stopEnqueued then 5
    else if s.h.stopStarted then 6
    else if s.o.pendingStop > 0 then 7
    else 8
  }

  function StartStage(x: Start): nat {
    match x case Queued => 2 case Starting => 1 case Started => 0
  }

  /** The steps still to be taken before the handle can be freed, at most. */
  function Ahead(s: State): nat {
    Stage(s) + StartStage(s.h.start) + Bit(s.o.construction) + Bit(!s.d.terminalDone) + Bit(s.running == InPost) +
    (if s.o.accepted > s.o.ran then 2 * (s.o.accepted - s.o.ran) else 0)
  }

  lemma BlockAdvances(s: State)
    requires Inv(s) && Enabled(s, RunBlock)
    ensures Ahead(Next(s, RunBlock)) < Ahead(s)
  {
    var posts := s.o.accepted - s.o.ran;
    if posts > 0 {
      assert s.queue[0] == PostBlock(s.o.ran + 0);
      assert |s.queue| > 1 ==> s.queue[1..][|s.queue| - 2] == s.queue[|s.queue| - 1];
    } else {
      assert s.queue[1..] == [];
    }
  }

  lemma StepAdvances(s: State, ev: Event)
    requires Inv(s) && Advances(s, ev)
    ensures Ahead(Next(s, ev)) < Ahead(s)
  {
    if ev.RunBlock? {
      BlockAdvances(s);
    }
  }

  /**
   Until then the protocol never gets stuck: some step that does not need the owner is possible
   and brings the end nearer.
   */
  lemma NeverStuck(es: seq<Event>, ss: seq<State>, n: nat)
    requires Run(es, ss) && n <= |es| && ss[n].o.held == 0 && ss[n].o.frees == 0
    ensures exists ev :: Advances(ss[n], ev) && Ahead(Next(ss[n], ev)) < Ahead(ss[n])
  {
    RunKeeps(es, ss, n);
    var s := ss[n];
    var ev :=
      if s.running != Idle then EndBlock
      else if s.queue != [] then RunBlock
      else if s.o.pendingStop > 0 then BeginImplicitStop
      else if s.o.pendingEnqueue > 0 then DispatchStop
      else if s.h.start == Queued then BeginStart
      else if s.h.start == Starting then EndStart
      else if s.o.construction then DropConstruction
      else GroupTerminal;
    assert Advances(s, ev);
    hide Inv, Advances;
    StepAdvances(s, ev);
  }

  /** And it cannot go on for ever either: such steps are bounded by what is ahead when the owner leaves. */
  lemma {:induction false} RundownEnds(es: seq<Event>, ss: seq<State>, n: nat, m: nat)
    requires Run(es, ss) && n <= m <= |es| && forall i :: n <= i < m ==> Advances(ss[i], es[i])
    ensures Ahead(ss[m]) + (m - n) <= Ahead(ss[n])
  {
    if n < m {
      RundownEnds(es, ss, n, m - 1);
      RunKeeps(es, ss, m - 1);
      hide Inv, Advances, Next, Ahead;
      StepAdvances(ss[m - 1], es[m - 1]);
    }
  }

  // ---------------------------------------------------------------- the handle itself

  /** The handle as the backend keeps it; each method is one critical section. */
  class ManagedHandle {
    var refs: int
    var stopStarted: bool
    var closed: bool
    var lifecycleOver: bool
    var stoppedDone: bool
    var start: Start
    var stopEnqueued: bool

    ghost function View(): Handle
      reads this
    {
      Handle(refs, stopStarted, closed, lifecycleOver, stoppedDone, start, stopEnqueued)
    }

    /** The owner's reference, and one that construction holds across the start. */
    constructor ()
      ensures View() == Created
    {
      refs, stopStarted, closed, lifecycleOver, stoppedDone := 1, false, false, false, false;
      start, stopEnqueued := Queued, false;
      new;
      RetainRef();
    }

    method RetainRef()
      modifies this
      ensures View() == Retained(old(View()))
    {
      refs := refs + 1;
    }

    method ReleaseRef() returns (duty: Duty)
      modifies this
      ensures View() == Released(old(View())) && duty == ReleaseDuty(old(View()))
    {
      if refs <= 0 {
        return Nothing;
      }
      refs := refs - 1;
      if refs == 0 {
        if !stopStarted {
          return ImplicitStop;
        } else if lifecycleOver {
          return FreeHandle;
        }
      }
      return Nothing;
    }

    method AcceptPost() returns (accepted: bool)
      modifies this
      ensures View() == Posted(old(View())) && accepted == !old(closed)
    {
      if closed {
        return false;
      }
      refs := refs + 1;
      return true;
    }

    method BeginStop() returns (first: bool, enqueueNow: bool)
      modifies this
      ensures View() == StopBegun(old(View())) && first == !old(stopStarted)
      ensures enqueueNow == Enqueues(old(View()), View())
    {
      if stopStarted {
        return false, false;
      }
      stopStarted := true;
      closed := true;
      enqueueNow := false;
      if start == Started && !stopEnqueued {
        stopEnqueued := true;
        enqueueNow := true;
      }
      return true, enqueueNow;
    }

    method BeginStarting()
      modifies this
      ensures View() == StartBegun(old(View()))
    {
      start := Starting;
    }

    method EndStarting() returns (enqueueStop: bool)
      modifies this
      ensures View() == StartEnded(old(View())) && enqueueStop == Enqueues(old(View()), View())
    {
      start := Started;
      enqueueStop := false;
      if stopStarted && !stopEnqueued {
        stopEnqueued := true;
        enqueueStop := true;
      }
    }

    method Finish() returns (freeHandle: bool)
      modifies this
      ensures View() == Finished(old(View())) && freeHandle == (refs == 0)
    {
      stoppedDone := true;
      lifecycleOver := true;
      freeHandle := refs == 0;
    }
  }
}
