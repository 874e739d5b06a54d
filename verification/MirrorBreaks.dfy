/**
 Where the mirror breaks: a stream opened, in a session without a budget, from inside the callback
 that reports a peer's reset, after the application ended the send side there. The engine gives
 away the slot at once, the old handle still names it, and its unlink severs the new stream.
 What follows holds over all runs, whatever else the application does.
 */
module MirrorBreaks {
  import opened StreamMirror
  import opened MirrorRuns
  import opened EventOrder

  /** Stream `h` sits in the slot of the stream whose reset is being reported and whose handle lives. */
  predicate Astray(s: State, h: nat) {
    s.stack != [] && s.stack[0].ResetReturn? && s.stack[0].h != h && Sits(s, s.stack[0].h, h, s.stack[0].e)
  }

  predicate Sits(s: State, g: nat, h: nat, e: nat) {
    g < |s.api| && h < |s.api| && e < |s.eng| && s.eng[e].user == h && s.api[h].alive && s.api[h].es == e &&
    s.api[g].alive && s.api[g].es == e && s.api[g].flags == Flags(false, false, true)
  }

  /** A live handle whose slot leads elsewhere. */
  predicate Orphaned(s: State, h: nat) {
    h < |s.api| && s.api[h].alive && s.api[h].es < |s.eng| && s.eng[s.api[h].es].user != h
  }

  /** As long as it lives in a living session, occupancy `o` of handle `h` is astray or already orphaned. */
  predicate Doomed(s: State, h: nat, o: nat) {
    o < s.m.nextOcc && h < |s.api| &&
    (s.api[h].alive && s.api[h].occ == o && !s.m.terminalFired ==> Astray(s, h) || Orphaned(s, h))
  }

  // ---------------------------------------------------------------- the return from the reset callback

  /**
   When the reset callback returns, the handle whose slot it is about loses that slot if and only
   if it is not the handle that returns, and that one is still alive.
   */
  lemma SeveredIff(s: State)
    requires !s.inApp && |s.stack| == 1 && s.stack[0].ResetReturn? && s.stack[0].e < |s.eng|
    requires var v := s.eng[s.stack[0].e]; v.kind == Wt && v.user >= 0 && (Inv(s) || Astray(s, v.user))
    ensures Enabled(s, Resume)
    ensures var g, u := s.stack[0].h, s.eng[s.stack[0].e].user;
      g < |s.api| && u < |s.api| && u < |Next(s, Resume).api| &&
      (Orphaned(Next(s, Resume), u) <==> s.api[g].alive && g != u)
  {
    var g, e, gen := s.stack[0].h, s.stack[0].e, s.stack[0].gen;
    var u := s.eng[e].user;
    if Inv(s) {
      assert FrameOk(s, s.stack[0]) && HandleOk(s, g) && SlotOk(s, e);
      assert EndingOk(s);
      assert s.m.terminalFired && s.api[g].alive ==> TornLater(s, g);
    }
    hide Inv, HandleOk, FrameOk, SlotOk, EndingOk;
    assert s.stack[..0] == [];
    assert Next(s, Resume) == CloseRecv(s.(stack := []), g, EngineDone(e, gen, false));
  }

  // ---------------------------------------------------------------- no way back

  /** The other handle keeps the slot shared, unless it is closed, or the session is. */
  predicate Shared(s: State, t: State, g: nat) {
    g < |s.api| == |t.api| && s.stack != [] &&
    (t.m.terminalFired || !t.api[g].alive || (t.stack != [] && t.stack[0] == s.stack[0] && t.api[g].flags == s.api[g].flags))
  }

  lemma ResumeShares(s: State, h: nat)
    requires ShapeOk(s) && Astray(s, h) && Enabled(s, Resume)
    ensures Shared(s, Next(s, Resume), s.stack[0].h)
  {
    var n := |s.stack| - 1;
    assert FrameFits(s.stack, n);
    hide ShapeOk, FrameFits;
    assert n > 0 ==> s.stack[..n][0] == s.stack[0];
  }

  lemma SendShares(s: State, h: nat, k: nat, fin: bool, ok: bool)
    requires Astray(s, h) && Enabled(s, Send(k, fin, ok))
    ensures Shared(s, AfterSend(s, k, fin, ok), s.stack[0].h)
  {
  }

  lemma ShutdownShares(s: State, h: nat, k: nat, send: bool, recv: bool, whole: bool, answer: Answer)
    requires EndOk(s) && Astray(s, h) && Enabled(s, Shutdown(k, send, recv, whole, answer))
    ensures Shared(s, AfterShutdown(s, k, send, recv, whole, answer), s.stack[0].h)
  {
    hide TornLater, EngineClose, EngineShutdown;
  }

  lemma AstrayShares(s: State, ev: Event, h: nat)
    requires ShapeOk(s) && EndOk(s) && Astray(s, h) && Enabled(s, ev) && !MovesSlots(ev)
    ensures Shared(s, Next(s, ev), s.stack[0].h)
  {
    match ev
    case Resume => ResumeShares(s, h);
    case Send(k, fin, ok) =>
      SendShares(s, h, k, fin, ok);
      hide AfterSend, ShapeOk, EndOk;
    case Shutdown(k, send, recv, whole, answer) =>
      ShutdownShares(s, h, k, send, recv, whole, answer);
      hide AfterShutdown, ShapeOk, EndOk;
    case _ =>
      hide AfterSend, AfterShutdown, Resumed, ShapeOk, TornLater, EngineClose;
  }

  /** A slot that changes hands does not come back to a handle that is alive. */
  lemma MoveKeepsDoom(s: State, ev: Event, h: nat, o: nat)
    requires RefsOk(s) && Doomed(s, h, o) && Enabled(s, ev) && MovesSlots(ev)
    ensures Doomed(Next(s, ev), h, o)
  {
    hide Weights;
  }

  lemma StepKeepsDoom(s: State, t: State, h: nat, o: nat)
    requires Doomed(s, h, o) && Framed(s, t) && (Astray(s, h) ==> Shared(s, t, s.stack[0].h))
    ensures Doomed(t, h, o)
  {
    if h < |s.api| {
      assert SameHandle(s.api[h], t.api[h]);
    }
    if Astray(s, h) {
      assert SameHandle(s.api[s.stack[0].h], t.api[s.stack[0].h]);
    }
  }

  lemma DoomedStays(s: State, ev: Event, h: nat, o: nat)
    requires Order(s) && Doomed(s, h, o) && Enabled(s, ev)
    ensures Doomed(Next(s, ev), h, o)
  {
    hide RefsOk, ShapeOk, EndOk, OccOk, UsersOk, LastOk, TerminalsOk, Doomed, Enabled, Next, Shared, Framed, Astray;
    if MovesSlots(ev) {
      MoveKeepsDoom(s, ev, h, o);
    } else {
      NextFrame(s, ev);
      if Astray(s, h) {
        AstrayShares(s, ev, h);
      }
      StepKeepsDoom(s, Next(s, ev), h, o);
    }
  }

  lemma {:induction false} DoomedRun(es: seq<Event>, ss: seq<State>, n: nat, m: nat, h: nat, o: nat)
    requires Run(es, ss) && n <= m <= |es| && Doomed(ss[n], h, o)
    ensures Doomed(ss[m], h, o)
  {
    hide Order, Doomed, Next, Enabled, Init;
    if m > n {
      DoomedRun(es, ss, n, m - 1, h, o);
      RunOrdered(es, ss, m - 1);
      DoomedStays(ss[m - 1], es[m - 1], h, o);
    }
  }

  /** The open itself. */
  lemma PerilousIsAstray(s: State, bidi: bool, e: nat, h: nat)
    requires Inv(s) && Enabled(s, Open(bidi, e, h)) && TakesEffect(s) && Perilous(s, e)
    ensures Doomed(Next(s, Open(bidi, e, h)), h, s.m.nextOcc)
  {
    OpenIsCleanIff(s, bidi, e, h);
    assert HandleOk(s, s.stack[0].h);
  }

  lemma PrefixRuns(es: seq<Event>, ss: seq<State>, n: nat)
    requires Run(es, ss) && n <= |es| && forall i :: 0 <= i < n ==> Guarded(ss[i], es[i])
    ensures Inv(ss[n])
  {
    var fs, ts := es[..n], ss[..n + 1];
    assert Run(fs, ts) && Careful(fs, ts);
    hide Run, Inv, Guarded, Careful;
    RunKeeps(fs, ts, n);
  }

  /** The stream that open `n` of the run brought is still open at position `m`. */
  predicate Survives(es: seq<Event>, ss: seq<State>, n: nat, m: nat)
    requires |ss| == |es| + 1
  {
    n < m <= |es| && es[n].Open? && es[n].h < |ss[m].api| &&
    ss[m].api[es[n].h].alive && ss[m].api[es[n].h].occ == ss[n].m.nextOcc
  }

  /**
   A stream opened in peril is never mirrored again: wherever later in the run no callback is on
   the stack, its slot leads elsewhere, if the stream is not closed by then.
   */
  lemma PerilousOpenOrphans(es: seq<Event>, ss: seq<State>, n: nat, m: nat)
    requires Run(es, ss) && Survives(es, ss, n, m) && TakesEffect(ss[n]) && ss[m].stack == []
    requires forall i :: 0 <= i < n ==> Guarded(ss[i], es[i])
    requires Perilous(ss[n], es[n].e)
    ensures Orphaned(ss[m], es[n].h) && !Mirrored(ss[m], es[n].h)
  {
    PrefixRuns(es, ss, n);
    PerilousIsAstray(ss[n], es[n].bidi, es[n].e, es[n].h);
    hide Inv, Perilous;
    assert ss[n + 1] == Next(ss[n], es[n]);
    DoomedRun(es, ss, n + 1, m, es[n].h, ss[n].m.nextOcc);
    RunOrdered(es, ss, m);
    assert EndOk(ss[m]);
    assert ss[m].m.terminalFired ==> TornLater(ss[m], es[n].h);
  }

  /**
   The condition is exact: if all other opens are guarded, a stream that survives until no
   callback is on the stack is mirrored there if and only if its open was not perilous.
   */
  lemma OpenFateIff(es: seq<Event>, ss: seq<State>, n: nat, m: nat)
    requires Run(es, ss) && Survives(es, ss, n, m) && TakesEffect(ss[n]) && ss[m].stack == []
    requires forall i :: 0 <= i < m && i != n ==> Guarded(ss[i], es[i])
    ensures Mirrored(ss[m], es[n].h) <==> !Perilous(ss[n], es[n].e)
  {
    if Perilous(ss[n], es[n].e) {
      PerilousOpenOrphans(es, ss, n, m);
    } else {
      PrefixRuns(es, ss, m);
      hide Inv, Run, Settled;
      EmptyStackSettles(ss[m]);
      assert Settled(ss[m]);
    }
  }

  // ---------------------------------------------------------------- a run in which it happens

  /** One engine slot and two handles of an established session without a budget. */
  function Small(v: ESlot, a: ASlot, b: ASlot, gen: nat, occ: nat, stack: seq<Frame>, inApp: bool, log: seq<Seen>): State {
    State([v], [a, b], Meta(Active, false, false, false, 0, gen, occ, false, false), stack, inApp, log)
  }

  const PeerSide := ASlot(1, 0, true, Flags(true, false, true), false, false, true, 0, 0)
  const PeerSlot := FreshWt(1, false, true, 0, false)
  const NewSide := ASlot(1, 0, true, Flags(true, false, false), false, true, false, 0, 1)
  const NewSlot := FreshWt(2, true, false, 1, false)
  const Seen2 := [Established, StreamOpened(0)]
  const Seen3 := [Established, StreamOpened(0), StreamReset(0)]
  const Seen4 := [Established, StreamOpened(0), StreamReset(0), StreamClosed(0)]
  const Empty := ESlot(Other, 1, Shut, false, false, false, false, false, -1, false)
  const Held := PeerSide.(refs := 2)
  const Half := Held.(flags := Flags(false, false, true))
  const Gone := Held.(flags := Shut, alive := false)
  const Parting := [EngineDone(0, 1, false), DropHold(0), ClosedReturn(0)]

  const OrphanEvents: seq<Event> := [
    Establish, AppReturn, Resume, PeerAlloc(0), PeerStream(0, true, 0), AppReturn, Resume, PeerReset(0),
    Shutdown(0, true, false, false, Ok), Open(false, 0, 1), AppReturn, Resume, AppReturn, Resume, Resume, Resume]

  const OrphanStates: seq<State> := [
    Init(1, 2, false),
    Small(EmptyEngine, EmptyHandle, EmptyHandle, 0, 0, [Plain], true, [Established]),
    Small(EmptyEngine, EmptyHandle, EmptyHandle, 0, 0, [Plain], false, [Established]),
    Small(EmptyEngine, EmptyHandle, EmptyHandle, 0, 0, [], true, [Established]),
    Small(Empty, EmptyHandle, EmptyHandle, 1, 0, [], true, [Established]),
    Small(PeerSlot, PeerSide, EmptyHandle, 1, 1, [Plain], true, Seen2),
    Small(PeerSlot, PeerSide, EmptyHandle, 1, 1, [Plain], false, Seen2),
    Small(PeerSlot, PeerSide, EmptyHandle, 1, 1, [], true, Seen2),
    Small(PeerSlot.(flags := Flags(true, false, false)), Held, EmptyHandle, 1, 1, [ResetReturn(0, 0, 1)], true, Seen3),
    Small(PeerSlot.(flags := Shut, kind := Free), Half, EmptyHandle, 1, 1, [ResetReturn(0, 0, 1)], true, Seen3),
    Small(NewSlot, Half, NewSide, 2, 2, [ResetReturn(0, 0, 1)], true, Seen3),
    Small(NewSlot, Half, NewSide, 2, 2, [ResetReturn(0, 0, 1)], false, Seen3),
    Small(NewSlot.(user := -1), Gone, NewSide, 2, 2, Parting, true, Seen4),
    Small(NewSlot.(user := -1), Gone, NewSide, 2, 2, Parting, false, Seen4),
    Small(NewSlot.(user := -1), Gone.(refs := 1), NewSide, 2, 2, Parting[..2], false, Seen4),
    Small(NewSlot.(user := -1), Gone.(refs := 0), NewSide, 2, 2, Parting[..1], false, Seen4),
    Small(NewSlot.(user := -1), Gone.(refs := 0), NewSide, 2, 2, [], true, Seen4)]

  /** Step `i` of that run. */
  ghost predicate Follows(i: nat)
    requires i < 16
  {
    Enabled(OrphanStates[i], OrphanEvents[i]) && OrphanStates[i + 1] == Next(OrphanStates[i], OrphanEvents[i])
  }

  lemma OrphanStarts()
    ensures Follows(0) && Follows(1)
  {
    assert Init(1, 2, false).eng == [EmptyEngine] && Init(1, 2, false).api == [EmptyHandle, EmptyHandle];
    hide Init;
  }

  lemma OrphanAllocates()
    ensures Follows(2) && Follows(3)
  {
  }

  lemma OrphanOpens()
    ensures Follows(4)
  {
    var s := OrphanStates[4];
    assert s == Small(Empty, EmptyHandle, EmptyHandle, 1, 0, [], true, [Established]);
    assert Next(s, PeerStream(0, true, 0)).api == [PeerSide, EmptyHandle];
    assert Next(s, PeerStream(0, true, 0)).eng == [PeerSlot];
  }

  lemma OrphanRests()
    ensures Follows(5) && Follows(6)
  {
  }

  lemma OrphanResets()
    ensures Follows(7)
  {
  }

  lemma OrphanIsCareless()
    ensures !Careful(OrphanEvents, OrphanStates)
  {
    assert !Guarded(OrphanStates[9], OrphanEvents[9]);
  }

  lemma OrphanReopens()
    ensures Follows(8) && Follows(9) && Follows(10)
  {
  }

  lemma OrphanLoses()
    ensures Follows(11) && Follows(12)
  {
  }

  lemma OrphanReturns()
    ensures Follows(13) && Follows(14) && Follows(15)
  {
  }

  /** A complete run, without a budget, after which a live handle has lost its stream. */
  lemma MirrorCanBreak()
    ensures Run(OrphanEvents, OrphanStates) && !Careful(OrphanEvents, OrphanStates)
    ensures OrphanStates[16].stack == [] && OrphanStates[16].api[1].alive && !Mirrored(OrphanStates[16], 1)
  {
    OrphanStarts();
    OrphanAllocates();
    OrphanOpens();
    OrphanRests();
    OrphanResets();
    OrphanReopens();
    OrphanLoses();
    OrphanReturns();
    hide Next, Enabled, Careful;
    forall i | 0 <= i < 16 ensures Follows(i) {
    }
    OrphanIsCareless();
  }
}
