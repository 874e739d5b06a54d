/**
 What holds over whole connections: the API mirrors the engine whenever no callback is running,
 a slot is never left in between, and an event about an old stream cannot touch the next
 occupant of its slot.
 */
module MirrorRuns {
  import opened StreamMirror

  // ---------------------------------------------------------------- what a step leaves alone

  /** The same occupancy of a handle, which may end. */
  predicate SameHandle(a: ASlot, b: ASlot) {
    b.es == a.es && b.occ == a.occ && (b.alive ==> a.alive)
  }

  /** The same occupant of a slot, which may leave or lose its handle. */
  predicate SameSlot(v: ESlot, w: ESlot) {
    w.resident == v.resident && w.gen == v.gen && (w.kind == v.kind || w.kind == Free) && (w.user == v.user || w.user == -1)
  }

  predicate SameHandles(s: State, t: State) {
    |t.api| == |s.api| && forall h :: 0 <= h < |s.api| ==> SameHandle(s.api[h], t.api[h])
  }

  predicate SameSlots(s: State, t: State) {
    |t.eng| == |s.eng| && forall e :: 0 <= e < |s.eng| ==> SameSlot(s.eng[e], t.eng[e])
  }

  /** A handle that ends is cut off from its slot. */
  predicate Severed(s: State, t: State)
    requires |t.api| == |s.api| && |t.eng| == |s.eng|
  {
    forall h :: 0 <= h < |s.api| && s.api[h].alive && !t.api[h].alive ==>
      s.api[h].es < |s.eng| && t.eng[s.api[h].es].user == -1
  }

  predicate Framed(s: State, t: State) {
    SameHandles(s, t) && SameSlots(s, t) && Severed(s, t) && t.m.budgeted == s.m.budgeted && t.m.nextGen == s.m.nextGen &&
    t.m.nextOcc == s.m.nextOcc && (s.m.terminalFired ==> t.m.terminalFired)
  }

  lemma PutFrame(s: State, e: nat, v: ESlot)
    requires e < |s.eng| && SameSlot(s.eng[e], v)
    ensures Framed(s, Put(s, e, v))
  {
  }

  lemma HandleFrame(s: State, h: nat, b: ASlot)
    requires h < |s.api| && SameHandle(s.api[h], b) && b.alive == s.api[h].alive
    ensures Framed(s, Handle(s, h, b))
  {
  }

  lemma UnlinkFrame(s: State, h: nat)
    requires h < |s.api| && s.api[h].es < |s.eng|
    ensures Framed(s, Unlink(s, h))
  {
    var t := Unlink(s, h);
    assert forall g :: 0 <= g < |s.api| && g != h ==> t.api[g] == s.api[g];
  }

  lemma Chain(s: State, t: State, u: State)
    requires Framed(s, t) && Framed(t, u)
    ensures Framed(s, u)
  {
  }

  /** Slot and handle, the two halves of most steps. */
  lemma BothFrame(s: State, h: nat, b: ASlot, e: nat, v: ESlot)
    requires h < |s.api| && SameHandle(s.api[h], b) && b.alive == s.api[h].alive && e < |s.eng| && SameSlot(s.eng[e], v)
    ensures Framed(s, Put(Handle(s, h, b), e, v))
  {
    HandleFrame(s, h, b);
    PutFrame(Handle(s, h, b), e, v);
    hide Framed;
    Chain(s, Handle(s, h, b), Put(Handle(s, h, b), e, v));
  }

  lemma TerminalFrame(s: State, h: nat, frames: seq<Frame>)
    requires h < |s.api| && s.api[h].es < |s.eng|
    ensures Framed(s, Terminal(s, h, frames))
  {
    UnlinkFrame(s, h);
  }

  lemma CloseRecvFrame(s: State, h: nat, tail: Frame)
    requires h < |s.api| && s.api[h].es < |s.eng|
    requires (tail.EngineFin? || tail.EngineDone?) && tail.e < |s.eng|
    ensures Framed(s, CloseRecv(s, h, tail))
  {
    var a := s.api[h];
    var t := if a.alive then Handle(s, h, a.(flags := a.flags.(recv := false))) else s;
    HandleFrame(s, h, t.api[h]);
    var r := CloseRecv(s, h, tail);
    assert a.alive || t.api == s.api[h := t.api[h]];
    assert Framed(s, t);
    if Finished(t.api[h]) {
      TerminalFrame(t, h, [tail, DropHold(h)]);
    } else {
      var d := Drop(t, h);
      HandleFrame(t, h, d.api[h]);
      if tail.EngineFin? {
        FinFrame(d, tail.e, tail.gen);
      } else {
        DoneFrame(d, tail.e, tail.gen, tail.checked);
      }
      hide Framed, Drop, FinishFin, FinishDone, Finished, Handle;
      Chain(t, d, if tail.EngineFin? then FinishFin(d, tail.e, tail.gen) else FinishDone(d, tail.e, tail.gen, tail.checked));
      DoneIsFramed(t, if tail.EngineFin? then FinishFin(d, tail.e, tail.gen) else FinishDone(d, tail.e, tail.gen, tail.checked));
    }
    hide Framed;
    Chain(s, t, r);
  }

  lemma DoneIsFramed(s: State, t: State)
    requires Framed(s, t)
    ensures Framed(s, Done(t))
  {
  }

  lemma FinFrame(s: State, e: nat, gen: nat)
    requires e < |s.eng|
    ensures Framed(s, FinishFin(s, e, gen))
  {
    var v := s.eng[e];
    PutFrame(s, e, ReleaseIfDone(v.(flags := v.flags.(recv := false), drain := false)));
  }

  lemma DoneFrame(s: State, e: nat, gen: nat, checked: bool)
    requires e < |s.eng|
    ensures Framed(s, FinishDone(s, e, gen, checked))
  {
    PutFrame(s, e, ReleaseIfDone(s.eng[e]));
  }

  lemma DropFrame(s: State, h: nat)
    requires h < |s.api|
    ensures Framed(s, Drop(s, h)) && Framed(s, Done(Drop(s, h)))
  {
    HandleFrame(s, h, s.api[h].(refs := s.api[h].refs - 1));
  }

  lemma StopReturnFrame(s: State, f: Frame)
    requires InRange(s, f) && f.StopReturn?
    ensures Framed(s, Resumed(s, f))
  {
    var h := f.h;
    if s.api[h].commit && Finished(s.api[h]) {
      TerminalFrame(s, h, (if f.commit then [EngineDone(f.e, f.gen, true)] else []) + [DropHold(h)]);
    } else {
      var d := Drop(s, h);
      DropFrame(s, h);
      DoneFrame(d, f.e, f.gen, true);
      hide Framed, FinishDone, Drop;
      Chain(s, d, FinishDone(d, f.e, f.gen, true));
      DoneIsFramed(s, FinishDone(d, f.e, f.gen, true));
    }
  }

  lemma TeardownFrame(s: State, i: nat)
    requires InRange(s, Teardown(i))
    ensures Framed(s, Resumed(s, Teardown(i)))
  {
    if i < |s.api| && s.api[i].refs > 0 && s.api[i].alive {
      var t := s.(stack := s.stack + [Teardown(i + 1)], inApp := false);
      var a := s.api[i].(flags := Shut);
      HandleFrame(s, i, a);
      TerminalFrame(Handle(t, i, a), i, []);
      assert Framed(s, Handle(t, i, a));
      hide Framed, Handle;
      Chain(s, Handle(t, i, a), Terminal(Handle(t, i, a), i, []));
    }
  }

  lemma ResumedFrame(s: State, f: Frame)
    requires InRange(s, f)
    ensures Framed(s, Resumed(s, f))
  {
    hide CloseRecv, Terminal, FinishFin, FinishDone, Drop, Finished;
    match f
    case DataReturn(h, e, gen, fin) =>
      CloseRecvFrame(s, h, EngineFin(e, gen));
      DropFrame(s, h);
    case ResetReturn(h, e, gen) => CloseRecvFrame(s, h, EngineDone(e, gen, false));
    case StopReturn(h, e, gen, commit) => StopReturnFrame(s, f);
    case ClosedReturn(h) => DropFrame(s, h);
    case DropHold(h) => DropFrame(s, h);
    case EngineFin(e, gen) => FinFrame(s, e, gen);
    case EngineDone(e, gen, checked) => DoneFrame(s, e, gen, checked);
    case EngineRelease(e, _) => PutFrame(s, e, s.eng[e].(kind := Free));
    case Teardown(i) => TeardownFrame(s, i);
    case _ =>
  }

  lemma FinishFrame(s: State, h: nat)
    requires h < |s.api| && s.api[h].es < |s.eng|
    ensures Framed(s, FinishCall(s, h))
  {
    if Finished(s.api[h]) {
      var t := Handle(s, h, s.api[h].(refs := s.api[h].refs + 1));
      HandleFrame(s, h, t.api[h]);
      TerminalFrame(t, h, [DropHold(h)]);
      hide Framed, Terminal;
      Chain(s, t, FinishCall(s, h));
    }
  }

  /** The events that move a stream into a slot, or let the slot go. */
  predicate MovesSlots(ev: Event) {
    ev.Open? || ev.OpenUnheld? || ev.PeerAlloc? || ev.PeerStream? || ev.PeerUnheld? || ev.Retire?
  }

  lemma EndFrame(s: State, h: nat, b: ASlot, w: ESlot)
    requires Known(s, h) && SameHandle(s.api[h], b) && b.alive == s.api[h].alive && SameSlot(s.eng[b.es], w)
    ensures Framed(s, FinishCall(Put(Handle(s, h, b), b.es, w), h))
  {
    var t := Put(Handle(s, h, b), b.es, w);
    BothFrame(s, h, b, b.es, w);
    FinishFrame(t, h);
    hide FinishCall, Framed;
    Chain(s, t, FinishCall(t, h));
  }

  lemma SendFrame(s: State, h: nat, fin: bool, ok: bool)
    requires Known(s, h)
    ensures Framed(s, AfterSend(s, h, fin, ok))
  {
    var a := s.api[h];
    var v := s.eng[a.es];
    var b := a.(flags := a.flags.(send := false, fin := a.commit));
    var w := ReleaseIfDone(v.(sent := true, flags := v.flags.(send := false, fin := v.commit)));
    PutFrame(s, a.es, v.(sent := true));
    SelfFrame(s);
    hide FinishCall, Framed;
    EndFrame(s, h, b, w);
  }

  lemma SelfFrame(s: State)
    ensures Framed(s, s)
  {
  }

  lemma EndSessionFrame(s: State, rawFails: bool)
    ensures Framed(s, EndSession(s, rawFails))
  {
    var t := EndSession(s, rawFails);
    forall e | 0 <= e < |s.eng| ensures SameSlot(s.eng[e], t.eng[e]) {
      assert t.eng[e] == EngineClose(s.eng[e]);
    }
  }

  lemma LoseFrame(s: State)
    ensures Framed(s, LoseConnection(s))
  {
    SelfFrame(s);
    if !s.m.connClosed && s.m.phase == Active {
      var t := s.(m := s.m.(connClosed := true));
      EndSessionFrame(t, false);
      assert Framed(s, t);
      hide Framed, EndSession;
      Chain(s, t, EndSession(t, false));
    }
  }

  lemma FatalFrame(s: State, h: nat)
    requires Known(s, h)
    ensures var held := Handle(s, h, s.api[h].(refs := s.api[h].refs + 1));
      Framed(s, LoseConnection(held.(stack := held.stack + [DropHold(h)], inApp := false)))
  {
    var held := Handle(s, h, s.api[h].(refs := s.api[h].refs + 1));
    var t := held.(stack := held.stack + [DropHold(h)], inApp := false);
    HandleFrame(s, h, held.api[h]);
    assert Framed(s, t);
    hide Framed, LoseConnection;
    LoseFrame(t);
    Chain(s, t, LoseConnection(t));
  }

  lemma ShutdownFrame(s: State, h: nat, send: bool, recv: bool, whole: bool, answer: Answer)
    requires Known(s, h)
    ensures Framed(s, AfterShutdown(s, h, send, recv, whole, answer))
  {
    var a := s.api[h];
    var v := s.eng[a.es];
    SelfFrame(s);
    if answer == Fatal {
      FatalFrame(s, h);
      hide Framed, LoseConnection;
    } else {
      var abortSend := if whole then v.flags.send || v.flags.fin else send;
      var abortRecv := if whole then v.flags.recv else recv;
      var b := a.(flags := if whole then Shut else ShutSides(a.flags, send, recv));
      var w := EngineShutdown(v, abortSend, abortRecv);
      assert SameSlot(v, w);
      hide FinishCall, Framed, EngineShutdown, Put, Handle;
      EndFrame(s, h, b, w);
    }
  }

  lemma EnableFrame(s: State, h: nat)
    requires Enabled(s, EnableCommit(h))
    ensures Framed(s, Next(s, EnableCommit(h)))
  {
    var a := s.api[h];
    SelfFrame(s);
    BothFrame(s, h, a.(commit := true), a.es, s.eng[a.es].(commit := true));
    hide Framed;
  }

  lemma CallFrame(s: State, t: State, seen: Seen, frames: seq<Frame>)
    requires Framed(s, t)
    ensures Framed(s, Call(t, seen, frames))
  {
  }

  lemma CommitFrame(s: State, e: nat, gen: nat)
    requires OnWt(s, e) && s.eng[e].user >= 0
    requires var a := s.api[s.eng[e].user]; a.alive && a.commit && a.flags.fin
    ensures Framed(s, AfterSendOver(s, e, gen, true))
  {
    var v := s.eng[e];
    var h := v.user;
    var a := s.api[h];
    var v' := v.(flags := ShutSides(v.flags, true, false));
    var t := Put(s, e, v');
    PutFrame(s, e, v');
    var b := a.(refs := a.refs + 1, flags := ShutSides(a.flags, true, false));
    var held := Handle(t, h, b);
    HandleFrame(t, h, b);
    UnlinkFrame(held, h);
    var u := Unlink(held, h);
    assert Framed(held, u);
    var w := u.(m := s.m.(commitDepth := s.m.commitDepth + 1));
    assert AfterSendOver(s, e, gen, true) == Call(w, StreamCommitted(a.occ), [CommitReturn(h, e, gen)]);
    assert Framed(held, w);
    hide Framed, AfterSendOver, Put, Handle, Unlink, Call;
    Chain(s, t, held);
    Chain(s, held, w);
    CallFrame(s, w, StreamCommitted(a.occ), [CommitReturn(h, e, gen)]);
  }

  lemma AbandonFrame(s: State, e: nat, gen: nat)
    requires OnWt(s, e) && s.eng[e].user >= 0 && s.api[s.eng[e].user].alive
    ensures Framed(s, AfterSendOver(s, e, gen, false))
  {
    var v := s.eng[e];
    var h := v.user;
    var v' := v.(flags := ShutSides(v.flags, true, false));
    var t := Put(s, e, v');
    PutFrame(s, e, v');
    var b := s.api[h].(refs := s.api[h].refs + 1, flags := Shut);
    var held := Handle(t, h, b);
    HandleFrame(t, h, b);
    TerminalFrame(held, h, [EngineDone(e, gen, true), DropHold(h)]);
    assert AfterSendOver(s, e, gen, false) == Terminal(held, h, [EngineDone(e, gen, true), DropHold(h)]);
    hide Framed, Terminal, AfterSendOver, Put, Handle;
    Chain(s, t, held);
    Chain(s, held, Terminal(held, h, [EngineDone(e, gen, true), DropHold(h)]));
  }

  lemma SendOverFrame(s: State, e: nat, gen: nat, graceful: bool)
    requires OnWt(s, e)
    ensures Framed(s, AfterSendOver(s, e, gen, graceful))
  {
    var v := s.eng[e];
    if v.user >= 0 && s.api[v.user].alive && !graceful {
      AbandonFrame(s, e, gen);
    } else if v.user >= 0 && s.api[v.user].alive && s.api[v.user].commit && s.api[v.user].flags.fin {
      CommitFrame(s, e, gen);
    } else {
      PutFrame(s, e, ReleaseIfDone(v.(flags := ShutSides(v.flags, true, false))));
    }
  }

  lemma GoneFrame(s: State, e: nat)
    requires OnWt(s, e)
    ensures Framed(s, AfterGone(s, e))
  {
    var v := s.eng[e];
    var v' := v.(flags := Shut, drain := false);
    PutFrame(s, e, v'.(kind := Free));
    if AnyOpen(v.flags) && v.user >= 0 && s.api[v.user].alive {
      var h := v.user;
      var a := s.api[h];
      var t := Put(s, e, v');
      PutFrame(s, e, v');
      var held := Handle(t, h, a.(refs := a.refs + 1, flags := Shut));
      HandleFrame(t, h, held.api[h]);
      TerminalFrame(held, h, [EngineRelease(e, v.gen), DropHold(h)]);
      hide Framed, Terminal;
      Chain(s, t, held);
      Chain(s, held, AfterGone(s, e));
    }
  }

  lemma DataFrame(s: State, e: nat, fin: bool)
    requires OnWt(s, e)
    ensures Framed(s, AfterData(s, e, fin))
  {
    var v := s.eng[e];
    SelfFrame(s);
    PutFrame(s, e, ReleaseIfDone(v.(drain := false)));
    FinFrame(s, e, v.gen);
    if v.user >= 0 {
      var a := s.api[v.user];
      HandleFrame(s, v.user, a.(refs := a.refs + 1));
    }
    hide FinishFin, ReleaseIfDone;
  }

  lemma ResetFrame(s: State, e: nat)
    requires OnWt(s, e)
    ensures Framed(s, AfterReset(s, e))
  {
    var v := s.eng[e];
    var w := v.(flags := v.flags.(recv := false));
    if v.drain {
      PutFrame(s, e, ReleaseIfDone(v.(drain := false)));
    } else if v.user < 0 {
      PutFrame(s, e, ReleaseIfDone(w));
    } else {
      var a := s.api[v.user];
      var t := Put(Handle(s, v.user, a.(refs := a.refs + 1)), e, w);
      hide Framed, ReleaseIfDone, Call, OnWt;
      BothFrame(s, v.user, a.(refs := a.refs + 1), e, w);
      CallFrame(s, t, StreamReset(a.occ), [ResetReturn(v.user, e, v.gen)]);
    }
  }

  lemma StopFrame(s: State, e: nat)
    requires OnWt(s, e)
    ensures Framed(s, AfterStop(s, e))
  {
    var v := s.eng[e];
    var w := if v.commit then v.(flags := ShutSides(v.flags, true, false)) else v;
    if v.user < 0 {
      PutFrame(s, e, if v.commit then ReleaseIfDone(w) else w);
    } else {
      var a := s.api[v.user];
      var b := a.(refs := a.refs + 1, flags := if a.commit then ShutSides(a.flags, true, false) else a.flags);
      var t := Put(Handle(s, v.user, b), e, w);
      hide Framed, ReleaseIfDone, Call, OnWt;
      BothFrame(s, v.user, b, e, w);
      CallFrame(s, t, StreamStop(a.occ), [StopReturn(v.user, e, v.gen, v.commit)]);
    }
  }

  lemma WritableFrame(s: State, e: nat)
    requires OnWt(s, e)
    ensures Framed(s, AfterWritable(s, e))
  {
    SelfFrame(s);
    var h := s.eng[e].user;
    if h >= 0 {
      HandleFrame(s, h, s.api[h].(refs := s.api[h].refs + 1));
    }
  }

  lemma TransportFrame(s: State, ev: Event)
    requires Enabled(s, ev) && FromTransport(ev)
    ensures Framed(s, Next(s, ev))
  {
    hide Framed, AfterData, AfterReset, AfterStop, AfterSendOver, AfterGone, AfterWritable;
    match ev
    case Data(e, fin) => DataFrame(s, e, fin);
    case PeerReset(e) => ResetFrame(s, e);
    case PeerStop(e) => StopFrame(s, e);
    case SendOver(e, gen, graceful) => SendOverFrame(s, e, gen, graceful);
    case StreamGone(e) => GoneFrame(s, e);
    case Writable(e) => WritableFrame(s, e);
    case _ => NoticeFrame(s, ev);
  }

  lemma NoticeFrame(s: State, ev: Event)
    requires Enabled(s, ev) && (ev.PeerDrain? || ev.PeerDatagram?)
    ensures Framed(s, Next(s, ev))
  {
  }

  /** Steps that change at most a count, a slot that is no stream's, or the session. */
  lemma SmallFrame(s: State, ev: Event)
    requires Enabled(s, ev) && (ev.AppReturn? || ev.AddRef? || ev.ReleaseRef? || ev.PeerFree? || ev.Establish? || ev.Refuse? || ev.Fail?)
    ensures Framed(s, Next(s, ev))
  {
    if ev.AddRef? || ev.ReleaseRef? {
      SelfFrame(s);
      HandleFrame(s, ev.h, Next(s, ev).api[ev.h]);
    }
  }

  lemma NextFrame(s: State, ev: Event)
    requires Enabled(s, ev) && !MovesSlots(ev)
    ensures Framed(s, Next(s, ev))
  {
    hide Framed, Resumed, AfterSend, AfterShutdown, LoseConnection, EndSession;
    if FromTransport(ev) {
      TransportFrame(s, ev);
    } else {
      match ev
      case Resume =>
        var n := |s.stack| - 1;
        PoppedFrame(s, n);
        ResumedFrame(s.(stack := s.stack[..n]), s.stack[n]);
        Chain(s, s.(stack := s.stack[..n]), Next(s, ev));
      case Send(h, fin, ok) => SendFrame(s, h, fin, ok);
      case Shutdown(h, send, recv, whole, answer) => ShutdownFrame(s, h, send, recv, whole, answer);
      case EnableCommit(h) => EnableFrame(s, h);
      case CloseSession(rawFails) =>
        SelfFrame(s);
        EndSessionFrame(s, rawFails);
      case PeerClose(rawFails) => EndSessionFrame(s, rawFails);
      case OpenFatal =>
        SelfFrame(s);
        LoseFrame(s);
      case Lost => LoseFrame(s);
      case _ => SmallFrame(s, ev);
    }
  }

  lemma PoppedFrame(s: State, n: nat)
    requires n <= |s.stack|
    ensures Framed(s, s.(stack := s.stack[..n]))
  {
  }

  // ---------------------------------------------------------------- budgeted sessions

  /** In a budgeted session a slot stays reserved for as long as anything in it or on it lives. */
  predicate Reserved(s: State) {
    s.m.budgeted ==>
      (forall e :: 0 <= e < |s.eng| && s.eng[e].kind != Free ==> s.eng[e].resident) &&
      (forall h :: 0 <= h < |s.api| && s.api[h].alive ==> s.api[h].es < |s.eng| && s.eng[s.api[h].es].resident)
  }

  lemma ReservedIsGuarded(s: State, ev: Event)
    requires Inv(s) && Reserved(s) && s.m.budgeted && Enabled(s, ev)
    ensures Guarded(s, ev)
  {
    if ev.Open? && TakesEffect(s) && Perilous(s, ev.e) {
      OpenIsCleanIff(s, ev.bidi, ev.e, ev.h);
    }
  }

  lemma ReservedKept(s: State, ev: Event)
    requires Inv(s) && Reserved(s) && Enabled(s, ev)
    ensures Reserved(Next(s, ev))
  {
    if !MovesSlots(ev) {
      hide Inv;
      NextFrame(s, ev);
      hide Next, Enabled;
      assert SameSlots(s, Next(s, ev));
    } else {
      MovedIsReserved(s, ev);
    }
  }

  lemma MovedIsReserved(s: State, ev: Event)
    requires Inv(s) && Reserved(s) && Enabled(s, ev) && MovesSlots(ev)
    ensures Reserved(Next(s, ev))
  {
    if ev.Retire? {
      RetiredIsFree(s, ev.e);
    }
    hide Inv;
  }

  lemma RetiredIsFree(s: State, e: nat)
    requires Inv(s) && s.stack == [] && e < |s.eng| && s.eng[e].kind == Free
    ensures forall h :: 0 <= h < |s.api| && s.api[h].alive ==> s.api[h].es != e
  {
    forall h | 0 <= h < |s.api| && s.api[h].alive ensures s.api[h].es != e {
      assert HandleOk(s, h);
      assert s.m.terminalFired ==> TornLater(s, h);
    }
  }

  // ---------------------------------------------------------------- whole runs

  lemma InitKeeps(engine: nat, handles: nat, budgeted: bool)
    ensures Inv(Init(engine, handles, budgeted)) && Reserved(Init(engine, handles, budgeted))
  {
    var s := Init(engine, handles, budgeted);
    forall h | 0 <= h < |s.api| ensures HandleOk(s, h) {
      assert s.api[h] == EmptyHandle;
    }
    forall e | 0 <= e < |s.eng| ensures SlotOk(s, e) {
      assert s.eng[e] == EmptyEngine;
    }
  }

  /** The session is budgeted, or no open ever takes the slot of the stream whose reset is being reported. */
  predicate Careful(es: seq<Event>, ss: seq<State>)
    requires |ss| == |es| + 1
  {
    ss[0].m.budgeted || forall i :: 0 <= i < |es| ==> Guarded(ss[i], es[i])
  }

  lemma {:induction false} RunKeeps(es: seq<Event>, ss: seq<State>, n: nat)
    requires Run(es, ss) && Careful(es, ss) && n <= |es|
    ensures Inv(ss[n]) && Reserved(ss[n]) && ss[n].m.budgeted == ss[0].m.budgeted
  {
    if n == 0 {
      InitKeeps(|ss[0].eng|, |ss[0].api|, ss[0].m.budgeted);
    } else {
      RunKeeps(es, ss, n - 1);
      hide Inv, Reserved;
      StepKeeps(ss[n - 1], es[n - 1]);
    }
  }

  lemma StepKeeps(s: State, ev: Event)
    requires Inv(s) && Reserved(s) && Enabled(s, ev) && (s.m.budgeted || Guarded(s, ev))
    ensures Inv(Next(s, ev)) && Reserved(Next(s, ev)) && Next(s, ev).m.budgeted == s.m.budgeted
  {
    if s.m.budgeted {
      ReservedIsGuarded(s, ev);
    }
    hide Inv, Reserved, Guarded;
    NextKeeps(s, ev);
    ReservedKept(s, ev);
    if !MovesSlots(ev) {
      NextFrame(s, ev);
      hide Next, Enabled;
    }
  }

  /** Everything the two layers promise each other between callbacks. */
  predicate Settled(s: State) {
    (forall h :: 0 <= h < |s.api| ==>
      s.api[h].refs == s.api[h].appRefs + (if s.api[h].alive then 1 else 0) &&
      (s.api[h].alive ==> Mirrored(s, h) && AnyOpen(s.api[h].flags) && s.m.phase == Active && !s.m.connClosed)) &&
    (forall e :: 0 <= e < |s.eng| && s.eng[e].kind == Wt ==>
      (AnyOpen(s.eng[e].flags) || s.eng[e].drain) && !(s.eng[e].flags.recv && s.eng[e].drain) &&
      (s.eng[e].user >= 0 ==> s.eng[e].user < |s.api| && s.api[s.eng[e].user].alive && s.api[s.eng[e].user].es == e))
  }

  lemma EmptyStackSettles(s: State)
    requires Inv(s) && s.stack == []
    ensures Settled(s)
  {
    if s.m.terminalFired {
      NobodyLives(s);
    }
    forall h | 0 <= h < |s.api|
      ensures s.api[h].refs == s.api[h].appRefs + (if s.api[h].alive then 1 else 0) &&
              (s.api[h].alive ==> Mirrored(s, h) && AnyOpen(s.api[h].flags) && s.m.phase == Active && !s.m.connClosed)
    {
      assert HandleOk(s, h);
    }
    forall e | 0 <= e < |s.eng| && s.eng[e].kind == Wt
      ensures (AnyOpen(s.eng[e].flags) || s.eng[e].drain) && !(s.eng[e].flags.recv && s.eng[e].drain) &&
              (s.eng[e].user >= 0 ==> s.eng[e].user < |s.api| && s.api[s.eng[e].user].alive && s.api[s.eng[e].user].es == e)
    {
      assert SlotOk(s, e);
    }
  }

  /**
   The mirror: in every run, whenever no callback is on the stack, each live handle and its
   engine slot point at each other and agree on every direction; each occupied slot has an
   open, finishing or draining side; and the references are the application's and the baseline.
   */
  lemma MirrorHolds(es: seq<Event>, ss: seq<State>, n: nat)
    requires Run(es, ss) && Careful(es, ss) && n <= |es| && ss[n].stack == []
    ensures Settled(ss[n])
  {
    RunKeeps(es, ss, n);
    hide Inv, Settled, Run;
    EmptyStackSettles(ss[n]);
  }

  /** The library can always finish what it began: no callback returns into a dangling index. */
  lemma NeverStuck(es: seq<Event>, ss: seq<State>, n: nat)
    requires Run(es, ss) && Careful(es, ss) && n <= |es| && ss[n].stack != []
    ensures Enabled(ss[n], if ss[n].inApp then AppReturn else Resume)
  {
    RunKeeps(es, ss, n);
    var s := ss[n];
    TopFacts(s);
    var f := s.stack[|s.stack| - 1];
    if f.Teardown? && f.next < |s.api| {
      assert HandleOk(s, f.next);
    }
  }

  // ---------------------------------------------------------------- slots and their occupants

  /** The slot keeps its occupant's number, or a newcomer with a higher one moves into a free slot. */
  predicate Aged(s: State, t: State, e: nat)
    requires e < |s.eng| && e < |t.eng|
  {
    t.eng[e].gen == s.eng[e].gen || (s.eng[e].kind == Free && t.eng[e].gen == t.m.nextGen && t.m.nextGen > s.eng[e].gen)
  }

  lemma GenerationsGrow(s: State, ev: Event, e: nat)
    requires Inv(s) && Enabled(s, ev) && e < |s.eng|
    ensures |Next(s, ev).eng| == |s.eng| && Aged(s, Next(s, ev), e)
    ensures s.eng[e].kind == Free && Next(s, ev).eng[e].kind != Free ==> Next(s, ev).eng[e].gen > s.eng[e].gen
  {
    if MovesSlots(ev) {
      assert SlotOk(s, e);
    } else {
      hide Inv;
      NextFrame(s, ev);
      hide Next, Enabled;
    }
  }

  lemma StaleKeepsSlots(s: State)
    requires Inv(s) && Enabled(s, Resume)
    requires var f := s.stack[|s.stack| - 1]; IsRoot(f) && s.eng[f.e].gen != f.gen
    ensures Next(s, Resume).eng == s.eng
  {
    TopFacts(s);
    var f := s.stack[0];
    assert s.stack[..0] == [];
    assert SlotOk(s, f.e);
    assert s.eng[f.e := s.eng[f.e]] == s.eng;
    hide Inv, HandleOk, EndingOk;
  }

  /**
   A callback that returns after its stream has left the slot changes no slot at all, whoever
   has moved in meanwhile; in every run with a budget or guarded opens.
   */
  lemma StaleReturnIsHarmless(es: seq<Event>, ss: seq<State>, n: nat)
    requires Run(es, ss) && Careful(es, ss) && n <= |es| && Enabled(ss[n], Resume)
    requires var f := ss[n].stack[|ss[n].stack| - 1]; IsRoot(f) && f.e < |ss[n].eng| && ss[n].eng[f.e].gen != f.gen
    ensures Next(ss[n], Resume).eng == ss[n].eng
  {
    RunKeeps(es, ss, n);
    hide Inv, Run, Careful, Next;
    StaleKeepsSlots(ss[n]);
  }
}
