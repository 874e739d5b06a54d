/**
 The session as it is kept: the two slot arrays and the fields around them. What the library
 has been interrupted in is its C stack, which is ghost here. Each call and each return from a
 callback changes the arrays in place, and does to them what one step of the lifecycle machine
 says.
 */
module SessionCalls {
  import opened StreamMirror
  import opened SlotPools
  import opened StreamEffects

  /** What an open is answered, with the slots it found. */
  datatype Opened = Opened(e: nat, h: nat) | NoHandle(e: nat) | Blocked | Refused

  predicate Available(s: State, e: nat) {
    e < |s.eng| && s.eng[e].kind == Free && !s.eng[e].resident
  }

  /** A handle slot that a stream of this kind may take. */
  predicate Usable(s: State, h: nat, local: bool) {
    h < |s.api| && s.api[h].refs == 0 && (s.m.budgeted && local ==> Available(s, h))
  }

  /** What the return of a reference and the admission of a peer's stream change. */
  lemma ReferenceReturned(s: State, h: nat)
    requires Enabled(s, Resume) && (s.stack[|s.stack| - 1] == ClosedReturn(h) || s.stack[|s.stack| - 1] == DropHold(h))
    ensures var rest := s.stack[..|s.stack| - 1];
      Next(s, Resume) == s.(api := s.api[h := s.api[h].(refs := s.api[h].refs - 1)], stack := rest, inApp := rest == [])
  {
  }

  lemma PeerAdmitted(s: State, e: nat, bidi: bool, h: nat)
    requires Enabled(s, PeerStream(e, bidi, h))
    ensures Next(s, PeerStream(e, bidi, h)) ==
      s.(eng := s.eng[e := FreshWt(s.eng[e].gen, false, bidi, h, s.eng[e].resident)],
         api := s.api[h := ASlot(1, 0, true, Flags(bidi, false, true), false, false, bidi, e, s.m.nextOcc)],
         m := s.m.(nextOcc := s.m.nextOcc + 1), stack := s.stack + [Plain], inApp := true,
         log := s.log + [StreamOpened(s.m.nextOcc)])
  {
  }

  class Session {
    const eng: EnginePool
    const api: HandlePool
    const admission: bool
    const budgeted: bool
    /** The engine keeps the slots below this one for the peer's streams. */
    const peers: nat
    var phase: Phase
    var connClosed: bool
    var terminalFired: bool
    var deferred: bool
    var commitDepth: nat
    var drained: bool
    ghost var stack: seq<Frame>
    ghost var inApp: bool
    ghost var log: seq<Seen>

    /** The state of the machine that the fields stand for. */
    ghost function View(): State
      reads this, eng, eng.slots, api, api.slots
    {
      State(eng.slots[..], api.slots[..],
            Meta(phase, connClosed, terminalFired, deferred, commitDepth, eng.generation, api.occupancies, budgeted, drained),
            stack, inApp, log)
    }

    /** A budgeted session has one handle per engine slot, but for the client's own request stream. */
    predicate Valid()
    {
      peers <= eng.slots.Length && (budgeted ==> admission && peers <= api.slots.Length <= eng.slots.Length)
    }

    constructor (engine: nat, handles: nat, admission: bool, budgeted: bool, peers: nat)
      requires peers <= engine && (budgeted ==> admission && peers <= handles <= engine)
      ensures Valid() && View() == Init(engine, handles, budgeted)
      ensures fresh(eng) && fresh(eng.slots) && fresh(api) && fresh(api.slots)
    {
      eng := new EnginePool(engine);
      api := new HandlePool(handles);
      this.admission, this.budgeted, this.peers := admission, budgeted, peers;
      phase, connClosed, terminalFired, deferred, commitDepth, drained := Connecting, false, false, false, 0, false;
      stack, inApp, log := [], true, [];
      new;
      assert eng.slots[..] == Init(engine, handles, budgeted).eng;
      assert api.slots[..] == Init(engine, handles, budgeted).api;
    }

    /** Where the search for a handle begins and ends; a peer's stream of a budgeted session has no choice. */
    function From(e: nat, local: bool): nat {
      if !budgeted then 0 else if local then peers else e
    }

    function To(e: nat, local: bool): nat {
      if budgeted && !local && e < api.slots.Length then e + 1 else api.slots.Length
    }

    /** The first slot of the range that a stream of this kind may take. */
    method FindHandle(e: nat, local: bool) returns (r: Room)
      requires Valid()
      ensures View() == old(View())
      ensures r.Room? ==> From(e, local) <= r.index < To(e, local) && Usable(View(), r.index, local)
      ensures r.Room? ==> forall i :: From(e, local) <= i < r.index ==> !Usable(View(), i, local)
      ensures r.Full? ==> forall i :: From(e, local) <= i < To(e, local) ==> !Usable(View(), i, local)
    {
      var i := From(e, local);
      if i >= api.slots.Length {
        return Full;
      }
      while i < To(e, local)
        invariant From(e, local) <= i <= To(e, local) && forall k :: From(e, local) <= k < i ==> !Usable(View(), k, local)
      {
        if api.slots[i].refs == 0 && (!budgeted || !local || (eng.slots[i].kind == Free && !eng.slots[i].resident)) {
          return Room(i);
        }
        i := i + 1;
      }
      return Full;
    }

    /** The engine's slots for local streams end here. */
    function Last(): nat {
      if budgeted then api.slots.Length else eng.slots.Length
    }

    /** The first free engine slot for a local stream. */
    method FindSlot() returns (r: Room)
      requires Valid()
      ensures View() == old(View())
      ensures r.Room? ==> peers <= r.index < Last() && Available(View(), r.index)
      ensures r.Room? ==> forall i :: peers <= i < r.index ==> !Available(View(), i)
      ensures r.Full? ==> forall i :: peers <= i < Last() ==> !Available(View(), i)
    {
      r := eng.FindFree(peers, Last());
    }

    /** Both slots are taken, and point at each other. */
    method MoveIn(e: nat, h: nat, bidi: bool)
      requires TakesEffect(View()) && Enabled(View(), Open(bidi, e, h))
      modifies eng`generation, eng.slots, api`occupancies, api.slots
      ensures View() == Next(old(View()), Open(bidi, e, h))
    {
      eng.OpenLocal(e, bidi, budgeted);
      api.Take(h, e, true, bidi);
      eng.slots[e] := eng.slots[e].(user := h);
    }

    /** A stream for which no handle is left is shut down as soon as it is open. */
    method MoveThrough(e: nat, bidi: bool)
      requires TakesEffect(View()) && !budgeted && Enabled(View(), OpenUnheld(bidi, e))
      modifies eng`generation, eng.slots
      ensures View() == Next(old(View()), OpenUnheld(bidi, e))
    {
      eng.OpenLocal(e, bidi, budgeted);
      eng.Shutdown(e, true, bidi);
    }

    /** No engine slot is left for a local stream, or no handle in a session that needs one first. */
    ghost predicate Exhausted(s: State) {
      (forall i :: peers <= i < Last() ==> !Available(s, i)) ||
      (admission && forall i :: From(0, true) <= i < api.slots.Length ==> !Usable(s, i, true))
    }

    /**
     Open a stream, in the first engine slot and with the first handle there is. Sessions with
     admission give way to a peer's stream that is `waiting` and open nothing without a handle;
     others open and shut down again.
     */
    method OpenStream(bidi: bool, waiting: bool) returns (r: Opened)
      requires Valid() && inApp && (waiting ==> admission && !budgeted)
      modifies this, eng`generation, eng.slots, api`occupancies, api.slots
      ensures Valid()
      ensures r.Refused? <==> !old(TakesEffect(View()))
      ensures r.Refused? || r.Blocked? ==> View() == old(View())
      ensures r.Opened? ==> old(Enabled(View(), Open(bidi, r.e, r.h))) && View() == Next(old(View()), Open(bidi, r.e, r.h))
      ensures r.Opened? ==> forall i :: From(r.e, true) <= i < r.h ==> !Usable(old(View()), i, true)
      ensures r.NoHandle? ==>
        !admission && old(Enabled(View(), OpenUnheld(bidi, r.e))) && View() == Next(old(View()), OpenUnheld(bidi, r.e)) &&
        forall i :: 0 <= i < api.slots.Length ==> !Usable(old(View()), i, true)
      ensures r.Opened? || r.NoHandle? ==>
        peers <= r.e < Last() && forall i :: peers <= i < r.e ==> !Available(old(View()), i)
      ensures r.Blocked? <==> !r.Refused? && (waiting || Exhausted(old(View())))
    {
      if terminalFired || connClosed || phase != Active {
        return Opened.Refused;
      }
      hide Next;
      var h := FindHandle(0, true);
      if waiting || (admission && h.Full?) {
        return Blocked;
      }
      var e := FindSlot();
      if e.Full? {
        return Blocked;
      }
      if h.Full? {
        MoveThrough(e.index, bidi);
        return NoHandle(e.index);
      }
      MoveIn(e.index, h.index, bidi);
      return Opened(e.index, h.index);
    }

    /** A peer's stream gets a handle, and the application is told. */
    method Admit(e: nat, bidi: bool, h: nat)
      requires Enabled(View(), PeerStream(e, bidi, h))
      modifies this`stack, this`inApp, this`log, eng.slots, api`occupancies, api.slots
      ensures View() == Next(old(View()), PeerStream(e, bidi, h))
    {
      PeerAdmitted(View(), e, bidi, h);
      hide Next, FreshWt;
      var v := eng.slots[e];
      log := log + [StreamOpened(api.occupancies)];
      api.Take(h, e, false, bidi);
      eng.slots[e] := FreshWt(v.gen, false, bidi, h, v.resident);
      stack := stack + [Plain];
      inApp := true;
    }

    /** A peer's stream for which there is no handle is shut down, if the transport agrees. */
    method TurnAway(e: nat, bidi: bool, ok: bool)
      requires Enabled(View(), PeerUnheld(e, bidi, ok))
      modifies eng.slots
      ensures View() == Next(old(View()), PeerUnheld(e, bidi, ok))
    {
      var v := eng.slots[e];
      eng.slots[e] := FreshWt(v.gen, false, bidi, -1, v.resident);
      if ok {
        eng.Shutdown(e, bidi, true);
      }
    }

    /** A peer's stream gets the handle of its own index, or the first there is; without one it is turned away. */
    method PeerOpens(e: nat, bidi: bool, ok: bool) returns (r: Room)
      requires Valid() && Enabled(View(), PeerUnheld(e, bidi, ok))
      modifies this`stack, this`inApp, this`log, eng.slots, api`occupancies, api.slots
      ensures r.Room? ==>
        old(Enabled(View(), PeerStream(e, bidi, r.index))) && View() == Next(old(View()), PeerStream(e, bidi, r.index))
      ensures r.Room? ==> if budgeted then r.index == e else forall i :: 0 <= i < r.index ==> !Usable(old(View()), i, false)
      ensures r.Full? ==> View() == Next(old(View()), PeerUnheld(e, bidi, ok))
      ensures r.Full? ==> forall i :: From(e, false) <= i < To(e, false) ==> !Usable(old(View()), i, false)
    {
      hide Next;
      r := FindHandle(e, false);
      if r.Room? {
        Admit(e, bidi, r.index);
      } else {
        TurnAway(e, bidi, ok);
      }
    }

    // -------------------------------------------------------------- references

    method AddRef(h: nat)
      requires Enabled(View(), StreamMirror.AddRef(h))
      modifies api.slots
      ensures View() == Next(old(View()), StreamMirror.AddRef(h))
    {
      var a := api.slots[h];
      api.slots[h] := a.(refs := a.refs + 1, appRefs := a.appRefs + 1);
    }

    /** Only what the application holds is its to drop. */
    method ReleaseRef(h: nat)
      requires Enabled(View(), StreamMirror.ReleaseRef(h))
      modifies api.slots
      ensures View() == Next(old(View()), StreamMirror.ReleaseRef(h))
    {
      var a := api.slots[h];
      if a.appRefs > 0 {
        api.slots[h] := a.(refs := a.refs - 1, appRefs := a.appRefs - 1);
      }
    }

    /** The hold of a callback, or the baseline reference after the closed event, is returned. */
    method ReturnReference(h: nat)
      requires Enabled(View(), Resume) && (stack[|stack| - 1] == ClosedReturn(h) || stack[|stack| - 1] == DropHold(h))
      requires api.slots[h].refs > 0
      modifies this, api.slots
      ensures View() == Next(old(View()), Resume)
    {
      ReferenceReturned(View(), h);
      hide Next;
      api.DropSlot(h);
      stack := stack[..|stack| - 1];
      inApp := stack == [];
    }

    // -------------------------------------------------------------- endings of a stream

    /** The handle is cut off from its slot, in both directions, and the application told. */
    method Close(h: nat, ghost frames: seq<Frame>)
      requires h < api.slots.Length && api.slots[h].es < eng.slots.Length
      modifies this`stack, this`inApp, this`log, eng.slots, api.slots
      ensures View() == Terminal(old(View()), h, frames)
    {
      var e := api.slots[h].es;
      api.slots[h] := api.slots[h].(alive := false);
      eng.slots[e] := eng.slots[e].(user := -1);
      log := log + [StreamClosed(api.slots[h].occ)];
      stack := stack + (frames + [ClosedReturn(h)]);
      inApp := true;
    }

    /** After a call that may have ended the stream. */
    method Finish(h: nat)
      requires h < api.slots.Length && api.slots[h].es < eng.slots.Length
      modifies this`stack, this`inApp, this`log, eng.slots, api.slots
      ensures View() == FinishCall(old(View()), h)
    {
      var a := api.slots[h];
      if a.alive && !a.flags.send && !a.flags.fin && !a.flags.recv {
        api.HoldSlot(h);
        Close(h, [DropHold(h)]);
      }
    }

    /** Sides are closed, on the handle and on the slot. */
    method CloseSides(h: nat, flags: Flags, send: bool, recv: bool)
      requires h < api.slots.Length && api.slots[h].es < eng.slots.Length
      modifies eng.slots, api.slots
      ensures var s := old(View()); var a := s.api[h];
        View() == Put(Handle(s, h, a.(flags := flags)), a.es, EngineShutdown(s.eng[a.es], send, recv))
    {
      var a := api.slots[h];
      eng.Shutdown(a.es, send, recv);
      api.slots[h] := a.(flags := flags);
    }

    /** The connection is gone. */
    method Lose()
      modifies this, eng.slots
      ensures View() == LoseConnection(old(View()))
    {
      if connClosed {
        return;
      }
      connClosed := true;
      if phase == Active {
        eng.CloseStreams();
        phase, terminalFired := Over, true;
        stack := stack + [FireClosed, Teardown(0)];
        inApp := false;
      } else if phase == Connecting {
        phase, terminalFired := Over, true;
        log := log + [Failed];
        stack := stack + [Plain];
        inApp := true;
      }
    }

    /** The transport could not carry a shutdown out: the connection dies, under a hold on the handle. */
    method Break(h: nat)
      requires h < api.slots.Length
      modifies this, eng.slots, api.slots
      ensures var s := old(View()); var held := Handle(s, h, s.api[h].(refs := s.api[h].refs + 1));
        View() == LoseConnection(held.(stack := held.stack + [DropHold(h)], inApp := false))
    {
      hide LoseConnection;
      api.HoldSlot(h);
      stack := stack + [DropHold(h)];
      inApp := false;
      Lose();
    }

    /** A reset, a stop or an abort of the whole stream by the application. */
    method ShutdownStream(h: nat, send: bool, recv: bool, whole: bool, answer: Answer)
      requires Enabled(View(), Shutdown(h, send, recv, whole, answer))
      modifies this, eng.slots, api.slots
      ensures View() == Next(old(View()), Shutdown(h, send, recv, whole, answer))
      // on the fields: refused without a trace, or the named sides end in both layers and no other does
      ensures answer == Refusal || !TakesShutdown(old(View()), h, send, recv, whole) ==> View() == old(View())
      ensures answer == Ok && TakesShutdown(old(View()), h, send, recv, whole) ==>
                ShutdownDone(old(View()), View(), h, send || whole, recv || whole)
    {
      ShutdownEffect(View(), h, send, recv, whole, answer);
      var a := api.slots[h];
      if !a.alive || !MayShut(a.flags, send, recv, whole) {
        return;
      }
      var v := eng.slots[a.es];
      if connClosed || v.kind != Wt || !MayShut(v.flags, send, recv, whole) || answer == Refusal {
        return;
      }
      hide EngineShutdown, FinishCall, Put, Handle, LoseConnection;
      if answer == Fatal {
        Break(h);
        return;
      }
      var abortSend := if whole then v.flags.send || v.flags.fin else send;
      var abortRecv := if whole then v.flags.recv else recv;
      CloseSides(h, if whole then Shut else ShutSides(a.flags, send, recv), abortSend, abortRecv);
      Finish(h);
    }

    // -------------------------------------------------------------- events of the transport

    /** What arrives on a stream without a handle, or on one that was stopped, is absorbed; its end frees the slot. */
    method Absorb(e: nat, fin: bool)
      requires OnWt(View(), e) && (eng.slots[e].drain || eng.slots[e].user < 0)
      modifies eng.slots
      ensures View() == AfterData(old(View()), e, fin)
    {
      var v := eng.slots[e];
      if fin {
        eng.slots[e] := if v.drain then v.(drain := false) else v.(flags := v.flags.(recv := false), drain := false);
        eng.Release(e);
      }
    }

    /** Bytes, or the end, of a stream: absorbed, or reported under a hold. */
    method OnData(e: nat, fin: bool)
      requires Enabled(View(), Data(e, fin))
      modifies this`stack, this`inApp, this`log, eng.slots, api.slots
      ensures View() == Next(old(View()), Data(e, fin))
    {
      var v := eng.slots[e];
      if v.drain || v.user < 0 {
        hide AfterData;
        Absorb(e, fin);
        return;
      }
      log := log + [StreamData(api.slots[v.user].occ, fin)];
      api.HoldSlot(v.user);
      stack := stack + [DataReturn(v.user, e, v.gen, fin)];
      inApp := true;
    }

    /** The stream has ended for the application's handle, too. */
    method EndReceive(h: nat, e: nat, gen: nat)
      requires InRange(View(), ResetReturn(h, e, gen)) && api.slots[h].refs > 0
      modifies this`stack, this`inApp, this`log, eng.slots, api.slots
      ensures View() == CloseRecv(old(View()), h, EngineDone(e, gen, false))
    {
      var a := api.slots[h];
      if a.alive {
        api.slots[h] := a.(flags := a.flags.(recv := false));
      }
      if a.alive && !a.flags.send && !a.flags.fin {
        hide Terminal;
        Close(h, [EngineDone(e, gen, false), DropHold(h)]);
      } else {
        api.DropSlot(h);
        eng.Release(e);
        inApp := stack == [];
      }
    }

    /** The reset was reported: the receive side closes, perhaps the handle, and the slot if nothing else keeps it. */
    method ReturnFromReset(h: nat, e: nat, gen: nat)
      requires Enabled(View(), Resume) && stack[|stack| - 1] == ResetReturn(h, e, gen)
      requires api.slots[h].refs > 0
      modifies this`stack, this`inApp, this`log, eng.slots, api.slots
      ensures View() == Next(old(View()), Resume)
    {
      stack := stack[..|stack| - 1];
      hide CloseRecv;
      EndReceive(h, e, gen);
    }

    /** The session ends: all streams close, and the teardown of the handles is what comes next. */
    method End(rawFails: bool)
      requires Enabled(View(), CloseSession(rawFails))
      modifies this, eng.slots
      ensures View() == Next(old(View()), CloseSession(rawFails))
    {
      if terminalFired || connClosed || phase != Active {
        return;
      }
      eng.CloseStreams();
      phase, terminalFired, connClosed := Over, true, rawFails;
      stack := stack + [if rawFails then FireFailed else FireClosed, Teardown(0)];
      inApp := false;
    }
  }
}
