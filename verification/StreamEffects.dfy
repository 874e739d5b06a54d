/**
 What each call and each event of the transport does to a stream, on its fields: which sides end
 on the handle and on the engine's slot, which single callback reports it, and that nothing else
 moves. On that account the state of a handle is its history, over every run: a side is open if
 and only if it was open at the start and nothing since has ended it.
 */
module StreamEffects {
  import opened StreamMirror
  import EventOrder
  import MirrorRuns

  // ---------------------------------------------------------------- vocabulary

  const NoSide := Flags(false, false, false)

  /** `g` is `f` without the send side, FIN included, or without the receive side, as named. */
  predicate Loses(f: Flags, g: Flags, send: bool, recv: bool) {
    (g.send <==> f.send && !send) && (g.fin <==> f.fin && !send) && (g.recv <==> f.recv && !recv)
  }

  /** The sides that a shutdown names are there to be shut down. */
  predicate MayShut(f: Flags, send: bool, recv: bool, whole: bool) {
    if whole then f.send || f.fin || f.recv else (send ==> f.send || f.fin) && (recv ==> f.recv)
  }

  /** A slot is vacated when its stream has no side left and awaits no drain. */
  predicate Lives(w: ESlot) {
    w.kind == if w.flags == NoSide && !w.drain then Free else Wt
  }

  /** No other handle, no other slot, and nothing of the session changes. */
  predicate Elsewhere(s: State, t: State, h: nat, e: nat) {
    |t.api| == |s.api| && |t.eng| == |s.eng| && t.m == s.m &&
    (forall g :: 0 <= g < |s.api| && g != h ==> t.api[g] == s.api[g]) &&
    (forall j :: 0 <= j < |s.eng| && j != e ==> t.eng[j] == s.eng[j]) &&
    (h < |s.api| ==> t.api[h] == s.api[h].(flags := t.api[h].flags, alive := t.api[h].alive, refs := t.api[h].refs))
  }

  /** After a call: a handle without a side is closed, once and with one report; any other lives on. */
  predicate ClosesIfDone(s: State, t: State, h: nat, e: nat)
    requires h < |s.api| == |t.api| && e < |s.eng| == |t.eng|
  {
    var a, b := s.api[h], t.api[h];
    if b.flags == NoSide
    then !b.alive && t.eng[e].user == -1 && t.log == s.log + [StreamClosed(a.occ)] &&
         t.stack == s.stack + [DropHold(h), ClosedReturn(h)] && t.inApp && b.refs == a.refs + 1
    else b.alive && t.eng[e].user == s.eng[e].user && t.log == s.log &&
         t.stack == s.stack && t.inApp == s.inApp && b.refs == a.refs
  }

  predicate TakesShutdown(s: State, h: nat, send: bool, recv: bool, whole: bool)
    requires Known(s, h)
  {
    var a := s.api[h];
    var v := s.eng[a.es];
    a.alive && !s.m.connClosed && v.kind == Wt && MayShut(a.flags, send, recv, whole) && MayShut(v.flags, send, recv, whole)
  }

  predicate TakesSend(s: State, h: nat, ok: bool)
    requires Known(s, h)
  {
    var a := s.api[h];
    var v := s.eng[a.es];
    a.alive && !s.m.connClosed && s.m.phase != Over && v.kind == Wt && a.flags.send && v.flags.send && ok
  }

  // ---------------------------------------------------------------- calls of the application

  predicate ShutdownDone(s: State, t: State, h: nat, send: bool, recv: bool)
    requires Known(s, h)
  {
    var a, e := s.api[h], s.api[h].es;
    Elsewhere(s, t, h, e) && Loses(a.flags, t.api[h].flags, send, recv) && Loses(s.eng[e].flags, t.eng[e].flags, send, recv) &&
    (t.eng[e].drain <==> s.eng[e].drain || (recv && s.eng[e].flags.recv)) && Lives(t.eng[e]) &&
    ClosesIfDone(s, t, h, e)
  }

  lemma SlotShut(v: ESlot, send: bool, recv: bool, whole: bool)
    requires v.kind == Wt && MayShut(v.flags, send, recv, whole)
    ensures var w := EngineShutdown(v, if whole then v.flags.send || v.flags.fin else send, if whole then v.flags.recv else recv);
            Loses(v.flags, w.flags, send || whole, recv || whole) && Lives(w) && w.user == v.user &&
            (w.drain <==> v.drain || ((recv || whole) && v.flags.recv))
  {
  }

  lemma HandleShut(f: Flags, send: bool, recv: bool, whole: bool)
    requires MayShut(f, send, recv, whole)
    ensures Loses(f, if whole then Shut else ShutSides(f, send, recv), send || whole, recv || whole)
  {
  }

  lemma ShutdownRefused(s: State, h: nat, send: bool, recv: bool, whole: bool, answer: Answer)
    requires Enabled(s, Shutdown(h, send, recv, whole, answer))
    requires !TakesShutdown(s, h, send, recv, whole) || answer == Refusal
    ensures Next(s, Shutdown(h, send, recv, whole, answer)) == s
  {
    hide FinishCall, EngineShutdown, LoseConnection, ShutSides, Put, Handle;
  }

  lemma ShutdownTaken(s: State, h: nat, send: bool, recv: bool, whole: bool)
    requires Enabled(s, Shutdown(h, send, recv, whole, Ok)) && TakesShutdown(s, h, send, recv, whole)
    ensures ShutdownDone(s, Next(s, Shutdown(h, send, recv, whole, Ok)), h, send || whole, recv || whole)
  {
    hide FinishCall, EngineShutdown, ShutSides, LoseConnection, Loses, Elsewhere, ClosesIfDone, Put, Handle;
    var a, e := s.api[h], s.api[h].es;
    var v := s.eng[e];
    var w := EngineShutdown(v, if whole then v.flags.send || v.flags.fin else send, if whole then v.flags.recv else recv);
    var flags := if whole then Shut else ShutSides(a.flags, send, recv);
    SlotShut(v, send, recv, whole);
    HandleShut(a.flags, send, recv, whole);
    FinishCloses(s, h, flags, w);
  }

  /**
   A reset, a stop or an abort that is taken ends the sides it names and no other, on handle and
   slot; a stopped receive side drains. One that is refused changes nothing.
   */
  lemma ShutdownEffect(s: State, h: nat, send: bool, recv: bool, whole: bool, answer: Answer)
    requires Enabled(s, Shutdown(h, send, recv, whole, answer))
    ensures var t := Next(s, Shutdown(h, send, recv, whole, answer));
            if !TakesShutdown(s, h, send, recv, whole) || answer == Refusal then t == s
            else answer == Ok ==> ShutdownDone(s, t, h, send || whole, recv || whole)
  {
    hide Next, ShutdownDone, TakesShutdown;
    if !TakesShutdown(s, h, send, recv, whole) || answer == Refusal {
      ShutdownRefused(s, h, send, recv, whole, answer);
    } else if answer == Ok {
      ShutdownTaken(s, h, send, recv, whole);
    }
  }

  /** A handle's sides and its slot change, and the call finishes. */
  lemma FinishCloses(s: State, h: nat, flags: Flags, w: ESlot)
    requires Known(s, h) && s.api[h].alive && w.user == s.eng[s.api[h].es].user
    ensures var a, e := s.api[h], s.api[h].es;
            var t := FinishCall(Put(Handle(s, h, a.(flags := flags)), e, w), h);
            Elsewhere(s, t, h, e) && ClosesIfDone(s, t, h, e) && t.api[h].flags == flags &&
            t.eng[e] == w.(user := t.eng[e].user)
  {
    hide FinishCall;
    var a, e := s.api[h], s.api[h].es;
    var u := s.(api := s.api[h := a.(flags := flags)], eng := s.eng[e := w]);
    assert Put(Handle(s, h, a.(flags := flags)), e, w) == u;
    hide Put, Handle;
    if flags == NoSide {
      ClosedCall(u, h);
      assert u.api[h := u.api[h].(refs := a.refs + 1, alive := false)] == s.api[h := a.(flags := flags, refs := a.refs + 1, alive := false)];
      assert u.eng[e := u.eng[e].(user := -1)] == s.eng[e := w.(user := -1)];
    } else {
      OpenCall(u, h);
    }
  }

  lemma OpenCall(u: State, h: nat)
    requires h < |u.api| && u.api[h].es < |u.eng| && u.api[h].flags != NoSide
    ensures FinishCall(u, h) == u
  {
  }

  lemma ClosedCall(u: State, h: nat)
    requires h < |u.api| && u.api[h].es < |u.eng| && u.api[h].alive && u.api[h].flags == NoSide
    ensures var a, e := u.api[h], u.api[h].es;
            FinishCall(u, h) ==
              u.(api := u.api[h := a.(refs := a.refs + 1, alive := false)], eng := u.eng[e := u.eng[e].(user := -1)],
                 log := u.log + [StreamClosed(a.occ)], stack := u.stack + [DropHold(h), ClosedReturn(h)], inApp := true)
  {
    var a, e := u.api[h], u.api[h].es;
    assert FinishCall(u, h).api == u.api[h := a.(refs := a.refs + 1, alive := false)];
    assert [DropHold(h)] + [ClosedReturn(h)] == [DropHold(h), ClosedReturn(h)];
  }

  predicate FinDone(s: State, t: State, h: nat)
    requires Known(s, h)
  {
    var a, e := s.api[h], s.api[h].es;
    Elsewhere(s, t, h, e) &&
    var v, w := s.eng[e], t.eng[e];
    t.api[h].flags == Flags(false, a.commit, a.flags.recv) && w.flags == Flags(false, v.commit, v.flags.recv) &&
    w.sent && w.drain == v.drain && Lives(w) && ClosesIfDone(s, t, h, e)
  }

  /** A send that is taken marks the slot; with a FIN it ends the send side, which then awaits its commitment if it has one. */
  lemma SendEffect(s: State, h: nat, fin: bool, ok: bool)
    requires Enabled(s, Send(h, fin, ok))
    ensures var t, e := Next(s, Send(h, fin, ok)), s.api[h].es;
            if !TakesSend(s, h, ok) then t == s
            else if fin then FinDone(s, t, h)
            else t == s.(eng := s.eng[e := s.eng[e].(sent := true)])
  {
  }

  // ---------------------------------------------------------------- events of the transport

  /** The handle that slot `e` leads to. */
  predicate Leads(s: State, e: nat) {
    e < |s.eng| && s.eng[e].user >= 0
  }

  /** One callback, about handle `h`, under a hold that frame `f` returns; the slot is now `w`, the handle's sides `flags`. */
  predicate Told(s: State, t: State, e: nat, h: nat, w: ESlot, flags: Flags, seen: Seen, f: Frame)
    requires h < |s.api| && e < |s.eng|
  {
    t.eng == s.eng[e := w] && t.api == s.api[h := s.api[h].(refs := s.api[h].refs + 1, flags := flags)] && t.m == s.m &&
    t.log == s.log + [seen] && t.stack == s.stack + [f] && t.inApp
  }

  /** Nothing is reported: at most slot `e` changes, and is vacated if nothing keeps it. */
  predicate Silent(s: State, t: State, e: nat, w: ESlot)
    requires e < |s.eng|
  {
    t == s.(eng := s.eng[e := w.(kind := if w.flags == NoSide && !w.drain then Free else Wt)])
  }

  /**
   A reset by the peer ends the receive side: silently for a stream that was stopped already or has
   no handle, and otherwise with exactly one report. The handle's own receive side waits for the
   return of that callback.
   */
  lemma PeerResetEffect(s: State, e: nat)
    requires Enabled(s, PeerReset(e))
    ensures var v, t := s.eng[e], Next(s, PeerReset(e));
            if v.drain then Silent(s, t, e, v.(drain := false))
            else if v.user < 0 then Silent(s, t, e, v.(flags := Flags(v.flags.send, v.flags.fin, false)))
            else Told(s, t, e, v.user, v.(flags := Flags(v.flags.send, v.flags.fin, false)), s.api[v.user].flags,
                      StreamReset(s.api[v.user].occ), ResetReturn(v.user, e, v.gen))
  {
  }

  /**
   A stop by the peer is reported exactly once where there is a handle. It ends the send side of a
   stream with commitment, and leaves the sides of any other as they are.
   */
  lemma PeerStopEffect(s: State, e: nat)
    requires Enabled(s, PeerStop(e))
    ensures var v, t := s.eng[e], Next(s, PeerStop(e));
            var ended := v.(flags := Flags(false, false, v.flags.recv));
            if v.user < 0 then (if v.commit then Silent(s, t, e, ended) else t == s)
            else
              var a := s.api[v.user];
              Told(s, t, e, v.user, if v.commit then ended else v,
                   if a.commit then Flags(false, false, a.flags.recv) else a.flags,
                   StreamStop(a.occ), StopReturn(v.user, e, v.gen, v.commit))
  {
  }

  /** Bytes are reported where there is a handle and the receive side was not stopped; their end frees what is absorbed. */
  lemma DataEffect(s: State, e: nat, fin: bool)
    requires Enabled(s, Data(e, fin))
    ensures var v, t := s.eng[e], Next(s, Data(e, fin));
            if v.drain then (if fin then Silent(s, t, e, v.(drain := false)) else t == s)
            else if v.user < 0
            then (if fin then Silent(s, t, e, v.(flags := Flags(v.flags.send, v.flags.fin, false))) else t == s)
            else Told(s, t, e, v.user, v, s.api[v.user].flags,
                      StreamData(s.api[v.user].occ, fin), DataReturn(v.user, e, v.gen, fin))
  {
  }

  /** Room at the transport is reported, and moves nothing. */
  lemma WritableEffect(s: State, e: nat)
    requires Enabled(s, Writable(e))
    ensures var v, t := s.eng[e], Next(s, Writable(e));
            if v.user < 0 then t == s
            else Told(s, t, e, v.user, v, s.api[v.user].flags, StreamWritable(s.api[v.user].occ), DropHold(v.user))
  {
  }

  /** A handle is cut off from its slot, and the application told so. */
  predicate CutOff(s: State, t: State, e: nat, h: nat, seen: Seen, push: seq<Frame>)
    requires h < |s.api| && s.api[h].es < |s.eng| && e < |s.eng|
  {
    Elsewhere(s.(m := t.m), t, h, e) && !t.api[h].alive && t.eng[e].user == -1 &&
    t.log == s.log + [seen] && t.stack == s.stack + push && t.inApp
  }

  /**
   The end of the send direction of a stream with commitment. A graceful one of a stream that
   awaits it is reported as committed, any other closes the handle without; either way both layers
   lose the send side and the handle is cut off.
   */
  lemma SendOverEffect(s: State, e: nat, gen: nat, graceful: bool)
    requires Enabled(s, SendOver(e, gen, graceful)) && s.eng[e].user >= 0
    requires var a := s.api[s.eng[e].user]; a.alive && a.es == e
    ensures var h, t := s.eng[e].user, Next(s, SendOver(e, gen, graceful));
            var a := s.api[h];
            if graceful && !(a.commit && a.flags.fin)
            then Silent(s, t, e, s.eng[e].(flags := Flags(false, false, s.eng[e].flags.recv)))
            else CutOff(s, t, e, h, if graceful then StreamCommitted(a.occ) else StreamClosed(a.occ),
                        if graceful then [CommitReturn(h, e, gen)] else [EngineDone(e, gen, true), DropHold(h), ClosedReturn(h)]) &&
                 Loses(s.eng[e].flags, t.eng[e].flags, true, false) && !t.api[h].flags.send && !t.api[h].flags.fin &&
                 t.m == s.m.(commitDepth := s.m.commitDepth + if graceful then 1 else 0)
  {
  }

  /** The transport stream is gone: whatever side was left is closed in both layers, with one report. */
  lemma StreamGoneEffect(s: State, e: nat)
    requires Enabled(s, StreamGone(e)) && s.eng[e].user >= 0
    requires var a := s.api[s.eng[e].user]; a.alive && a.es == e
    ensures var v, t := s.eng[e], Next(s, StreamGone(e));
            var h := v.user;
            if v.flags == NoSide then t == s.(eng := s.eng[e := v.(kind := Free, drain := false)])
            else CutOff(s, t, e, h, StreamClosed(s.api[h].occ), [EngineRelease(e, v.gen), DropHold(h), ClosedReturn(h)]) &&
                 t.eng[e].flags == NoSide && t.api[h].flags == NoSide && t.m == s.m
  {
  }

  // ---------------------------------------------------------------- the returns from those callbacks

  /** The receive side has ended on the handle; one that has no side left is closed, with one report. */
  predicate ReceiveEnded(s: State, t: State, h: nat)
    requires h < |s.api|
  {
    |t.api| == |s.api| && |t.eng| == |s.eng| && t.m == s.m &&
    (forall g :: 0 <= g < |s.api| && g != h ==> t.api[g] == s.api[g]) &&
    var a, b := s.api[h], t.api[h];
    if !a.alive then b == a.(refs := a.refs - 1) && t.log == s.log
    else
      b.flags == Flags(a.flags.send, a.flags.fin, false) && (b.alive <==> a.flags.send || a.flags.fin) &&
      t.log == if b.alive then s.log else s.log + [StreamClosed(a.occ)]
  }

  lemma CloseRecvEnds(s: State, h: nat, tail: Frame)
    requires h < |s.api| && s.api[h].es < |s.eng| && (tail.EngineFin? || tail.EngineDone?) && tail.e < |s.eng|
    ensures ReceiveEnded(s, CloseRecv(s, h, tail), h)
  {
    hide ReleaseIfDone;
  }

  /** After the callback that reported the peer's reset, or the end of its stream. */
  lemma ReceiveReturnEffect(s: State)
    requires Enabled(s, Resume)
    requires var f := s.stack[|s.stack| - 1]; f.ResetReturn? || (f.DataReturn? && f.fin)
    ensures ReceiveEnded(s, Next(s, Resume), s.stack[|s.stack| - 1].h)
  {
    var n := |s.stack| - 1;
    var f := s.stack[n];
    var u := s.(stack := s.stack[..n]);
    var tail := if f.ResetReturn? then EngineDone(f.e, f.gen, false) else EngineFin(f.e, f.gen);
    CloseRecvEnds(u, f.h, tail);
    assert Next(s, Resume) == CloseRecv(u, f.h, tail);
    hide CloseRecv;
  }

  /** After the callback that reported the peer's stop: a stream with commitment closes if that was its last side. */
  lemma StopReturnEffect(s: State)
    requires Enabled(s, Resume) && s.stack[|s.stack| - 1].StopReturn?
    ensures var h, t := s.stack[|s.stack| - 1].h, Next(s, Resume);
            var a := s.api[h];
            var ends := a.alive && a.commit && a.flags == NoSide;
            |t.api| == |s.api| && t.m == s.m && (forall g :: 0 <= g < |s.api| && g != h ==> t.api[g] == s.api[g]) &&
            t.api[h].flags == a.flags && t.api[h].occ == a.occ && (t.api[h].alive <==> a.alive && !ends) &&
            t.log == if ends then s.log + [StreamClosed(a.occ)] else s.log
  {
  }

  /** After the callback that reported the commitment, the stream is reported closed. */
  lemma CommitReturnEffect(s: State)
    requires Enabled(s, Resume) && s.stack[|s.stack| - 1].CommitReturn?
    ensures var f, t := s.stack[|s.stack| - 1], Next(s, Resume);
            t.log == s.log + [StreamClosed(s.api[f.h].occ)] && t.api == s.api && t.eng == s.eng
  {
  }

  /** What the engine makes of the slot after the peer's end of stream, or its reset: freed if nothing keeps it. */
  predicate SlotFinished(v: ESlot, w: ESlot, tail: Frame)
    requires tail.EngineFin? || tail.EngineDone?
  {
    if v.kind != Wt || (v.gen != tail.gen && (tail.EngineFin? || tail.checked)) then w == v
    else
      var flags := if tail.EngineFin? then Flags(v.flags.send, v.flags.fin, false) else v.flags;
      var drain := v.drain && !tail.EngineFin?;
      w == v.(flags := flags, drain := drain, kind := if flags == NoSide && !drain then Free else Wt)
  }

  /** The engine finishes with the slot when the last frame of the event returns. */
  lemma EngineReturnEffect(s: State)
    requires Enabled(s, Resume)
    requires var f := s.stack[|s.stack| - 1]; f.EngineFin? || f.EngineDone? || f.EngineRelease?
    ensures var f, t := s.stack[|s.stack| - 1], Next(s, Resume);
            |t.eng| == |s.eng| && t.api == s.api && t.m == s.m && t.log == s.log &&
            (forall j :: 0 <= j < |s.eng| && j != f.e ==> t.eng[j] == s.eng[j]) &&
            if f.EngineRelease? then t.eng[f.e] == s.eng[f.e].(kind := Free) else SlotFinished(s.eng[f.e], t.eng[f.e], f)
  {
  }

  lemma CloseRecvFinishes(s: State, h: nat, tail: Frame)
    requires h < |s.api| && s.api[h].es < |s.eng| && (tail.EngineFin? || tail.EngineDone?) && tail.e < |s.eng|
    ensures var t, closes := CloseRecv(s, h, tail), s.api[h].alive && !s.api[h].flags.send && !s.api[h].flags.fin;
            if closes then t.stack == s.stack + [tail, DropHold(h), ClosedReturn(h)]
            else t.stack == s.stack && |t.eng| == |s.eng| && SlotFinished(s.eng[tail.e], t.eng[tail.e], tail)
  {
    var b := s.api[h].(flags := s.api[h].flags.(recv := false));
    assert s.api[h].alive ==> Handle(s, h, b).api[h] == b;
    assert [tail, DropHold(h)] + [ClosedReturn(h)] == [tail, DropHold(h), ClosedReturn(h)];
  }

  /** After the report of a reset or of the end, the slot is finished with at once, or after the report that closes the handle. */
  lemma ReceiveReturnSlot(s: State)
    requires Enabled(s, Resume)
    requires var f := s.stack[|s.stack| - 1]; f.ResetReturn? || (f.DataReturn? && f.fin)
    ensures var f, t := s.stack[|s.stack| - 1], Next(s, Resume);
            var tail := if f.ResetReturn? then EngineDone(f.e, f.gen, false) else EngineFin(f.e, f.gen);
            var rest := s.stack[..|s.stack| - 1];
            if s.api[f.h].alive && !s.api[f.h].flags.send && !s.api[f.h].flags.fin
            then t.stack == rest + [tail, DropHold(f.h), ClosedReturn(f.h)]
            else t.stack == rest && |t.eng| == |s.eng| && SlotFinished(s.eng[f.e], t.eng[f.e], tail)
  {
    var n := |s.stack| - 1;
    var f := s.stack[n];
    var u := s.(stack := s.stack[..n]);
    var tail := if f.ResetReturn? then EngineDone(f.e, f.gen, false) else EngineFin(f.e, f.gen);
    CloseRecvFinishes(u, f.h, tail);
    assert Next(s, Resume) == CloseRecv(u, f.h, tail);
    hide CloseRecv;
  }

  /** References are the application's to take, and to drop as far as it holds any. */
  lemma RefEffect(s: State, h: nat)
    requires Enabled(s, AddRef(h)) && Enabled(s, ReleaseRef(h))
    ensures Next(s, AddRef(h)) == s.(api := s.api[h := s.api[h].(refs := s.api[h].refs + 1, appRefs := s.api[h].appRefs + 1)])
    ensures Next(s, ReleaseRef(h)) ==
            if s.api[h].appRefs == 0 then s
            else s.(api := s.api[h := s.api[h].(refs := s.api[h].refs - 1, appRefs := s.api[h].appRefs - 1)])
  {
  }

  // ---------------------------------------------------------------- openings, commitment, endings

  /** A stream that opens has its own sides open in both layers, which point at each other. */
  lemma OpenEffect(s: State, bidi: bool, e: nat, h: nat)
    requires Enabled(s, Open(bidi, e, h))
    ensures var t := Next(s, Open(bidi, e, h));
            if s.m.terminalFired || s.m.connClosed || s.m.phase != Active then t == s
            else Mirrored(t, h) && t.api[h].es == e && t.api[h].alive && t.api[h].local && t.api[h].bidi == bidi &&
                 t.api[h].flags == Flags(true, false, bidi) && !t.eng[e].drain && t.log == s.log && t.stack == s.stack
  {
  }

  lemma PeerStreamEffect(s: State, e: nat, bidi: bool, h: nat)
    requires Enabled(s, PeerStream(e, bidi, h))
    ensures var t := Next(s, PeerStream(e, bidi, h));
            Mirrored(t, h) && t.api[h].es == e && t.api[h].alive && !t.api[h].local && t.api[h].bidi == bidi &&
            t.api[h].flags == Flags(bidi, false, true) && t.eng[e].gen == s.eng[e].gen && !t.eng[e].drain &&
            t.log == s.log + [StreamOpened(t.api[h].occ)] && t.stack == s.stack + [Plain] && t.inApp
  {
  }

  /**
   A stream that finds no handle is shut down on both its sides: a local one is gone at once, unless
   its receive side has to drain; a peer's drains if the transport took the shutdown.
   */
  lemma UnheldEffect(s: State, bidi: bool, e: nat, ok: bool)
    ensures Enabled(s, OpenUnheld(bidi, e)) ==>
              var t := Next(s, OpenUnheld(bidi, e));
              t.api == s.api && t.log == s.log &&
              if s.m.terminalFired || s.m.connClosed || s.m.phase != Active || s.m.budgeted then t == s
              else t.eng == s.eng[e := t.eng[e]] && t.eng[e].flags == NoSide && t.eng[e].user == -1 &&
                   t.eng[e].drain == bidi && t.eng[e].kind == (if bidi then Wt else Free)
    ensures Enabled(s, PeerUnheld(e, bidi, ok)) ==>
              var t := Next(s, PeerUnheld(e, bidi, ok));
              t.api == s.api && t.log == s.log && t.m == s.m && t.eng == s.eng[e := t.eng[e]] &&
              t.eng[e].kind == Wt && t.eng[e].user == -1 && t.eng[e].gen == s.eng[e].gen && t.eng[e].drain == ok &&
              t.eng[e].flags == if ok then NoSide else Flags(bidi, false, true)
  {
  }

  /** Commitment can be asked for on a local unidirectional stream that has not sent; it is set in both layers. */
  lemma EnableCommitEffect(s: State, h: nat)
    requires Enabled(s, EnableCommit(h))
    ensures var t, a := Next(s, EnableCommit(h)), s.api[h];
            var v := s.eng[a.es];
            var taken := a.alive && a.local && !a.bidi && !s.m.connClosed && s.m.phase == Active &&
                         v.kind == Wt && v.local && !v.bidi && v.flags.send && !v.sent;
            if taken then t == s.(api := s.api[h := a.(commit := true)], eng := s.eng[a.es := v.(commit := true)])
            else t == s
  {
  }

  /** What the end of the session does to a slot: no side stays open, and a receive side drains. */
  predicate SlotEnded(v: ESlot, w: ESlot) {
    if v.kind != Wt then w == v
    else w.flags == NoSide && (w.drain <==> v.drain || v.flags.recv) && (w.kind == if w.drain then Wt else Free) &&
         w == v.(flags := w.flags, drain := w.drain, kind := w.kind)
  }

  predicate EndsSession(s: State, ev: Event) {
    match ev
    case CloseSession(_) => !s.m.terminalFired && !s.m.connClosed && s.m.phase == Active
    case PeerClose(_) => true
    case Lost => !s.m.connClosed && s.m.phase == Active
    case OpenFatal => !s.m.terminalFired && !s.m.connClosed && s.m.phase == Active
    case _ => false
  }

  /** A session that ends shuts all its streams down; then comes its terminal event, after the teardown of every handle. */
  lemma EndingEffect(s: State, ev: Event)
    requires Enabled(s, ev) && EndsSession(s, ev)
    ensures var t := Next(s, ev);
            var fails := (ev.CloseSession? || ev.PeerClose?) && ev.rawFails;
            t.api == s.api && |t.eng| == |s.eng| && (forall e :: 0 <= e < |s.eng| ==> SlotEnded(s.eng[e], t.eng[e])) &&
            t.m == s.m.(phase := Over, terminalFired := true, connClosed := t.m.connClosed) &&
            (t.m.connClosed <==> s.m.connClosed || fails || ev.Lost? || ev.OpenFatal?) &&
            t.log == s.log && t.stack == s.stack + [if fails then FireFailed else FireClosed, Teardown(0)] && !t.inApp
  {
    SlotsEnd();
    hide EngineClose, SlotEnded;
  }

  lemma SlotsEnd()
    ensures forall v: ESlot :: SlotEnded(v, EngineClose(v))
  {
  }

  /** The teardown closes the handles that are still alive, one after the other, each with one report. */
  lemma TeardownEffect(s: State)
    requires Enabled(s, Resume) && s.stack[|s.stack| - 1].Teardown?
    ensures var i, t, rest := s.stack[|s.stack| - 1].next, Next(s, Resume), s.stack[..|s.stack| - 1];
            t.m == s.m && |t.api| == |s.api| && (forall g :: 0 <= g < |s.api| && g != i ==> t.api[g] == s.api[g]) &&
            if i == |s.api| then t.stack == rest && t.log == s.log && t.eng == s.eng
            else if s.api[i].refs > 0 && s.api[i].alive
            then !t.api[i].alive && t.api[i].flags == NoSide && t.eng == s.eng[s.api[i].es := s.eng[s.api[i].es].(user := -1)] &&
                 t.log == s.log + [StreamClosed(s.api[i].occ)] && t.stack == rest + [Teardown(i + 1), ClosedReturn(i)]
            else t.api == s.api && t.eng == s.eng && t.log == s.log && t.stack == rest + [Teardown(i + 1)]
  {
    var i, rest := s.stack[|s.stack| - 1].next, s.stack[..|s.stack| - 1];
    assert rest + [Teardown(i + 1)] + [ClosedReturn(i)] == rest + [Teardown(i + 1), ClosedReturn(i)];
  }

  /** A connection that is lost fails a session that was not established, and is silent for one that is over. */
  lemma LostEffect(s: State)
    requires Enabled(s, Lost) && s.m.phase != Active
    ensures var t := Next(s, Lost);
            t.api == s.api && t.eng == s.eng &&
            if s.m.connClosed then t == s
            else t.m == s.m.(connClosed := true, phase := Over, terminalFired := t.m.terminalFired) &&
                 (t.m.terminalFired <==> s.m.terminalFired || s.m.phase == Connecting) &&
                 t.log == s.log + if s.m.phase == Connecting then [Failed] else []
  {
  }

  /** Slots are given to streams of the peer under a new generation, taken back, and released by the backend. */
  lemma AllocationEffect(s: State, e: nat)
    ensures Enabled(s, PeerAlloc(e)) ==>
              var t := Next(s, PeerAlloc(e));
              t.eng == s.eng[e := t.eng[e]] && t.api == s.api && t.log == s.log &&
              t.eng[e].kind == Other && t.eng[e].gen == s.m.nextGen + 1 == t.m.nextGen && t.eng[e].user == -1 &&
              t.eng[e].flags == NoSide && t.eng[e].resident == s.m.budgeted
    ensures Enabled(s, PeerFree(e)) ==> Next(s, PeerFree(e)) == s.(eng := s.eng[e := s.eng[e].(kind := Free)])
    ensures Enabled(s, Retire(e)) ==> Next(s, Retire(e)) == s.(eng := s.eng[e := s.eng[e].(resident := false)])
  {
  }

  /** What the session as a whole is told, each at most once per event and only while it may still hear. */
  lemma NoticeEffect(s: State, ev: Event)
    requires Enabled(s, ev) && (ev.Establish? || ev.Refuse? || ev.Fail? || ev.PeerDrain? || ev.PeerDatagram?)
    ensures var t := Next(s, ev);
            var hears := !s.m.connClosed && s.m.phase == Active;
            var seen := match ev
              case Establish => [Established]
              case Refuse => [Refused]
              case Fail => [Failed]
              case PeerDrain => (if hears && !s.m.drained then [Draining] else [])
              case _ => if hears then [Datagram] else [];
            t.log == s.log + seen && t.api == s.api && t.eng == s.eng && t.stack == s.stack + (if seen == [] then [] else [Plain]) &&
            t.m == (if ev.Establish? then s.m.(phase := Active)
                    else if ev.Refuse? || ev.Fail? then s.m.(phase := Over, terminalFired := true)
                    else s.m.(drained := s.m.drained || (ev.PeerDrain? && hears)))
  {
  }

  /** The terminal event of the session: a failure at once, a close after the commitment callback that is under way. */
  lemma FireEffect(s: State)
    requires Enabled(s, Resume)
    requires var f := s.stack[|s.stack| - 1]; f.FireClosed? || f.FireFailed? || f.FireDeferred?
    ensures var f, t := s.stack[|s.stack| - 1], Next(s, Resume);
            var now := if f.FireClosed? then s.m.commitDepth == 0 else f.FireFailed? || (s.m.commitDepth == 0 && s.m.deferred);
            t.log == s.log + (if !now then [] else if f.FireFailed? then [Failed] else [Closed]) &&
            t.m.deferred == (if f.FireClosed? then s.m.deferred || !now else s.m.deferred && !(f.FireDeferred? && now)) &&
            t.m == s.m.(deferred := t.m.deferred) && t.api == s.api && t.eng == s.eng
  {
  }

  // ---------------------------------------------------------------- a handle's sides are its history

  /** The top of the stack, to which the library returns. */
  predicate Returns(s: State, ev: Event) {
    ev.Resume? && s.stack != []
  }

  predicate EndsRecv(s: State, ev: Event, h: nat) {
    match ev
    case Shutdown(k, send, recv, whole, answer) =>
      k == h && answer == Ok && (recv || whole) && Known(s, k) && TakesShutdown(s, k, send, recv, whole)
    case SendOver(e, _, graceful) => e < |s.eng| && s.eng[e].user == h && !graceful
    case StreamGone(e) => e < |s.eng| && s.eng[e].user == h && s.eng[e].flags != NoSide
    case Resume =>
      s.stack != [] &&
      var f := s.stack[|s.stack| - 1];
      (f.ResetReturn? && f.h == h) || (f.DataReturn? && f.h == h && f.fin) || f == Teardown(h)
    case _ => false
  }

  predicate EndsSend(s: State, ev: Event, h: nat) {
    match ev
    case Send(k, fin, ok) => k == h && fin && Known(s, k) && TakesSend(s, k, ok)
    case Shutdown(k, send, recv, whole, answer) =>
      k == h && answer == Ok && (send || whole) && Known(s, k) && TakesShutdown(s, k, send, recv, whole)
    case PeerStop(e) => e < |s.eng| && s.eng[e].user == h && h < |s.api| && s.api[h].commit
    case SendOver(e, _, graceful) =>
      e < |s.eng| && s.eng[e].user == h && h < |s.api| && (graceful ==> s.api[h].commit && s.api[h].flags.fin)
    case StreamGone(e) => e < |s.eng| && s.eng[e].user == h && s.eng[e].flags != NoSide
    case Resume => s.stack != [] && s.stack[|s.stack| - 1] == Teardown(h)
    case _ => false
  }

  /**
   The handle closes with the step that ends its last side, or its send side for good; but a stop
   by the peer closes it on the return from the callback.
   */
  predicate CutsOff(s: State, ev: Event, left: Flags, h: nat) {
    ((EndsSend(s, ev, h) || EndsRecv(s, ev, h)) && !ev.PeerStop? && (left == NoSide || ev.SendOver?)) ||
    (ev.Resume? && s.stack != [] && s.stack[|s.stack| - 1].StopReturn? && s.stack[|s.stack| - 1].h == h &&
     h < |s.api| && s.api[h].commit && s.api[h].flags == NoSide)
  }

  /** What a step does to a live handle. */
  predicate SidesStep(s: State, ev: Event, t: State, h: nat)
    requires h < |s.api|
  {
    |t.api| == |s.api| &&
    var f, g := s.api[h].flags, t.api[h].flags;
    (g.send <==> f.send && !EndsSend(s, ev, h)) && (g.recv <==> f.recv && !EndsRecv(s, ev, h)) &&
    (g.fin <==> if ev.Send? && EndsSend(s, ev, h) then s.api[h].commit else f.fin && !EndsSend(s, ev, h)) &&
    t.api[h].occ == s.api[h].occ && (t.api[h].alive <==> !CutsOff(s, ev, g, h))
  }

  lemma CallSides(s: State, ev: Event, h: nat)
    requires Enabled(s, ev) && h < |s.api| && s.api[h].alive && (ev.Send? || ev.EnableCommit? || ev.AddRef? || ev.ReleaseRef?)
    ensures SidesStep(s, ev, Next(s, ev), h)
  {
    hide FinishCall, ReleaseIfDone;
    if ev.Send? {
      SendSides(s, ev.h, ev.fin, ev.ok, h);
    }
  }

  lemma SendSides(s: State, k: nat, fin: bool, ok: bool, h: nat)
    requires Enabled(s, Send(k, fin, ok)) && h < |s.api| && s.api[h].alive
    ensures SidesStep(s, Send(k, fin, ok), Next(s, Send(k, fin, ok)), h)
  {
    SendEffect(s, k, fin, ok);
    hide Next;
  }

  lemma ShutdownSides(s: State, ev: Event, h: nat)
    requires Enabled(s, ev) && h < |s.api| && s.api[h].alive && ev.Shutdown?
    ensures SidesStep(s, ev, Next(s, ev), h)
  {
    hide Next, MayShut, ClosesIfDone, Lives;
    var t := Next(s, ev);
    var takes := TakesShutdown(s, ev.h, ev.send, ev.recv, ev.whole);
    hide TakesShutdown;
    ShutdownEffect(s, ev.h, ev.send, ev.recv, ev.whole, ev.answer);
    if takes && ev.answer == Fatal {
      FatalSides(s, ev, h);
    } else if takes && ev.answer == Ok {
      TakenSides(s, t, ev.h, ev.send || ev.whole, ev.recv || ev.whole, h);
    }
    hide ShutdownDone;
  }

  lemma TakenSides(s: State, t: State, k: nat, send: bool, recv: bool, h: nat)
    requires Known(s, k) && ShutdownDone(s, t, k, send, recv) && h < |s.api|
    ensures |t.api| == |s.api| && t.api[h].occ == s.api[h].occ
    ensures if h == k then Loses(s.api[h].flags, t.api[h].flags, send, recv) && (t.api[h].alive <==> t.api[h].flags != NoSide)
            else t.api[h] == s.api[h]
  {
  }

  lemma FatalSides(s: State, ev: Event, h: nat)
    requires Enabled(s, ev) && h < |s.api| && ev.Shutdown? && ev.answer == Fatal
    requires TakesShutdown(s, ev.h, ev.send, ev.recv, ev.whole)
    ensures var t := Next(s, ev); |t.api| == |s.api| && t.api[h] == s.api[h].(refs := t.api[h].refs)
  {
    hide CloseAll, FinishCall, EngineShutdown;
  }

  /** The handles keep their sides and occupancies; what else may differ is left open. */
  predicate SameSides(s: State, t: State, h: nat)
    requires h < |s.api|
  {
    |t.api| == |s.api| && t.api[h].flags == s.api[h].flags && t.api[h].occ == s.api[h].occ && t.api[h].alive == s.api[h].alive
  }

  lemma StopSides(s: State, e: nat, h: nat)
    requires Enabled(s, PeerStop(e)) && h < |s.api| && s.api[h].alive
    ensures SidesStep(s, PeerStop(e), Next(s, PeerStop(e)), h)
  {
    hide Next, Silent;
    PeerStopEffect(s, e);
    SilentApi();
  }

  /** What is silent changes no handle. */
  lemma SilentApi()
    ensures forall s: State, t: State, e: nat, w: ESlot :: e < |s.eng| && Silent(s, t, e, w) ==> t.api == s.api
  {
  }

  lemma ArrivalSides(s: State, ev: Event, h: nat)
    requires Enabled(s, ev) && h < |s.api| && (ev.Data? || ev.PeerReset? || ev.Writable?)
    ensures SameSides(s, Next(s, ev), h)
  {
    hide Next, Silent;
    SilentApi();
    match ev {
      case Data(e, fin) => DataEffect(s, e, fin);
      case PeerReset(e) => PeerResetEffect(s, e);
      case Writable(e) => WritableEffect(s, e);
    }
  }

  lemma OverSides(s: State, e: nat, gen: nat, graceful: bool, h: nat)
    requires Enabled(s, SendOver(e, gen, graceful)) && h < |s.api| && s.api[h].alive && EventOrder.UsersOk(s)
    ensures SidesStep(s, SendOver(e, gen, graceful), Next(s, SendOver(e, gen, graceful)), h)
  {
    hide ReleaseIfDone;
  }

  lemma GoneSides(s: State, e: nat, h: nat)
    requires Enabled(s, StreamGone(e)) && h < |s.api| && s.api[h].alive && EventOrder.UsersOk(s)
    ensures SidesStep(s, StreamGone(e), Next(s, StreamGone(e)), h)
  {
  }

  lemma AdmissionSides(s: State, ev: Event, h: nat)
    requires Enabled(s, ev) && h < |s.api| && s.api[h].refs > 0
    requires ev.Open? || ev.OpenUnheld? || ev.PeerAlloc? || ev.PeerFree? || ev.PeerStream? || ev.PeerUnheld? || ev.Retire?
    ensures SameSides(s, Next(s, ev), h)
  {
    hide EngineShutdown, FreshWt;
  }

  lemma SessionSides(s: State, ev: Event, h: nat)
    requires Enabled(s, ev) && h < |s.api|
    requires ev.AppReturn? || ev.OpenFatal? || ev.CloseSession? || ev.PeerDrain? || ev.PeerDatagram? ||
             ev.Establish? || ev.Refuse? || ev.Fail? || ev.PeerClose? || ev.Lost?
    ensures SameSides(s, Next(s, ev), h)
  {
    hide CloseAll;
  }

  lemma EndReturnSides(s: State, h: nat)
    requires Enabled(s, Resume) && h < |s.api| && s.api[h].alive
    requires var f := s.stack[|s.stack| - 1]; f.ResetReturn? || (f.DataReturn? && f.fin)
    ensures SidesStep(s, Resume, Next(s, Resume), h)
  {
    ReceiveReturnEffect(s);
    EndReturnOcc(s, h);
    hide Next;
  }

  lemma EndReturnOcc(s: State, h: nat)
    requires Enabled(s, Resume) && h < |s.api|
    requires var f := s.stack[|s.stack| - 1]; f.ResetReturn? || (f.DataReturn? && f.fin)
    ensures |Next(s, Resume).api| == |s.api| && Next(s, Resume).api[h].occ == s.api[h].occ
  {
    hide ReleaseIfDone;
  }

  lemma TeardownSides(s: State, h: nat)
    requires Enabled(s, Resume) && h < |s.api| && s.api[h].alive && s.api[h].refs > 0 && s.stack[|s.stack| - 1].Teardown?
    ensures SidesStep(s, Resume, Next(s, Resume), h)
  {
  }

  lemma ReturnSides(s: State, h: nat)
    requires Enabled(s, Resume) && h < |s.api|
    requires var f := s.stack[|s.stack| - 1]; !f.ResetReturn? && !(f.DataReturn? && f.fin) && !f.Teardown? && !f.StopReturn?
    ensures SameSides(s, Next(s, Resume), h)
  {
    hide ReleaseIfDone, CloseRecv;
  }

  lemma StopReturnSides(s: State, h: nat)
    requires Enabled(s, Resume) && h < |s.api| && s.api[h].alive && s.stack[|s.stack| - 1].StopReturn?
    ensures SidesStep(s, Resume, Next(s, Resume), h)
  {
    StopReturnEffect(s);
    hide Next;
  }

  lemma ResumeSides(s: State, h: nat)
    requires Enabled(s, Resume) && h < |s.api| && s.api[h].alive && s.api[h].refs > 0
    ensures SidesStep(s, Resume, Next(s, Resume), h)
  {
    hide Next;
    var f := s.stack[|s.stack| - 1];
    if f.ResetReturn? || (f.DataReturn? && f.fin) {
      EndReturnSides(s, h);
    } else if f.Teardown? {
      TeardownSides(s, h);
    } else if f.StopReturn? {
      StopReturnSides(s, h);
    } else {
      ReturnSides(s, h);
    }
  }

  /** Calls and events that concern no side. */
  predicate SideFree(ev: Event) {
    !ev.Send? && !ev.Shutdown? && !ev.PeerStop? && !ev.SendOver? && !ev.StreamGone? && !ev.Resume?
  }

  lemma SameIsStep(s: State, ev: Event, t: State, h: nat)
    requires h < |s.api| && s.api[h].alive && SameSides(s, t, h) && SideFree(ev)
    ensures SidesStep(s, ev, t, h)
  {
  }

  lemma QuietSides(s: State, ev: Event, h: nat)
    requires Enabled(s, ev) && h < |s.api| && s.api[h].alive && s.api[h].refs > 0 && SideFree(ev)
    requires !ev.EnableCommit? && !ev.AddRef? && !ev.ReleaseRef?
    ensures SidesStep(s, ev, Next(s, ev), h)
  {
    hide Next, Enabled, SameSides, SidesStep;
    if ev.Data? || ev.PeerReset? || ev.Writable? {
      ArrivalSides(s, ev, h);
    } else if ev.AppReturn? || ev.OpenFatal? || ev.CloseSession? || ev.PeerDrain? || ev.PeerDatagram? ||
              ev.Establish? || ev.Refuse? || ev.Fail? || ev.PeerClose? || ev.Lost? {
      SessionSides(s, ev, h);
    } else {
      AdmissionSides(s, ev, h);
    }
    SameIsStep(s, ev, Next(s, ev), h);
  }

  /** Exactly which steps end a side of a live handle, and which close it. */
  lemma StepSides(s: State, ev: Event, h: nat)
    requires Enabled(s, ev) && h < |s.api| && s.api[h].alive && s.api[h].refs > 0 && EventOrder.UsersOk(s)
    ensures SidesStep(s, ev, Next(s, ev), h)
  {
    hide Next, Enabled, SidesStep;
    match ev {
      case Resume => ResumeSides(s, h);
      case Send(_, _, _) => CallSides(s, ev, h);
      case Shutdown(_, _, _, _, _) => ShutdownSides(s, ev, h);
      case EnableCommit(_) => CallSides(s, ev, h);
      case AddRef(_) => CallSides(s, ev, h);
      case ReleaseRef(_) => CallSides(s, ev, h);
      case PeerStop(e) => StopSides(s, e, h);
      case SendOver(e, gen, graceful) => OverSides(s, e, gen, graceful, h);
      case StreamGone(e) => GoneSides(s, e, h);
      case _ => QuietSides(s, ev, h);
    }
  }

  /** Handle `h` lives, in one occupancy, at every position from `m` to `n`. */
  predicate LivesFrom(ss: seq<State>, m: nat, n: nat, h: nat) {
    m <= n < |ss| && forall k :: m <= k <= n ==> h < |ss[k].api| && ss[k].api[h].alive
  }

  /**
   The sides of a live handle are its history, over every run: from position `m` on, the receive
   side is open if and only if it was and no step since ended it; and so for the send side.
   */
  lemma {:induction false} SidesAreHistory(es: seq<Event>, ss: seq<State>, m: nat, n: nat, h: nat)
    requires Run(es, ss) && n <= |es| && LivesFrom(ss, m, n, h)
    ensures ss[n].api[h].occ == ss[m].api[h].occ
    ensures ss[n].api[h].flags.recv <==> ss[m].api[h].flags.recv && forall k :: m <= k < n ==> !EndsRecv(ss[k], es[k], h)
    ensures ss[n].api[h].flags.send <==> ss[m].api[h].flags.send && forall k :: m <= k < n ==> !EndsSend(ss[k], es[k], h)
  {
    hide Next, Enabled, EndsRecv, EndsSend, EventOrder.Order;
    if m < n {
      SidesAreHistory(es, ss, m, n - 1, h);
      EventOrder.RunOrdered(es, ss, n - 1);
      Referenced(ss[n - 1], h);
      assert Enabled(ss[n - 1], es[n - 1]) && ss[n] == Next(ss[n - 1], es[n - 1]);
      StepSides(ss[n - 1], es[n - 1], h);
    }
  }

  lemma Referenced(s: State, h: nat)
    requires EventOrder.Order(s) && h < |s.api| && s.api[h].alive
    ensures s.api[h].refs > 0 && EventOrder.UsersOk(s)
  {
  }

  /** A live handle closes exactly with the step that ends its last side, over every run. */
  lemma ClosesWithLastSide(es: seq<Event>, ss: seq<State>, n: nat, h: nat)
    requires Run(es, ss) && n < |es| && h < |ss[n].api| && ss[n].api[h].alive
    ensures h < |ss[n + 1].api|
    ensures ss[n + 1].api[h].alive <==> !CutsOff(ss[n], es[n], ss[n + 1].api[h].flags, h)
  {
    hide Next, Enabled, CutsOff, EventOrder.Order;
    EventOrder.RunOrdered(es, ss, n);
    Referenced(ss[n], h);
    assert Enabled(ss[n], es[n]) && ss[n + 1] == Next(ss[n], es[n]);
    StepSides(ss[n], es[n], h);
  }

  /**
   Whether a call of a live handle is taken is for its own flags to say, in every run with a budget
   or guarded opens and outside of callbacks: the engine, asked next, never disagrees.
   */
  lemma TakenIff(es: seq<Event>, ss: seq<State>, n: nat, h: nat, send: bool, recv: bool, whole: bool)
    requires Run(es, ss) && MirrorRuns.Careful(es, ss) && n <= |es| && ss[n].stack == []
    requires h < |ss[n].api| && ss[n].api[h].alive
    ensures Known(ss[n], h)
    ensures TakesShutdown(ss[n], h, send, recv, whole) <==> MayShut(ss[n].api[h].flags, send, recv, whole)
    ensures TakesSend(ss[n], h, true) <==> ss[n].api[h].flags.send
  {
    MirrorRuns.MirrorHolds(es, ss, n);
    assert Mirrored(ss[n], h);
  }
}
