/**
 Session and stream lifecycle across the engine and the public API.

 The engine keeps its stream slots, the API keeps handles that mirror them, and every engine
 event runs application callbacks that may call straight back into the API. The machine below
 makes that reentrancy explicit: `stack` lists what the library still has to do when the
 application returns (innermost last), `inApp` says who is running, and `log` is what the
 application has seen. Transport events arrive only with an empty stack, which assumes that no
 backend delivers one from inside an operation the library asked for.
 */
module StreamMirror {

  /** The directions of a stream: send side usable, FIN awaiting commitment, receive side open. */
  datatype Flags = Flags(send: bool, fin: bool, recv: bool)

  const Shut := Flags(false, false, false)

  predicate AnyOpen(f: Flags) {
    f.send || f.fin || f.recv
  }

  /** An engine slot is free, used by something that is no WebTransport stream, or by one that is. */
  datatype Kind = Free | Other | Wt

  datatype ESlot = ESlot(
    kind: Kind,
    gen: nat,
    flags: Flags,
    drain: bool,
    commit: bool,
    sent: bool,
    local: bool,
    bidi: bool,
    user: int,
    resident: bool)

  /** A handle slot of the API. `occ` numbers its occupancies. */
  datatype ASlot = ASlot(
    refs: int,
    appRefs: nat,
    alive: bool,
    flags: Flags,
    commit: bool,
    local: bool,
    bidi: bool,
    es: nat,
    occ: nat)

  /** What is left to do when the callback on top returns. */
  datatype Frame =
    | DataReturn(h: nat, e: nat, gen: nat, fin: bool)
    | ResetReturn(h: nat, e: nat, gen: nat)
    | StopReturn(h: nat, e: nat, gen: nat, commit: bool)
    | CommitReturn(h: nat, e: nat, gen: nat)
    | ClosedReturn(h: nat)
    | DropHold(h: nat)
    | EngineFin(e: nat, gen: nat)
    | EngineDone(e: nat, gen: nat, checked: bool)
    | EngineRelease(e: nat, gen: nat)
    | Teardown(next: nat)
    | FireClosed
    | FireFailed
    | FireDeferred
    | Plain

  datatype Phase = Connecting | Active | Over

  /** What the application sees; stream events name the occupancy they are about. */
  datatype Seen =
    | Established
    | Refused
    | Failed
    | Closed
    | StreamOpened(occ: nat)
    | StreamData(occ: nat, fin: bool)
    | StreamReset(occ: nat)
    | StreamStop(occ: nat)
    | StreamCommitted(occ: nat)
    | StreamWritable(occ: nat)
    | StreamClosed(occ: nat)
    | Draining
    | Datagram

  /** The session around the streams. */
  datatype Meta = Meta(
    phase: Phase,
    connClosed: bool,
    terminalFired: bool,
    deferred: bool,
    commitDepth: nat,
    nextGen: nat,
    nextOcc: nat,
    budgeted: bool,
    drained: bool)

  datatype State = State(eng: seq<ESlot>, api: seq<ASlot>, m: Meta, stack: seq<Frame>, inApp: bool, log: seq<Seen>)

  datatype Answer = Ok | Refusal | Fatal

  datatype Event =
    | AppReturn
    | Resume
    | Send(h: nat, fin: bool, ok: bool)
    | Shutdown(h: nat, send: bool, recv: bool, whole: bool, answer: Answer)
    | EnableCommit(h: nat)
    | Open(bidi: bool, e: nat, h: nat)
    | OpenUnheld(bidi: bool, e: nat)
    | OpenFatal
    | CloseSession(rawFails: bool)
    | AddRef(h: nat)
    | ReleaseRef(h: nat)
    | PeerAlloc(e: nat)
    | PeerFree(e: nat)
    | PeerStream(e: nat, bidi: bool, h: nat)
    | PeerUnheld(e: nat, bidi: bool, ok: bool)
    | Data(e: nat, fin: bool)
    | PeerReset(e: nat)
    | PeerStop(e: nat)
    | SendOver(e: nat, gen: nat, graceful: bool)
    | StreamGone(e: nat)
    | Writable(e: nat)
    | PeerDrain
    | PeerDatagram
    | Establish
    | Refuse
    | Fail
    | PeerClose(rawFails: bool)
    | Lost
    | Retire(e: nat)

  // ---------------------------------------------------------------- engine pieces

  /** A stream lives until both directions are done and no drain is awaited. */
  function ReleaseIfDone(e: ESlot): ESlot {
    if e.kind == Wt && !AnyOpen(e.flags) && !e.drain then e.(kind := Free) else e
  }

  function ShutSides(f: Flags, send: bool, recv: bool): Flags {
    Flags(f.send && !send, f.fin && !send, f.recv && !recv)
  }

  function EngineShutdown(e: ESlot, send: bool, recv: bool): ESlot {
    ReleaseIfDone(e.(flags := ShutSides(e.flags, send, recv), drain := e.drain || recv))
  }

  /** The end of the session closes every stream; open receive sides keep draining. */
  function EngineClose(e: ESlot): ESlot {
    if e.kind != Wt then e
    else ReleaseIfDone(e.(flags := Shut, drain := e.drain || e.flags.recv))
  }

  function CloseAll(eng: seq<ESlot>): (r: seq<ESlot>)
    ensures |r| == |eng|
    ensures forall i :: 0 <= i < |eng| ==> r[i] == EngineClose(eng[i])
  {
    seq(|eng|, i requires 0 <= i < |eng| => EngineClose(eng[i]))
  }

  function FreshWt(gen: nat, local: bool, bidi: bool, user: int, resident: bool): ESlot {
    ESlot(Wt, gen, Flags(local || bidi, false, !local || bidi), false, false, false, local, bidi, user, resident)
  }

  // ---------------------------------------------------------------- API pieces

  function Put(s: State, e: nat, v: ESlot): State
    requires e < |s.eng|
  {
    s.(eng := s.eng[e := v])
  }

  function Handle(s: State, h: nat, v: ASlot): State
    requires h < |s.api|
  {
    s.(api := s.api[h := v])
  }

  /** Run a callback; `frames` is what the library does once it returns. */
  function Call(s: State, seen: Seen, frames: seq<Frame>): State {
    s.(log := s.log + [seen], stack := s.stack + frames, inApp := true)
  }

  /** Back in the library with nothing to report: the application runs again once the stack is empty. */
  function Done(s: State): State {
    s.(inApp := s.stack == [])
  }

  function Drop(s: State, h: nat): State
    requires h < |s.api|
  {
    Handle(s, h, s.api[h].(refs := s.api[h].refs - 1))
  }

  /** Sever the handle from its engine slot, in both directions. */
  function Unlink(s: State, h: nat): State
    requires h < |s.api| && s.api[h].es < |s.eng|
  {
    var e := s.api[h].es;
    Put(Handle(s, h, s.api[h].(alive := false)), e, s.eng[e].(user := -1))
  }

  /** The one closed event of a handle; `frames` follows the release of its baseline reference. */
  function Terminal(s: State, h: nat, frames: seq<Frame>): State
    requires h < |s.api| && s.api[h].es < |s.eng|
  {
    Call(Unlink(s, h), StreamClosed(s.api[h].occ), frames + [ClosedReturn(h)])
  }

  predicate Finished(a: ASlot) {
    a.alive && !AnyOpen(a.flags)
  }

  /** Finish an API call: close the handle if both sides are done. */
  function FinishCall(s: State, h: nat): State
    requires h < |s.api| && s.api[h].es < |s.eng|
  {
    if Finished(s.api[h])
    then Terminal(Handle(s, h, s.api[h].(refs := s.api[h].refs + 1)), h, [DropHold(h)])
    else s
  }

  /** Take a handle slot for engine slot `e`. */
  function Acquire(s: State, h: nat, e: nat, local: bool, bidi: bool): State
    requires h < |s.api|
  {
    Handle(s, h, ASlot(1, 0, true, Flags(local || bidi, false, !local || bidi), false, local, bidi, e, s.m.nextOcc))
      .(m := s.m.(nextOcc := s.m.nextOcc + 1))
  }

  // ---------------------------------------------------------------- endings

  /**
   The terminal transition of an active session. When a raw stream shutdown fails on the way,
   the connection dies and the application is told of a failure instead.
   */
  function EndSession(s: State, rawFails: bool): State {
    s.(eng := CloseAll(s.eng), m := s.m.(phase := Over, connClosed := s.m.connClosed || rawFails, terminalFired := true),
       stack := s.stack + [if rawFails then FireFailed else FireClosed, Teardown(0)], inApp := false)
  }

  /** The connection is gone, whatever the session was doing. */
  function LoseConnection(s: State): State {
    if s.m.connClosed then s
    else
      match s.m.phase
      case Active => EndSession(s.(m := s.m.(connClosed := true)), false)
      case Connecting =>
        Call(s.(m := s.m.(connClosed := true, phase := Over, terminalFired := true)), Failed, [Plain])
      case Over => s.(m := s.m.(connClosed := true))
  }

  // ---------------------------------------------------------------- returning from callbacks

  function FinishFin(s: State, e: nat, gen: nat): State
    requires e < |s.eng|
  {
    var v := s.eng[e];
    if v.gen == gen && v.kind == Wt
    then Put(s, e, ReleaseIfDone(v.(flags := v.flags.(recv := false), drain := false)))
    else s
  }

  function FinishDone(s: State, e: nat, gen: nat, checked: bool): State
    requires e < |s.eng|
  {
    if checked && s.eng[e].gen != gen then s else Put(s, e, ReleaseIfDone(s.eng[e]))
  }

  /** The frame names slots that exist. */
  predicate InRange(s: State, f: Frame) {
    match f
    case DataReturn(h, e, _, _) => h < |s.api| && e < |s.eng| && s.api[h].es < |s.eng|
    case ResetReturn(h, e, _) => h < |s.api| && e < |s.eng| && s.api[h].es < |s.eng|
    case StopReturn(h, e, _, _) => h < |s.api| && e < |s.eng| && s.api[h].es < |s.eng|
    case CommitReturn(h, e, _) => h < |s.api| && e < |s.eng|
    case ClosedReturn(h) => h < |s.api|
    case DropHold(h) => h < |s.api|
    case EngineFin(e, _) => e < |s.eng|
    case EngineDone(e, _, _) => e < |s.eng|
    case EngineRelease(e, _) => e < |s.eng|
    case Teardown(i) => i <= |s.api| && (i < |s.api| && s.api[i].alive ==> s.api[i].es < |s.eng|)
    case _ => true
  }

  /** After a callback that closed the receive side: by the end of the stream, or by a reset. */
  function CloseRecv(s: State, h: nat, tail: Frame): State
    requires h < |s.api| && s.api[h].es < |s.eng|
    requires (tail.EngineFin? || tail.EngineDone?) && tail.e < |s.eng|
  {
    var a := s.api[h];
    var t := if a.alive then Handle(s, h, a.(flags := a.flags.(recv := false))) else s;
    if Finished(t.api[h]) then Terminal(t, h, [tail, DropHold(h)])
    else
      var d := Drop(t, h);
      Done(if tail.EngineFin? then FinishFin(d, tail.e, tail.gen)
           else FinishDone(d, tail.e, tail.gen, tail.checked))
  }

  function Resumed(s: State, f: Frame): State
    requires InRange(s, f)
  {
    match f
    case DataReturn(h, e, gen, fin) =>
      if fin then CloseRecv(s, h, EngineFin(e, gen)) else Done(Drop(s, h))
    case ResetReturn(h, e, gen) => CloseRecv(s, h, EngineDone(e, gen, false))
    case StopReturn(h, e, gen, commit) =>
      if s.api[h].commit && Finished(s.api[h])
      then Terminal(s, h, (if commit then [EngineDone(e, gen, true)] else []) + [DropHold(h)])
      else
        var d := Drop(s, h);
        Done(if commit then FinishDone(d, e, gen, true) else d)
    case CommitReturn(h, e, gen) =>
      Call(s.(m := s.m.(commitDepth := if s.m.commitDepth > 0 then s.m.commitDepth - 1 else 0)), StreamClosed(s.api[h].occ),
           [EngineDone(e, gen, true), FireDeferred, DropHold(h), ClosedReturn(h)])
    case ClosedReturn(h) => Done(Drop(s, h))
    case DropHold(h) => Done(Drop(s, h))
    case EngineFin(e, gen) => Done(FinishFin(s, e, gen))
    case EngineDone(e, gen, checked) => Done(FinishDone(s, e, gen, checked))
    case EngineRelease(e, _) => Done(Put(s, e, s.eng[e].(kind := Free)))
    case Teardown(i) =>
      if i == |s.api| then Done(s)
      else
        var t := s.(stack := s.stack + [Teardown(i + 1)], inApp := false);
        if s.api[i].refs > 0 && s.api[i].alive
        then Terminal(Handle(t, i, s.api[i].(flags := Shut)), i, [])
        else t
    case FireClosed => if s.m.commitDepth != 0 then Done(s.(m := s.m.(deferred := true))) else Call(s, Closed, [Plain])
    case FireFailed => Call(s, Failed, [Plain])
    case FireDeferred =>
      if s.m.commitDepth == 0 && s.m.deferred then Call(s.(m := s.m.(deferred := false)), Closed, [Plain]) else Done(s)
    case Plain => Done(s)
  }

  // ---------------------------------------------------------------- the steps

  /** The application may name a handle it was given and that is still referenced. */
  predicate Known(s: State, h: nat) {
    h < |s.api| && s.api[h].refs > 0 && s.api[h].es < |s.eng|
  }

  /** A transport event about a WebTransport stream. */
  predicate OnWt(s: State, e: nat) {
    e < |s.eng| && s.eng[e].kind == Wt && !s.m.connClosed &&
    (s.eng[e].user >= 0 ==> s.eng[e].user < |s.api| && s.api[s.eng[e].user].es < |s.eng|)
  }

  /** A stream with an open side, which an ending session has to shut down at the transport. */
  predicate AnyStream(s: State) {
    exists e :: 0 <= e < |s.eng| && s.eng[e].kind == Wt && AnyOpen(s.eng[e].flags)
  }

  predicate Enabled(s: State, ev: Event) {
    match ev
    case AppReturn => s.inApp && s.stack != []
    case Resume => !s.inApp && s.stack != [] && InRange(s, s.stack[|s.stack| - 1])
    case Send(h, _, _) => s.inApp && Known(s, h)
    case Shutdown(h, send, recv, whole, _) => s.inApp && Known(s, h) && (whole || send || recv)
    case EnableCommit(h) => s.inApp && Known(s, h)
    case Open(_, e, h) =>
      s.inApp && e < |s.eng| && s.eng[e].kind == Free && !s.eng[e].resident && h < |s.api| && s.api[h].refs == 0
    case OpenUnheld(_, e) => s.inApp && e < |s.eng| && s.eng[e].kind == Free && !s.eng[e].resident
    case OpenFatal => s.inApp
    case CloseSession(rawFails) => s.inApp && (rawFails ==> AnyStream(s))
    case AddRef(h) => s.inApp && Known(s, h)
    case ReleaseRef(h) => s.inApp && Known(s, h)
    case PeerAlloc(e) => s.stack == [] && e < |s.eng| && s.eng[e].kind == Free && !s.eng[e].resident
    case PeerFree(e) => s.stack == [] && e < |s.eng| && s.eng[e].kind == Other
    case PeerStream(e, _, h) =>
      s.stack == [] && e < |s.eng| && s.eng[e].kind == Other && s.m.phase == Active && !s.m.connClosed &&
      h < |s.api| && s.api[h].refs == 0
    case PeerUnheld(e, _, _) =>
      s.stack == [] && e < |s.eng| && s.eng[e].kind == Other && s.m.phase == Active && !s.m.connClosed
    case Data(e, _) => s.stack == [] && OnWt(s, e) && (s.eng[e].flags.recv || s.eng[e].drain)
    case PeerReset(e) => s.stack == [] && OnWt(s, e) && (s.eng[e].flags.recv || s.eng[e].drain)
    case PeerStop(e) => s.stack == [] && OnWt(s, e)
    case SendOver(e, gen, graceful) =>
      s.stack == [] && OnWt(s, e) && s.m.phase == Active && s.eng[e].gen == gen && s.eng[e].commit &&
      s.eng[e].local && !s.eng[e].bidi && (graceful ==> s.eng[e].flags.fin)
    case StreamGone(e) => s.stack == [] && OnWt(s, e)
    case Writable(e) => s.stack == [] && OnWt(s, e)
    case PeerDrain => s.stack == []
    case PeerDatagram => s.stack == []
    case Establish => s.stack == [] && s.m.phase == Connecting && !s.m.connClosed
    case Refuse => s.stack == [] && s.m.phase == Connecting && !s.m.connClosed
    case Fail => s.stack == [] && s.m.phase == Connecting && !s.m.connClosed
    case PeerClose(rawFails) => s.stack == [] && s.m.phase == Active && !s.m.connClosed && (rawFails ==> AnyStream(s))
    case Lost => s.stack == []
    case Retire(e) => s.stack == [] && e < |s.eng| && s.eng[e].kind == Free
  }

  function Next(s: State, ev: Event): State
    requires Enabled(s, ev)
  {
    match ev
    case AppReturn => s.(inApp := false)
    case Resume =>
      var n := |s.stack| - 1;
      Resumed(s.(stack := s.stack[..n]), s.stack[n])
    case Send(h, fin, ok) => AfterSend(s, h, fin, ok)
    case Shutdown(h, send, recv, whole, answer) => AfterShutdown(s, h, send, recv, whole, answer)
    case EnableCommit(h) =>
      var a := s.api[h];
      var v := s.eng[a.es];
      if !a.alive || !a.local || a.bidi || s.m.connClosed || s.m.phase != Active || v.kind != Wt ||
         !v.local || v.bidi || !v.flags.send || v.sent
      then s
      else Put(Handle(s, h, a.(commit := true)), a.es, v.(commit := true))
    case Open(bidi, e, h) =>
      if s.m.terminalFired || s.m.connClosed || s.m.phase != Active then s
      else
        var t := Acquire(s, h, e, true, bidi);
        Put(t, e, FreshWt(s.m.nextGen + 1, true, bidi, h, s.m.budgeted)).(m := t.m.(nextGen := s.m.nextGen + 1))
    case OpenUnheld(bidi, e) =>
      if s.m.terminalFired || s.m.connClosed || s.m.phase != Active || s.m.budgeted then s
      else
        Put(s, e, EngineShutdown(FreshWt(s.m.nextGen + 1, true, bidi, -1, s.m.budgeted), true, bidi))
          .(m := s.m.(nextGen := s.m.nextGen + 1))
    case OpenFatal =>
      if s.m.terminalFired || s.m.connClosed || s.m.phase != Active then s else LoseConnection(s)
    case CloseSession(rawFails) =>
      if s.m.terminalFired || s.m.connClosed || s.m.phase != Active then s else EndSession(s, rawFails)
    case AddRef(h) =>
      Handle(s, h, s.api[h].(refs := s.api[h].refs + 1, appRefs := s.api[h].appRefs + 1))
    case ReleaseRef(h) =>
      if s.api[h].appRefs == 0 then s
      else Handle(s, h, s.api[h].(refs := s.api[h].refs - 1, appRefs := s.api[h].appRefs - 1))
    case PeerAlloc(e) =>
      Put(s, e, ESlot(Other, s.m.nextGen + 1, Shut, false, false, false, false, false, -1, s.m.budgeted))
        .(m := s.m.(nextGen := s.m.nextGen + 1))
    case PeerFree(e) => Put(s, e, s.eng[e].(kind := Free))
    case PeerStream(e, bidi, h) =>
      var t := Acquire(s, h, e, false, bidi);
      Call(Put(t, e, FreshWt(s.eng[e].gen, false, bidi, h, s.eng[e].resident)), StreamOpened(s.m.nextOcc), [Plain])
    case PeerUnheld(e, bidi, ok) =>
      var v := FreshWt(s.eng[e].gen, false, bidi, -1, s.eng[e].resident);
      Put(s, e, if ok then EngineShutdown(v, bidi, true) else v)
    case Data(e, fin) => AfterData(s, e, fin)
    case PeerReset(e) => AfterReset(s, e)
    case PeerStop(e) => AfterStop(s, e)
    case SendOver(e, gen, graceful) => AfterSendOver(s, e, gen, graceful)
    case StreamGone(e) => AfterGone(s, e)
    case Writable(e) => AfterWritable(s, e)
    case PeerDrain =>
      if s.m.connClosed || s.m.drained || s.m.phase != Active then s
      else Call(s.(m := s.m.(drained := true)), Draining, [Plain])
    case PeerDatagram => if s.m.connClosed || s.m.phase != Active then s else Call(s, Datagram, [Plain])
    case Establish => Call(s.(m := s.m.(phase := Active)), Established, [Plain])
    case Refuse => Call(s.(m := s.m.(phase := Over, terminalFired := true)), Refused, [Plain])
    case Fail => Call(s.(m := s.m.(phase := Over, terminalFired := true)), Failed, [Plain])
    case PeerClose(rawFails) => EndSession(s, rawFails)
    case Lost => LoseConnection(s)
    case Retire(e) => Put(s, e, s.eng[e].(resident := false))
  }

  /** The application sends, perhaps with the end of the stream. */
  function AfterSend(s: State, h: nat, fin: bool, ok: bool): State
    requires Known(s, h)
  {
    var a := s.api[h];
    var v := s.eng[a.es];
    if !a.alive || !a.flags.send || s.m.connClosed || s.m.phase == Over || v.kind != Wt || !v.flags.send || !ok then s
    else if !fin then Put(s, a.es, v.(sent := true))
    else
      var v' := ReleaseIfDone(v.(sent := true, flags := v.flags.(send := false, fin := v.commit)));
      FinishCall(Put(Handle(s, h, a.(flags := a.flags.(send := false, fin := a.commit))), a.es, v'), h)
  }

  /** The application resets, stops or aborts. */
  function AfterShutdown(s: State, h: nat, send: bool, recv: bool, whole: bool, answer: Answer): State
    requires Known(s, h)
  {
    var a := s.api[h];
    var v := s.eng[a.es];
    var apiOk := if whole then AnyOpen(a.flags)
                 else (send ==> a.flags.send || a.flags.fin) && (recv ==> a.flags.recv);
    var engOk := if whole then AnyOpen(v.flags)
                 else (send ==> v.flags.send || v.flags.fin) && (recv ==> v.flags.recv);
    if !a.alive || !apiOk || s.m.connClosed || v.kind != Wt || !engOk || answer == Refusal then s
    else if answer == Fatal
    then
      var held := Handle(s, h, a.(refs := a.refs + 1));
      LoseConnection(held.(stack := held.stack + [DropHold(h)], inApp := false))
    else
      var abortSend := if whole then v.flags.send || v.flags.fin else send;
      var abortRecv := if whole then v.flags.recv else recv;
      var flags := if whole then Shut else ShutSides(a.flags, send, recv);
      FinishCall(Put(Handle(s, h, a.(flags := flags)), a.es, EngineShutdown(v, abortSend, abortRecv)), h)
  }

  function AfterData(s: State, e: nat, fin: bool): State
    requires OnWt(s, e)
  {
    var v := s.eng[e];
    if v.drain
    then (if fin then Put(s, e, ReleaseIfDone(v.(drain := false))) else s)
    else if v.user < 0
    then (if fin then FinishFin(s, e, v.gen) else s)
    else
      var a := s.api[v.user];
      Call(Handle(s, v.user, a.(refs := a.refs + 1)), StreamData(a.occ, fin), [DataReturn(v.user, e, v.gen, fin)])
  }

  function AfterReset(s: State, e: nat): State
    requires OnWt(s, e)
  {
    var v := s.eng[e];
    if v.drain then Put(s, e, ReleaseIfDone(v.(drain := false)))
    else
      var v' := v.(flags := v.flags.(recv := false));
      if v.user < 0 then Put(s, e, ReleaseIfDone(v'))
      else
        var a := s.api[v.user];
        Call(Put(Handle(s, v.user, a.(refs := a.refs + 1)), e, v'), StreamReset(a.occ),
             [ResetReturn(v.user, e, v.gen)])
  }

  /** Legacy streams stay usable after a stop; streams with commitment resolve without it. */
  function AfterStop(s: State, e: nat): State
    requires OnWt(s, e)
  {
    var v := s.eng[e];
    var v' := if v.commit then v.(flags := ShutSides(v.flags, true, false)) else v;
    if v.user < 0 then Put(s, e, if v.commit then ReleaseIfDone(v') else v')
    else
      var a := s.api[v.user];
      var flags := if a.commit then ShutSides(a.flags, true, false) else a.flags;
      Call(Put(Handle(s, v.user, a.(refs := a.refs + 1, flags := flags)), e, v'), StreamStop(a.occ),
           [StopReturn(v.user, e, v.gen, v.commit)])
  }

  /** The transport is done with the send side of a stream with commitment. */
  function AfterSendOver(s: State, e: nat, gen: nat, graceful: bool): State
    requires OnWt(s, e)
  {
    var v := s.eng[e];
    var v' := v.(flags := ShutSides(v.flags, true, false));
    if v.user < 0 then Put(s, e, ReleaseIfDone(v'))
    else
      var h := v.user;
      var a := s.api[h];
      var t := Put(s, e, v');
      if graceful then
        if !a.alive || !a.commit || !a.flags.fin then Put(s, e, ReleaseIfDone(v'))
        else
          var held := Handle(t, h, a.(refs := a.refs + 1, flags := ShutSides(a.flags, true, false)));
          Call(Unlink(held, h).(m := s.m.(commitDepth := s.m.commitDepth + 1)), StreamCommitted(a.occ), [CommitReturn(h, e, gen)])
      else if !a.alive then Put(s, e, ReleaseIfDone(v'))
      else
        var held := Handle(t, h, a.(refs := a.refs + 1, flags := Shut));
        Terminal(held, h, [EngineDone(e, gen, true), DropHold(h)])
  }

  /** The transport stream is gone as a whole. */
  function AfterGone(s: State, e: nat): State
    requires OnWt(s, e)
  {
    var v := s.eng[e];
    var v' := v.(flags := Shut, drain := false);
    if !AnyOpen(v.flags) || v.user < 0 || !s.api[v.user].alive then Put(s, e, v'.(kind := Free))
    else
      var h := v.user;
      var a := s.api[h];
      var held := Handle(Put(s, e, v'), h, a.(refs := a.refs + 1, flags := Shut));
      Terminal(held, h, [EngineRelease(e, v.gen), DropHold(h)])
  }

  /** The transport has room again: reported while the slot still leads to a handle. */
  function AfterWritable(s: State, e: nat): State
    requires OnWt(s, e)
  {
    var h := s.eng[e].user;
    if h < 0 then s
    else
      var a := s.api[h];
      Call(Handle(s, h, a.(refs := a.refs + 1)), StreamWritable(a.occ), [DropHold(h)])
  }

  // ---------------------------------------------------------------- runs

  const EmptyEngine := ESlot(Free, 0, Shut, false, false, false, false, false, -1, false)
  const EmptyHandle := ASlot(0, 0, false, Shut, false, false, false, 0, 0)

  function Init(engine: nat, handles: nat, budgeted: bool): State {
    State(seq(engine, _ => EmptyEngine), seq(handles, _ => EmptyHandle),
          Meta(Connecting, false, false, false, 0, 0, 0, budgeted, false), [], true, [])
  }

  /** The successive states of one connection under the events `es`. */
  predicate Run(es: seq<Event>, ss: seq<State>) {
    |ss| == |es| + 1 && ss[0] == Init(|ss[0].eng|, |ss[0].api|, ss[0].m.budgeted) &&
    forall i :: 0 <= i < |es| ==> Enabled(ss[i], es[i]) && ss[i + 1] == Next(ss[i], es[i])
  }

  /** The handle and its engine slot point at each other and agree on every direction. */
  predicate Mirrored(s: State, h: nat)
    requires h < |s.api|
  {
    var a := s.api[h];
    a.es < |s.eng| &&
    var v := s.eng[a.es];
    v.kind == Wt && v.user == h && v.flags == a.flags && v.commit == a.commit &&
    v.local == a.local && v.bidi == a.bidi
  }

  // ---------------------------------------------------------------- what every step keeps

  /** References a frame accounts for: the hold of a callback and a baseline awaiting release. */
  function Weight(f: Frame, h: nat): nat {
    match f
    case DataReturn(k, _, _, _) => if k == h then 1 else 0
    case ResetReturn(k, _, _) => if k == h then 1 else 0
    case StopReturn(k, _, _, _) => if k == h then 1 else 0
    case CommitReturn(k, _, _) => if k == h then 2 else 0
    case ClosedReturn(k) => if k == h then 1 else 0
    case DropHold(k) => if k == h then 1 else 0
    case _ => 0
  }

  function Weights(fs: seq<Frame>, h: nat): nat {
    if fs == [] then 0 else Weights(fs[..|fs| - 1], h) + Weight(fs[|fs| - 1], h)
  }

  /** Frames that a transport event leaves behind; they can only be at the bottom. */
  predicate IsRoot(f: Frame) {
    f.DataReturn? || f.ResetReturn? || f.StopReturn? || f.CommitReturn? ||
    f.EngineFin? || f.EngineDone? || f.EngineRelease?
  }

  /** The handle is inside its own reset callback. */
  predicate InReset(s: State, h: nat) {
    s.stack != [] && s.stack[0].ResetReturn? && s.stack[0].h == h
  }

  /**
   Inside the reset callback the engine is ahead: its receive side is gone, or the whole slot,
   which at most a stream that got no handle has taken since.
   */
  predicate Lagging(s: State, h: nat)
    requires h < |s.api|
  {
    var a := s.api[h];
    a.es < |s.eng| && a.flags.recv &&
    var v := s.eng[a.es];
    if v.kind == Wt && v.user == h
    then v.flags == a.flags.(recv := false) && v.commit == a.commit && v.local == a.local && v.bidi == a.bidi && !v.drain
    else Vacated(v) && !a.flags.send && !a.flags.fin
  }

  /** Nobody's: free, or draining after an open that found no handle. */
  predicate Vacated(v: ESlot) {
    v.kind == Free || (v.kind == Wt && v.user < 0 && v.flags == Shut)
  }

  predicate HandleOk(s: State, h: nat)
    requires h < |s.api|
  {
    var a := s.api[h];
    a.refs == a.appRefs + Weights(s.stack, h) + (if a.alive then 1 else 0) &&
    (a.refs > 0 ==> a.es < |s.eng|) && Agrees(s, h)
  }

  /** The handle is inside the stop callback that resolved its send side. */
  predicate InStop(s: State, h: nat) {
    s.stack != [] && s.stack[0].StopReturn? && s.stack[0].h == h && s.stack[0].commit
  }

  /** While the session lives, a live handle has an open side and agrees with its engine slot. */
  predicate Agrees(s: State, h: nat)
    requires h < |s.api|
  {
    s.api[h].alive && !s.m.terminalFired ==>
      (AnyOpen(s.api[h].flags) || InStop(s, h)) && (if InReset(s, h) then Lagging(s, h) else Mirrored(s, h))
  }

  predicate SlotOk(s: State, e: nat)
    requires e < |s.eng|
  {
    var v := s.eng[e];
    v.gen <= s.m.nextGen &&
    (v.kind == Wt ==>
      s.m.phase != Connecting && (AnyOpen(v.flags) ==> s.m.phase == Active) &&
      !(v.flags.recv && v.drain) &&
      (AnyOpen(v.flags) || v.drain || RootOn(s, e)) &&
      (v.user >= 0 ==> v.user < |s.api| && s.api[v.user].alive && s.api[v.user].es == e))
  }

  /** The engine still has to finish with this very occupant of the slot. */
  predicate RootOn(s: State, e: nat)
    requires e < |s.eng|
  {
    s.stack != [] && IsRoot(s.stack[0]) && !s.stack[0].DataReturn? && (s.stack[0].StopReturn? ==> s.stack[0].commit) &&
    s.stack[0].e == e && s.stack[0].gen == s.eng[e].gen
  }

  /** The occupant the frame was left for, if it is still there, carries handle `h` or none. */
  predicate Carries(s: State, e: nat, gen: nat, h: int) {
    e < |s.eng| && gen <= s.eng[e].gen &&
    (s.eng[e].gen == gen && s.eng[e].kind == Wt ==> s.eng[e].user < 0 || s.eng[e].user == h)
  }

  /** The frame of a callback about handle `h`, which keeps its slot for as long as it lives. */
  predicate Serves(s: State, h: nat, e: nat, gen: nat) {
    h < |s.api| && Carries(s, e, gen, h) && s.api[h].es == e && (s.api[h].alive ==> s.eng[e].gen == gen)
  }

  /** The same, but the slot may have been vacated under a live handle. */
  predicate Outlives(s: State, h: nat, e: nat, gen: nat) {
    h < |s.api| && Carries(s, e, gen, h) && s.api[h].es == e &&
    (s.api[h].alive && s.eng[e].gen != gen ==> s.eng[e].user == -1)
  }

  predicate FrameOk(s: State, f: Frame) {
    match f
    case DataReturn(h, e, gen, _) => Serves(s, h, e, gen)
    case ResetReturn(h, e, gen) => Outlives(s, h, e, gen)
    case StopReturn(h, e, gen, commit) =>
      Serves(s, h, e, gen) && (commit && s.eng[e].gen == gen && s.eng[e].kind == Wt ==> s.eng[e].commit)
    case CommitReturn(h, e, gen) => h < |s.api| && Carries(s, e, gen, -1) && !s.api[h].alive
    case ClosedReturn(h) => h < |s.api| && !s.api[h].alive
    case DropHold(h) => h < |s.api|
    case EngineFin(e, gen) => Carries(s, e, gen, -1)
    case EngineDone(e, gen, _) => Carries(s, e, gen, -1)
    case EngineRelease(e, gen) =>
      e < |s.eng| && s.eng[e].gen == gen &&
      if s.eng[e].kind == Wt then s.eng[e].user < 0 else s.m.terminalFired && s.eng[e].kind == Free
    case Teardown(i) => s.m.terminalFired && i <= |s.api|
    case FireClosed => s.m.terminalFired
    case FireFailed => s.m.terminalFired
    case FireDeferred => true
    case Plain => true
  }

  predicate StackOk(s: State) {
    (forall k :: 0 <= k < |s.stack| ==> FrameOk(s, s.stack[k])) &&
    (forall k :: 0 < k < |s.stack| ==> !IsRoot(s.stack[k])) &&
    (s.inApp || s.stack != [])
  }

  /** Once the session is over, the handles still alive are those the teardown has yet to reach. */
  predicate EndingOk(s: State) {
    (s.m.terminalFired <==> s.m.phase == Over) && (s.m.connClosed ==> s.m.phase == Over) &&
    (s.m.phase == Connecting ==> forall h :: 0 <= h < |s.api| ==> !s.api[h].alive) &&
    (s.m.terminalFired ==> forall h :: 0 <= h < |s.api| && s.api[h].alive ==> TornLater(s, h))
  }

  predicate TornLater(s: State, h: nat) {
    exists k :: 0 <= k < |s.stack| && s.stack[k].Teardown? && s.stack[k].next <= h
  }

  /** No two live handles share an engine slot. */
  predicate Distinct(s: State) {
    forall g, h :: 0 <= g < h < |s.api| && s.api[g].alive && s.api[h].alive ==> s.api[g].es != s.api[h].es
  }

  predicate Inv(s: State) {
    (forall h :: 0 <= h < |s.api| ==> HandleOk(s, h)) &&
    (forall e :: 0 <= e < |s.eng| ==> SlotOk(s, e)) &&
    StackOk(s) && EndingOk(s) && Distinct(s)
  }

  // ---------------------------------------------------------------- the open that must not happen

  /** An open that goes through, rather than being refused on the spot. */
  predicate TakesEffect(s: State) {
    !s.m.terminalFired && !s.m.connClosed && s.m.phase == Active
  }

  /**
   The application is inside the callback that reports the reset of a stream, the handle of that
   stream is still alive, and `e` is its slot.
   */
  predicate Perilous(s: State, e: nat) {
    s.stack != [] && s.stack[0].ResetReturn? && s.stack[0].e == e && s.stack[0].h < |s.api| && s.api[s.stack[0].h].alive
  }

  /** No stream moves, with a handle of its own, into the slot of the stream whose reset is being reported. */
  predicate Guarded(s: State, ev: Event) {
    ev.Open? && TakesEffect(s) ==> !Perilous(s, ev.e)
  }

  // ---------------------------------------------------------------- stack lemmas

  lemma {:induction false} WeightsConcat(xs: seq<Frame>, ys: seq<Frame>, h: nat)
    ensures Weights(xs + ys, h) == Weights(xs, h) + Weights(ys, h)
  {
    if ys == [] {
      assert xs + ys == xs;
    } else {
      var n := |ys| - 1;
      WeightsConcat(xs, ys[..n], h);
      assert (xs + ys)[..|xs + ys| - 1] == xs + ys[..n];
    }
  }

  lemma NoFrames()
    ensures forall h: nat :: Weights([], h) == 0
  {
  }

  lemma TopWeighs(fs: seq<Frame>, h: nat)
    requires fs != []
    ensures Weights(fs, h) >= Weight(fs[|fs| - 1], h)
  {
  }

  lemma {:induction false} NoWeight(fs: seq<Frame>, h: nat, k: nat)
    requires Weights(fs, h) == 0 && k < |fs|
    ensures Weight(fs[k], h) == 0
  {
    var n := |fs| - 1;
    if k < n {
      NoWeight(fs[..n], h, k);
    }
  }

  // ---------------------------------------------------------------- one slot and one handle change

  /** A step that leaves the ending alone. */
  predicate SameEnding(s: State, t: State) {
    t.m.phase == s.m.phase && t.m.connClosed == s.m.connClosed && t.m.terminalFired == s.m.terminalFired &&
    |t.eng| == |s.eng| && |t.api| == |s.api|
  }

  /** The slot keeps its occupant and may lose its handle, never gain one. */
  predicate SameOccupant(v: ESlot, w: ESlot) {
    w.gen == v.gen && (w.user == v.user || w.user == -1) && (w.kind == Wt ==> v.kind == Wt && (v.commit ==> w.commit))
  }

  /**
   Slot `e` and handle `h` change, `pop` leaves the stack and `push` takes its place.
   */
  predicate Local(s: State, t: State, e: nat, h: nat, base: seq<Frame>, pop: seq<Frame>, push: seq<Frame>) {
    SameEnding(s, t) && e < |s.eng| && h < |s.api| && t.m.nextGen == s.m.nextGen &&
    s.stack == base + pop && t.stack == base + push && (t.inApp || t.stack != []) &&
    t.eng == s.eng[e := t.eng[e]] && t.api == s.api[h := t.api[h]] &&
    SameOccupant(s.eng[e], t.eng[e]) &&
    (t.api[h].alive ==> s.api[h].alive) && t.api[h].es == s.api[h].es &&
    t.api[h].refs - t.api[h].appRefs - (if t.api[h].alive then 1 else 0) - Weights(push, h) ==
    s.api[h].refs - s.api[h].appRefs - (if s.api[h].alive then 1 else 0) - Weights(pop, h) &&
    (t.api[h].refs > 0 ==> s.api[h].es < |s.eng|)
  }

  /** The frames concern handle `h` and slot `e` only, and end no teardown. */
  predicate Only(fs: seq<Frame>, e: nat, h: nat) {
    forall k :: 0 <= k < |fs| ==>
      (IsRoot(fs[k]) ==> fs[k].e == e) && !fs[k].Teardown? && (HasHandle(fs[k]) ==> fs[k].h == h)
  }

  predicate HasHandle(f: Frame) {
    f.DataReturn? || f.ResetReturn? || f.StopReturn? || f.CommitReturn? || f.ClosedReturn? || f.DropHold?
  }

  lemma {:induction false} OnlyWeighs(fs: seq<Frame>, e: nat, h: nat, g: nat)
    requires Only(fs, e, h) && g != h
    ensures Weights(fs, g) == 0
  {
    if fs != [] {
      OnlyWeighs(fs[..|fs| - 1], e, h, g);
    }
  }

  lemma LocalOthers(s: State, t: State, e: nat, h: nat, base: seq<Frame>, pop: seq<Frame>, push: seq<Frame>, g: nat)
    requires Inv(s) && Local(s, t, e, h, base, pop, push) && Only(pop, e, h) && Only(push, e, h)
    requires g < |s.api| && g != h
    requires t.eng[e] == s.eng[e] || s.m.terminalFired || (s.api[g].alive ==> s.api[g].es != e)
    ensures HandleOk(t, g)
  {
    hide Weights;
    NoFrames();
    WeightsConcat(base, pop, g);
    WeightsConcat(base, push, g);
    OnlyWeighs(pop, e, h, g);
    OnlyWeighs(push, e, h, g);
    assert HandleOk(s, g);
    assert InReset(s, g) == InReset(t, g) && InStop(s, g) == InStop(t, g);
  }

  lemma LocalSlots(s: State, t: State, e: nat, h: nat, base: seq<Frame>, pop: seq<Frame>, push: seq<Frame>, j: nat)
    requires Inv(s) && Local(s, t, e, h, base, pop, push) && Only(pop, e, h) && Only(push, e, h)
    requires j < |s.eng| && j != e
    requires t.api[h].alive || !s.api[h].alive || s.api[h].es == e
    ensures SlotOk(t, j)
  {
    assert SlotOk(s, j);
    assert RootOn(s, j) ==> RootOn(t, j);
  }

  lemma LocalFrames(s: State, t: State, e: nat, h: nat, base: seq<Frame>, pop: seq<Frame>, push: seq<Frame>)
    requires Inv(s) && Local(s, t, e, h, base, pop, push)
    requires forall k :: 0 <= k < |push| ==> FrameOk(t, push[k])
    requires forall k :: 0 <= k < |push| ==> IsRoot(push[k]) ==> k == 0 && base == []
    requires base != [] && base[0].EngineRelease? && base[0].e == e ==> FrameOk(t, base[0])
    ensures StackOk(t)
  {
    forall k | 0 <= k < |t.stack| ensures FrameOk(t, t.stack[k]) && (k > 0 ==> !IsRoot(t.stack[k])) {
      if k < |base| {
        assert s.stack[k] == base[k] == t.stack[k];
        assert FrameOk(s, s.stack[k]);
      } else {
        assert t.stack[k] == push[k - |base|];
      }
    }
  }

  lemma LocalEnding(s: State, t: State, e: nat, h: nat, base: seq<Frame>, pop: seq<Frame>, push: seq<Frame>)
    requires Inv(s) && Local(s, t, e, h, base, pop, push) && Only(pop, e, h)
    ensures EndingOk(t) && Distinct(t)
  {
    if t.m.terminalFired {
      forall g | 0 <= g < |t.api| && t.api[g].alive ensures TornLater(t, g) {
        assert s.api[g].alive && TornLater(s, g);
        var k :| 0 <= k < |s.stack| && s.stack[k].Teardown? && s.stack[k].next <= g;
        assert k < |base|;
        assert t.stack[k] == s.stack[k];
      }
    }
  }

  /** The workhorse: what is left to check of a local change is its own slot, handle and frames. */
  lemma LocalKeeps(s: State, t: State, e: nat, h: nat, base: seq<Frame>, pop: seq<Frame>, push: seq<Frame>)
    requires Inv(s) && Local(s, t, e, h, base, pop, push) && Only(pop, e, h) && Only(push, e, h)
    requires t.eng[e] == s.eng[e] || s.m.terminalFired || OwnSlot(s, e, h)
    requires t.api[h].alive || !s.api[h].alive || s.api[h].es == e
    requires Agrees(t, h) && SlotOk(t, e)
    requires forall k :: 0 <= k < |push| ==> FrameOk(t, push[k])
    requires forall k :: 0 <= k < |push| ==> IsRoot(push[k]) ==> k == 0 && base == []
    requires base != [] && base[0].EngineRelease? && base[0].e == e ==> FrameOk(t, base[0])
    ensures Inv(t)
  {
    hide HandleOk, SlotOk, FrameOk, Agrees, Weights, Only, EndingOk, StackOk, Distinct;
    forall g | 0 <= g < |t.api| ensures HandleOk(t, g) {
      if g == h {
        LocalSelf(s, t, e, h, base, pop, push);
      } else {
        LocalOthers(s, t, e, h, base, pop, push, g);
      }
    }
    forall j | 0 <= j < |t.eng| ensures SlotOk(t, j) {
      if j != e {
        LocalSlots(s, t, e, h, base, pop, push, j);
      }
    }
    LocalFrames(s, t, e, h, base, pop, push);
    LocalEnding(s, t, e, h, base, pop, push);
  }

  /** No live handle other than `h` points at slot `e`. */
  predicate OwnSlot(s: State, e: nat, h: nat) {
    forall g :: 0 <= g < |s.api| && g != h && s.api[g].alive ==> s.api[g].es != e
  }

  lemma LocalSelf(s: State, t: State, e: nat, h: nat, base: seq<Frame>, pop: seq<Frame>, push: seq<Frame>)
    requires Inv(s) && Local(s, t, e, h, base, pop, push) && Agrees(t, h)
    ensures HandleOk(t, h)
  {
    hide Weights;
    NoFrames();
    WeightsConcat(base, pop, h);
    WeightsConcat(base, push, h);
    assert HandleOk(s, h);
  }

  /** Only slot `e` changes; `pop`, if any, is the root frame of that slot. */
  predicate EngineLocal(s: State, t: State, e: nat, base: seq<Frame>, pop: seq<Frame>) {
    SameEnding(s, t) && e < |s.eng| && t.m.nextGen >= s.m.nextGen && t.api == s.api &&
    s.stack == base + pop && t.stack == base && (t.inApp || t.stack != []) &&
    t.eng == s.eng[e := t.eng[e]] && t.eng[e].gen >= s.eng[e].gen &&
    (t.eng[e] == s.eng[e] || s.m.terminalFired || Unowned(s, e)) &&
    (t.eng[e].gen != s.eng[e].gen ==> Unowned(s, e)) &&
    (base != [] && t.eng[e].gen == s.eng[e].gen ==> SameOccupant(s.eng[e], t.eng[e])) &&
    forall k :: 0 <= k < |pop| ==>
      (IsRoot(pop[k]) ==> pop[k].e == e) && !pop[k].Teardown? && !HasHandle(pop[k])
  }

  predicate Unowned(s: State, e: nat) {
    forall g :: 0 <= g < |s.api| && s.api[g].alive ==> s.api[g].es != e
  }

  lemma {:induction false} HandleFree(fs: seq<Frame>, h: nat)
    requires forall k :: 0 <= k < |fs| ==> !HasHandle(fs[k])
    ensures Weights(fs, h) == 0
  {
    if fs != [] {
      HandleFree(fs[..|fs| - 1], h);
    }
  }

  lemma EngineHandles(s: State, t: State, e: nat, base: seq<Frame>, pop: seq<Frame>, g: nat)
    requires Inv(s) && EngineLocal(s, t, e, base, pop) && g < |s.api|
    ensures HandleOk(t, g)
  {
    hide Weights;
    NoFrames();
    WeightsConcat(base, pop, g);
    HandleFree(pop, g);
    assert HandleOk(s, g);
    assert InReset(s, g) == InReset(t, g) && InStop(s, g) == InStop(t, g);
  }

  lemma EngineSlots(s: State, t: State, e: nat, base: seq<Frame>, pop: seq<Frame>, j: nat)
    requires Inv(s) && EngineLocal(s, t, e, base, pop) && j < |s.eng| && j != e
    ensures SlotOk(t, j)
  {
    assert SlotOk(s, j);
    assert RootOn(s, j) ==> RootOn(t, j);
  }

  lemma EngineFrames(s: State, t: State, e: nat, base: seq<Frame>, pop: seq<Frame>)
    requires Inv(s) && EngineLocal(s, t, e, base, pop)
    requires base != [] && base[0].EngineRelease? && base[0].e == e ==> FrameOk(t, base[0])
    ensures StackOk(t) && EndingOk(t) && Distinct(t)
  {
    forall k | 0 <= k < |t.stack| ensures FrameOk(t, t.stack[k]) && (k > 0 ==> !IsRoot(t.stack[k])) {
      assert s.stack[k] == t.stack[k];
      assert FrameOk(s, s.stack[k]);
    }
    if t.m.terminalFired {
      forall g | 0 <= g < |t.api| && t.api[g].alive ensures TornLater(t, g) {
        assert TornLater(s, g);
        var k :| 0 <= k < |s.stack| && s.stack[k].Teardown? && s.stack[k].next <= g;
        assert k < |base|;
        assert t.stack[k] == s.stack[k];
      }
    }
  }

  lemma EngineKeeps(s: State, t: State, e: nat, base: seq<Frame>, pop: seq<Frame>)
    requires Inv(s) && EngineLocal(s, t, e, base, pop) && SlotOk(t, e)
    requires base != [] && base[0].EngineRelease? && base[0].e == e ==> FrameOk(t, base[0])
    ensures Inv(t)
  {
    hide HandleOk, SlotOk, FrameOk, Weights, EndingOk, StackOk, Distinct;
    forall g | 0 <= g < |t.api| ensures HandleOk(t, g) {
      EngineHandles(s, t, e, base, pop, g);
    }
    forall j | 0 <= j < |t.eng| ensures SlotOk(t, j) {
      if j != e {
        EngineSlots(s, t, e, base, pop, j);
      }
    }
    EngineFrames(s, t, e, base, pop);
  }

  /** A slot that carries no handle belongs to no live handle, as long as the session lives. */
  lemma NobodyOwns(s: State, e: nat)
    requires Inv(s) && e < |s.eng| && !s.m.terminalFired
    requires s.eng[e].kind == Other || (s.stack == [] && (s.eng[e].kind == Wt ==> s.eng[e].user < 0))
    ensures Unowned(s, e)
  {
    forall g | 0 <= g < |s.api| && s.api[g].alive ensures s.api[g].es != e {
      assert HandleOk(s, g);
    }
  }

  // ---------------------------------------------------------------- transport events

  /** What the invariant says about a WebTransport slot and the handle it carries. */
  lemma SlotFacts(s: State, e: nat)
    requires Inv(s) && e < |s.eng| && s.eng[e].kind == Wt && s.stack == []
    ensures SlotOk(s, e) && (AnyOpen(s.eng[e].flags) || s.eng[e].drain)
    ensures s.eng[e].user < 0 ==> s.m.terminalFired || Unowned(s, e)
    ensures s.eng[e].user >= 0 ==>
      var h := s.eng[e].user;
      h < |s.api| && s.api[h].alive && s.api[h].es == e && OwnSlot(s, e, h) && s.api[h].refs > 0 &&
      !s.m.terminalFired && Mirrored(s, h) && AnyOpen(s.api[h].flags)
    ensures s.m.phase == Active ==> !s.m.terminalFired
  {
    assert SlotOk(s, e);
    if s.eng[e].user >= 0 {
      assert HandleOk(s, s.eng[e].user);
    } else if !s.m.terminalFired {
      NobodyOwns(s, e);
    }
  }

  /** A slot without a handle may change as it likes, as long as it stays in order. */
  lemma UnheldKeeps(s: State, e: nat, v: ESlot)
    requires Inv(s) && s.stack == [] && s.inApp && e < |s.eng| && s.eng[e].kind == Wt && s.eng[e].user < 0
    requires v.gen == s.eng[e].gen && SlotOk(Put(s, e, v), e)
    ensures Inv(Put(s, e, v))
  {
    hide Weights;
    NoFrames();
    SlotFacts(s, e);
    hide Inv, SlotOk;
    EngineKeeps(s, Put(s, e, v), e, [], []);
  }

  lemma DrainEnds(s: State, e: nat)
    requires Inv(s) && s.stack == [] && s.inApp && OnWt(s, e) && s.eng[e].drain
    ensures Inv(Put(s, e, ReleaseIfDone(s.eng[e].(drain := false))))
  {
    hide Weights;
    NoFrames();
    var v := ReleaseIfDone(s.eng[e].(drain := false));
    SlotFacts(s, e);
    if s.eng[e].user < 0 {
      UnheldKeeps(s, e, v);
    } else {
      hide Inv;
      LocalKeeps(s, Put(s, e, v), e, s.eng[e].user, [], [], []);
    }
  }

  lemma DataKeeps(s: State, e: nat, fin: bool)
    requires Inv(s) && s.inApp && Enabled(s, Data(e, fin))
    ensures Inv(AfterData(s, e, fin))
  {
    var v := s.eng[e];
    if v.drain {
      DrainEnds(s, e);
    } else if v.user < 0 {
      assert SlotOk(s, e);
      if fin {
        UnheldKeeps(s, e, ReleaseIfDone(v.(flags := v.flags.(recv := false), drain := false)));
      }
    } else {
      DeliverKeeps(s, e, fin);
    }
  }

  lemma DeliverKeeps(s: State, e: nat, fin: bool)
    requires Inv(s) && s.stack == [] && OnWt(s, e) && s.eng[e].user >= 0 && !s.eng[e].drain
    ensures Inv(AfterData(s, e, fin))
  {
    hide Weights;
    NoFrames();
    var v := s.eng[e];
    SlotFacts(s, e);
    hide Inv;
    OneWeight(DataReturn(v.user, e, v.gen, fin), v.user);
    LocalKeeps(s, AfterData(s, e, fin), e, v.user, [], [], [DataReturn(v.user, e, v.gen, fin)]);
  }

  lemma WritableKeeps(s: State, e: nat)
    requires Inv(s) && Enabled(s, Writable(e))
    ensures Inv(AfterWritable(s, e))
  {
    hide Weights;
    NoFrames();
    var v := s.eng[e];
    if v.user >= 0 {
      SlotFacts(s, e);
      hide Inv;
      OneWeight(DropHold(v.user), v.user);
      LocalKeeps(s, AfterWritable(s, e), e, v.user, [], [], [DropHold(v.user)]);
    }
  }

  lemma ResetKeeps(s: State, e: nat)
    requires Inv(s) && s.inApp && Enabled(s, PeerReset(e))
    ensures Inv(AfterReset(s, e))
  {
    var v := s.eng[e];
    if v.drain {
      DrainEnds(s, e);
    } else if v.user < 0 {
      assert SlotOk(s, e);
      UnheldKeeps(s, e, ReleaseIfDone(v.(flags := v.flags.(recv := false))));
    } else {
      ReportResetKeeps(s, e);
    }
  }

  lemma ReportResetKeeps(s: State, e: nat)
    requires Inv(s) && s.stack == [] && OnWt(s, e) && s.eng[e].user >= 0 && !s.eng[e].drain && s.eng[e].flags.recv
    ensures Inv(AfterReset(s, e))
  {
    hide Weights;
    NoFrames();
    var v := s.eng[e];
    SlotFacts(s, e);
    hide Inv;
    OneWeight(ResetReturn(v.user, e, v.gen), v.user);
    LocalKeeps(s, AfterReset(s, e), e, v.user, [], [], [ResetReturn(v.user, e, v.gen)]);
  }

  lemma StopKeeps(s: State, e: nat)
    requires Inv(s) && s.inApp && Enabled(s, PeerStop(e))
    ensures Inv(AfterStop(s, e))
  {
    var v := s.eng[e];
    if v.user < 0 {
      SlotFacts(s, e);
      var v' := if v.commit then v.(flags := ShutSides(v.flags, true, false)) else v;
      UnheldKeeps(s, e, if v.commit then ReleaseIfDone(v') else v');
    } else {
      ReportStopKeeps(s, e);
    }
  }

  lemma ReportStopKeeps(s: State, e: nat)
    requires Inv(s) && s.stack == [] && OnWt(s, e) && s.eng[e].user >= 0
    ensures Inv(AfterStop(s, e))
  {
    hide Weights;
    NoFrames();
    var v := s.eng[e];
    SlotFacts(s, e);
    hide Inv;
    OneWeight(StopReturn(v.user, e, v.gen, v.commit), v.user);
    LocalKeeps(s, AfterStop(s, e), e, v.user, [], [], [StopReturn(v.user, e, v.gen, v.commit)]);
  }

  lemma SendOverKeeps(s: State, e: nat, gen: nat, graceful: bool)
    requires Inv(s) && s.inApp && Enabled(s, SendOver(e, gen, graceful))
    ensures Inv(AfterSendOver(s, e, gen, graceful))
  {
    var v := s.eng[e];
    if v.user < 0 {
      SlotFacts(s, e);
      UnheldKeeps(s, e, ReleaseIfDone(v.(flags := ShutSides(v.flags, true, false))));
    } else if graceful {
      CommitKeeps(s, e, gen);
    } else {
      AbandonKeeps(s, e, gen);
    }
  }

  lemma CommitKeeps(s: State, e: nat, gen: nat)
    requires Inv(s) && Enabled(s, SendOver(e, gen, true)) && s.eng[e].user >= 0
    ensures Inv(AfterSendOver(s, e, gen, true))
  {
    hide Weights;
    NoFrames();
    var v := s.eng[e];
    SlotFacts(s, e);
    hide Inv;
    OneWeight(CommitReturn(v.user, e, gen), v.user);
    LocalKeeps(s, AfterSendOver(s, e, gen, true), e, v.user, [], [], [CommitReturn(v.user, e, gen)]);
  }

  lemma AbandonKeeps(s: State, e: nat, gen: nat)
    requires Inv(s) && Enabled(s, SendOver(e, gen, false)) && s.eng[e].user >= 0
    ensures Inv(AfterSendOver(s, e, gen, false))
  {
    hide Weights;
    NoFrames();
    var v := s.eng[e];
    SlotFacts(s, e);
    hide Inv;
    var push := [EngineDone(e, gen, true), DropHold(v.user)] + [ClosedReturn(v.user)];
    ThreeWeights(EngineDone(e, gen, true), v.user);
    LocalKeeps(s, AfterSendOver(s, e, gen, false), e, v.user, [], [], push);
  }

  lemma ThreeWeights(f: Frame, h: nat)
    ensures Weights([f, DropHold(h)] + [ClosedReturn(h)], h) == Weight(f, h) + 2
  {
    hide Weights;
    NoFrames();
    WeightsConcat([f, DropHold(h)], [ClosedReturn(h)], h);
    WeightsConcat([f], [DropHold(h)], h);
    assert [f, DropHold(h)] == [f] + [DropHold(h)];
    OneWeight(f, h);
    OneWeight(DropHold(h), h);
    OneWeight(ClosedReturn(h), h);
  }

  lemma OneWeight(f: Frame, h: nat)
    ensures Weights([f], h) == Weight(f, h)
  {
    assert [f][..0] == [];
  }

  lemma GoneKeeps(s: State, e: nat)
    requires Inv(s) && s.inApp && Enabled(s, StreamGone(e))
    ensures Inv(AfterGone(s, e))
  {
    var v := s.eng[e];
    SlotFacts(s, e);
    if v.user < 0 {
      UnheldKeeps(s, e, v.(flags := Shut, drain := false, kind := Free));
    } else {
      ReportGoneKeeps(s, e);
    }
  }

  lemma ReportGoneKeeps(s: State, e: nat)
    requires Inv(s) && s.stack == [] && OnWt(s, e) && s.eng[e].user >= 0
    ensures Inv(AfterGone(s, e))
  {
    hide Weights;
    NoFrames();
    var v := s.eng[e];
    SlotFacts(s, e);
    hide Inv;
    var push := [EngineRelease(e, v.gen), DropHold(v.user)] + [ClosedReturn(v.user)];
    ThreeWeights(EngineRelease(e, v.gen), v.user);
    LocalKeeps(s, AfterGone(s, e), e, v.user, [], [], push);
  }

  // ---------------------------------------------------------------- new streams

  /** Slot `e` gets a new WebTransport stream and handle `h` is taken for it. */
  predicate Fresh(s: State, t: State, e: nat, h: nat, push: seq<Frame>) {
    SameEnding(s, t) && s.m.phase == Active && e < |s.eng| && h < |s.api| && t.m.nextGen >= s.m.nextGen &&
    t.stack == s.stack + push && (t.inApp || t.stack != []) &&
    t.eng == s.eng[e := t.eng[e]] && t.api == s.api[h := t.api[h]] &&
    s.eng[e].kind != Wt && s.eng[e].gen <= t.eng[e].gen <= t.m.nextGen && s.api[h].refs == 0 && Unowned(s, e) &&
    (t.eng[e].gen == s.eng[e].gen ==> s.stack == []) &&
    t.api[h].alive && t.api[h].es == e && t.api[h].refs == 1 && t.api[h].appRefs == 0 &&
    t.eng[e].kind == Wt && t.eng[e].user == h && !t.eng[e].drain && AnyOpen(t.eng[e].flags) && Mirrored(t, h) &&
    (push == [] || (push == [Plain] && s.stack == []))
  }

  lemma FreshHandles(s: State, t: State, e: nat, h: nat, push: seq<Frame>, g: nat)
    requires Inv(s) && Fresh(s, t, e, h, push) && g < |s.api|
    ensures HandleOk(t, g)
  {
    hide Weights;
    NoFrames();
    assert HandleOk(s, g) && HandleOk(s, h);
    WeightsConcat(s.stack, push, g);
    if push == [Plain] {
      OneWeight(Plain, g);
    }
    assert InReset(t, g) == InReset(s, g) && InStop(t, g) == InStop(s, g);
    if g == h && s.stack != [] {
      NoWeight(s.stack, h, 0);
    }
  }

  lemma FreshSlots(s: State, t: State, e: nat, h: nat, push: seq<Frame>, j: nat)
    requires Inv(s) && Fresh(s, t, e, h, push) && j < |s.eng|
    ensures SlotOk(t, j)
  {
    assert SlotOk(s, j);
    assert HandleOk(s, h);
    if j != e {
      assert RootOn(s, j) ==> RootOn(t, j);
    }
  }

  lemma FreshFrames(s: State, t: State, e: nat, h: nat, push: seq<Frame>)
    requires Inv(s) && Fresh(s, t, e, h, push)
    ensures StackOk(t) && EndingOk(t) && Distinct(t)
  {
    assert HandleOk(s, h);
    forall k | 0 <= k < |t.stack| ensures FrameOk(t, t.stack[k]) && (k > 0 ==> !IsRoot(t.stack[k])) {
      if k < |s.stack| {
        assert t.stack[k] == s.stack[k];
        assert FrameOk(s, s.stack[k]);
        NoWeight(s.stack, h, k);
      }
    }
  }

  lemma FreshKeeps(s: State, t: State, e: nat, h: nat, push: seq<Frame>)
    requires Inv(s) && Fresh(s, t, e, h, push)
    ensures Inv(t)
  {
    hide HandleOk, SlotOk, StackOk, EndingOk, Distinct;
    forall g | 0 <= g < |t.api| ensures HandleOk(t, g) {
      FreshHandles(s, t, e, h, push, g);
    }
    forall j | 0 <= j < |t.eng| ensures SlotOk(t, j) {
      FreshSlots(s, t, e, h, push, j);
    }
    FreshFrames(s, t, e, h, push);
  }

  lemma PeerStreamKeeps(s: State, e: nat, bidi: bool, h: nat)
    requires Inv(s) && Enabled(s, PeerStream(e, bidi, h))
    ensures Inv(Next(s, PeerStream(e, bidi, h)))
  {
    hide Weights;
    NoFrames();
    NobodyOwns(s, e);
    assert SlotOk(s, e);
    hide Inv;
    FreshKeeps(s, Next(s, PeerStream(e, bidi, h)), e, h, [Plain]);
  }

  /**
   A free slot that an open can take is still the slot of a live handle if and only if the
   application is inside the reset callback of that handle's stream. The application has then
   ended the send side from inside the callback.
   */
  lemma OpenIsCleanIff(s: State, bidi: bool, e: nat, h: nat)
    requires Inv(s) && Enabled(s, Open(bidi, e, h)) && TakesEffect(s)
    ensures Unowned(s, e) <==> !Perilous(s, e)
    ensures Perilous(s, e) ==> s.api[s.stack[0].h].es == e && s.api[s.stack[0].h].flags == Flags(false, false, true)
  {
    if s.stack != [] {
      assert FrameOk(s, s.stack[0]);
    }
    if Perilous(s, e) {
      assert HandleOk(s, s.stack[0].h);
    } else {
      forall g | 0 <= g < |s.api| && s.api[g].alive ensures s.api[g].es != e {
        assert HandleOk(s, g);
      }
    }
  }

  lemma OpenKeeps(s: State, bidi: bool, e: nat, h: nat)
    requires Inv(s) && Enabled(s, Open(bidi, e, h)) && Guarded(s, Open(bidi, e, h))
    ensures Inv(Next(s, Open(bidi, e, h)))
  {
    hide Weights;
    NoFrames();
    if TakesEffect(s) {
      OpenIsCleanIff(s, bidi, e, h);
    }
    assert SlotOk(s, e);
    hide Inv;
    if TakesEffect(s) {
      FreshKeeps(s, Next(s, Open(bidi, e, h)), e, h, []);
    }
  }

  /** A stream that finds no handle may even take the slot of a live handle inside its reset callback. */
  predicate Tombstone(s: State, t: State, e: nat) {
    e < |s.eng| == |t.eng| && t == s.(eng := s.eng[e := t.eng[e]], m := s.m.(nextGen := s.m.nextGen + 1)) &&
    s.eng[e].kind == Free && t.eng[e].gen == t.m.nextGen && t.eng[e].user == -1 &&
    Vacated(t.eng[e]) && (t.eng[e].kind == Wt ==> t.eng[e].drain) && s.inApp && s.m.phase == Active && !s.m.terminalFired
  }

  lemma TombstoneHandle(s: State, t: State, e: nat, h: nat)
    requires Inv(s) && Tombstone(s, t, e) && h < |s.api|
    ensures HandleOk(t, h)
  {
    hide Weights;
    assert HandleOk(s, h);
    assert InReset(t, h) == InReset(s, h) && InStop(t, h) == InStop(s, h);
  }

  lemma TombstoneSlot(s: State, t: State, e: nat, j: nat)
    requires Inv(s) && Tombstone(s, t, e) && j < |s.eng|
    ensures SlotOk(t, j)
  {
    assert SlotOk(s, j);
    assert j != e && RootOn(s, j) ==> RootOn(t, j);
  }

  lemma TombstoneFrames(s: State, t: State, e: nat)
    requires Inv(s) && Tombstone(s, t, e)
    ensures StackOk(t)
  {
    assert SlotOk(s, e);
    forall k | 0 <= k < |t.stack| ensures FrameOk(t, t.stack[k]) && (k > 0 ==> !IsRoot(t.stack[k])) {
      assert FrameOk(s, s.stack[k]);
      if IsRoot(s.stack[k]) && HasHandle(s.stack[k]) {
        assert HandleOk(s, s.stack[k].h);
      }
    }
  }

  lemma OpenUnheldKeeps(s: State, bidi: bool, e: nat)
    requires Inv(s) && Enabled(s, OpenUnheld(bidi, e))
    ensures Inv(Next(s, OpenUnheld(bidi, e)))
  {
    var t := Next(s, OpenUnheld(bidi, e));
    if t != s {
      assert Tombstone(s, t, e);
      forall h | 0 <= h < |t.api| ensures HandleOk(t, h) {
        TombstoneHandle(s, t, e, h);
      }
      forall j | 0 <= j < |t.eng| ensures SlotOk(t, j) {
        TombstoneSlot(s, t, e, j);
      }
      TombstoneFrames(s, t, e);
    }
  }

  lemma PeerSlotKeeps(s: State, ev: Event)
    requires Inv(s) && s.inApp && Enabled(s, ev)
    requires ev.PeerAlloc? || ev.PeerFree? || ev.PeerUnheld? || ev.Retire?
    ensures Inv(Next(s, ev))
  {
    hide Weights;
    NoFrames();
    assert SlotOk(s, ev.e);
    if !s.m.terminalFired {
      NobodyOwns(s, ev.e);
    } else {
      NobodyLives(s);
    }
    hide Inv;
    EngineKeeps(s, Next(s, ev), ev.e, [], []);
  }

  /** With an empty stack, a session that is over has no live handle left. */
  lemma NobodyLives(s: State)
    requires Inv(s) && s.m.terminalFired && s.stack == []
    ensures forall h :: 0 <= h < |s.api| ==> !s.api[h].alive
  {
    forall h | 0 <= h < |s.api| ensures !s.api[h].alive {
      assert s.api[h].alive ==> TornLater(s, h);
    }
  }

  // ---------------------------------------------------------------- endings keep the invariant

  lemma EndSlots(s: State, t: State, e: nat)
    requires Inv(s) && e < |s.eng| && s.m.phase == Active
    requires t.eng == CloseAll(s.eng) && t.api == s.api && t.m.nextGen == s.m.nextGen && t.m.phase == Over
    ensures SlotOk(t, e)
  {
    assert SlotOk(s, e);
  }

  lemma EndHandles(s: State, t: State, h: nat, push: seq<Frame>)
    requires Inv(s) && h < |s.api| && t.api == s.api && |t.eng| == |s.eng| && t.m.terminalFired
    requires t.stack == s.stack + push && forall k :: 0 <= k < |push| ==> !HasHandle(push[k])
    ensures HandleOk(t, h)
  {
    hide Weights;
    NoFrames();
    assert HandleOk(s, h);
    WeightsConcat(s.stack, push, h);
    HandleFree(push, h);
  }

  lemma EndFrames(s: State, t: State, rawFails: bool)
    requires Inv(s) && s.m.phase == Active && t == EndSession(s, rawFails)
    ensures StackOk(t) && EndingOk(t) && Distinct(t)
  {
    var n := |s.stack|;
    forall k | 0 <= k < |t.stack| ensures FrameOk(t, t.stack[k]) && (k > 0 ==> !IsRoot(t.stack[k])) {
      if k < n {
        assert t.stack[k] == s.stack[k];
        assert FrameOk(s, s.stack[k]);
      }
    }
    assert t.stack[n + 1] == Teardown(0);
    assert forall h :: 0 <= h < |t.api| ==> TornLater(t, h);
  }

  lemma EndKeeps(s: State, rawFails: bool)
    requires Inv(s) && s.m.phase == Active
    ensures Inv(EndSession(s, rawFails))
  {
    var t := EndSession(s, rawFails);
    hide HandleOk, SlotOk, StackOk, EndingOk, Distinct;
    forall h | 0 <= h < |t.api| ensures HandleOk(t, h) {
      EndHandles(s, t, h, [if rawFails then FireFailed else FireClosed, Teardown(0)]);
    }
    forall e | 0 <= e < |t.eng| ensures SlotOk(t, e) {
      EndSlots(s, t, e);
    }
    EndFrames(s, t, rawFails);
  }

  /** A step that moves the phase on and may run a callback, touching no stream. */
  predicate Outer(s: State, t: State, push: seq<Frame>) {
    t.eng == s.eng && t.api == s.api && t.m.nextGen == s.m.nextGen && t.stack == s.stack + push &&
    (t.inApp || t.stack != []) && (push == [] || (push == [Plain] && s.stack == [])) &&
    (t.m.phase == s.m.phase || s.m.phase == Connecting) && (t.m.phase == Connecting ==> s.m.phase == Connecting) &&
    (t.m.terminalFired <==> t.m.phase == Over) && (t.m.connClosed ==> t.m.phase == Over)
  }

  lemma OuterHandles(s: State, t: State, push: seq<Frame>, h: nat)
    requires Inv(s) && Outer(s, t, push) && h < |s.api|
    ensures HandleOk(t, h)
  {
    hide Weights;
    NoFrames();
    assert HandleOk(s, h);
    WeightsConcat(s.stack, push, h);
    if push == [Plain] {
      OneWeight(Plain, h);
    }
    assert InReset(t, h) == InReset(s, h) && InStop(t, h) == InStop(s, h);
  }

  lemma OuterFrames(s: State, t: State, push: seq<Frame>)
    requires Inv(s) && Outer(s, t, push)
    ensures StackOk(t) && EndingOk(t) && Distinct(t)
  {
    forall k | 0 <= k < |t.stack| ensures FrameOk(t, t.stack[k]) && (k > 0 ==> !IsRoot(t.stack[k])) {
      if k < |s.stack| {
        assert t.stack[k] == s.stack[k];
        assert FrameOk(s, s.stack[k]);
      }
    }
    assert push == [] ==> t.stack == s.stack;
  }

  lemma OuterKeeps(s: State, t: State, push: seq<Frame>)
    requires Inv(s) && Outer(s, t, push)
    ensures Inv(t)
  {
    forall e | 0 <= e < |t.eng| ensures SlotOk(t, e) {
      assert SlotOk(s, e);
      assert RootOn(s, e) ==> RootOn(t, e);
    }
    hide HandleOk, SlotOk, StackOk, EndingOk, Distinct;
    forall h | 0 <= h < |t.api| ensures HandleOk(t, h) {
      OuterHandles(s, t, push, h);
    }
    OuterFrames(s, t, push);
  }

  lemma LoseKeeps(s: State)
    requires Inv(s) && (s.inApp || s.stack != []) && (s.m.phase == Connecting ==> s.stack == [])
    ensures Inv(LoseConnection(s))
  {
    var t := LoseConnection(s);
    if !s.m.connClosed {
      match s.m.phase
      case Active =>
        EndKeeps(s, false);
        assert t == EndSession(s, false).(m := EndSession(s, false).m.(connClosed := true));
        hide Inv;
        ConnClosedKeeps(EndSession(s, false));
      case Connecting =>
        hide Inv;
        OuterKeeps(s, t, [Plain]);
      case Over => ConnClosedKeeps(s);
    }
  }

  lemma ConnClosedKeeps(s: State)
    requires Inv(s) && s.m.phase == Over
    ensures Inv(s.(m := s.m.(connClosed := true)))
  {
    var t := s.(m := s.m.(connClosed := true));
    assert s.stack + [] == s.stack;
    assert EndingOk(s);
    hide Inv;
    OuterKeeps(s, t, []);
  }

  lemma PhaseKeeps(s: State, ev: Event)
    requires Inv(s) && Enabled(s, ev) && (ev.Establish? || ev.Refuse? || ev.Fail?)
    ensures Inv(Next(s, ev))
  {
    assert EndingOk(s);
    hide Inv;
    OuterKeeps(s, Next(s, ev), [Plain]);
  }

  /** Draining and datagrams touch no stream. */
  lemma NoticeKeeps(s: State, ev: Event)
    requires Inv(s) && Enabled(s, ev) && (ev.PeerDrain? || ev.PeerDatagram?)
    ensures Inv(Next(s, ev))
  {
    assert EndingOk(s);
    hide Inv;
    if Next(s, ev) != s {
      OuterKeeps(s, Next(s, ev), [Plain]);
    }
  }

  // ---------------------------------------------------------------- calls of the application

  /** What the invariant says about a live handle of a living session. */
  lemma HandleFacts(s: State, h: nat)
    requires Inv(s) && h < |s.api| && s.api[h].alive && !s.m.terminalFired
    ensures HandleOk(s, h) && s.api[h].refs > 0 && s.api[h].es < |s.eng| && OwnSlot(s, s.api[h].es, h)
    ensures SlotOk(s, s.api[h].es) && s.m.phase == Active
    ensures s.stack != [] ==> FrameOk(s, s.stack[0])
    ensures if InReset(s, h) then Lagging(s, h) else Mirrored(s, h)
  {
    assert HandleOk(s, h);
    assert SlotOk(s, s.api[h].es);
  }

  lemma TwoWeights(h: nat)
    ensures Weights([DropHold(h)] + [ClosedReturn(h)], h) == 2
  {
    hide Weights;
    NoFrames();
    WeightsConcat([DropHold(h)], [ClosedReturn(h)], h);
    OneWeight(DropHold(h), h);
    OneWeight(ClosedReturn(h), h);
  }

  /** The state in which a call has changed the directions of both halves of stream `h`. */
  function Changed(s: State, h: nat, flags: Flags, v: ESlot): State
    requires Known(s, h)
  {
    Put(Handle(s, h, s.api[h].(flags := flags)), s.api[h].es, v)
  }

  lemma OpenCallKeeps(s: State, h: nat, flags: Flags, v: ESlot)
    requires Inv(s) && s.inApp && Known(s, h) && s.api[h].alive && !s.m.terminalFired
    requires SameOccupant(s.eng[s.api[h].es], v) && SlotOk(Changed(s, h, flags, v), s.api[h].es)
    requires Agrees(Changed(s, h, flags, v), h)
    requires s.stack != [] && s.stack[0].EngineRelease? && s.stack[0].e == s.api[h].es ==>
               FrameOk(Changed(s, h, flags, v), s.stack[0])
    ensures Inv(Changed(s, h, flags, v))
  {
    hide Weights;
    NoFrames();
    HandleFacts(s, h);
    hide Inv, SlotOk, Agrees, HandleOk, FrameOk;
    assert s.stack + [] == s.stack;
    LocalKeeps(s, Changed(s, h, flags, v), s.api[h].es, h, s.stack, [], []);
  }

  lemma LastCallKeeps(s: State, h: nat, flags: Flags, v: ESlot)
    requires Inv(s) && s.inApp && Known(s, h) && s.api[h].alive && !s.m.terminalFired && !AnyOpen(flags)
    requires SameOccupant(s.eng[s.api[h].es], v) && SlotOk(Changed(s, h, flags, v), s.api[h].es)
    requires s.stack != [] && s.stack[0].EngineRelease? && s.stack[0].e == s.api[h].es ==>
               FrameOk(Changed(s, h, flags, v), s.stack[0])
    ensures Inv(FinishCall(Changed(s, h, flags, v), h))
  {
    hide Weights;
    NoFrames();
    HandleFacts(s, h);
    hide Inv, HandleOk;
    var t := FinishCall(Changed(s, h, flags, v), h);
    var push := [DropHold(h)] + [ClosedReturn(h)];
    TwoWeights(h);
    assert s.stack + [] == s.stack;
    LocalKeeps(s, t, s.api[h].es, h, s.stack, [], push);
  }

  lemma CallKeeps(s: State, h: nat, flags: Flags, v: ESlot)
    requires Inv(s) && s.inApp && Known(s, h) && s.api[h].alive && !s.m.terminalFired
    requires SameOccupant(s.eng[s.api[h].es], v) && SlotOk(Changed(s, h, flags, v), s.api[h].es)
    requires AnyOpen(flags) ==> Agrees(Changed(s, h, flags, v), h)
    requires s.stack != [] && s.stack[0].EngineRelease? ==> s.stack[0].e != s.api[h].es
    ensures Inv(FinishCall(Changed(s, h, flags, v), h))
  {
    hide Inv, SlotOk, Agrees;
    if AnyOpen(flags) {
      OpenCallKeeps(s, h, flags, v);
    } else {
      LastCallKeeps(s, h, flags, v);
    }
  }

  /** A live handle's slot is not the one a dead stream is about to give up. */
  lemma NotBeingReleased(s: State, h: nat)
    requires Inv(s) && h < |s.api| && s.api[h].alive && !s.m.terminalFired
    ensures s.stack != [] && s.stack[0].EngineRelease? ==> s.stack[0].e != s.api[h].es
  {
    HandleFacts(s, h);
  }

  lemma SendKeeps(s: State, h: nat, fin: bool, ok: bool)
    requires Inv(s) && s.inApp && Known(s, h)
    ensures Inv(AfterSend(s, h, fin, ok))
  {
    var t := AfterSend(s, h, fin, ok);
    var a := s.api[h];
    if t != s {
      assert EndingOk(s);
      HandleFacts(s, h);
      NotBeingReleased(s, h);
      hide Inv;
      var v := s.eng[a.es];
      if fin {
        var v' := ReleaseIfDone(v.(sent := true, flags := v.flags.(send := false, fin := v.commit)));
        CallKeeps(s, h, a.flags.(send := false, fin := a.commit), v');
      } else {
        var v' := v.(sent := true);
        assert t == Changed(s, h, a.flags, v') by {
          assert s.api[h := a] == s.api;
        }
        OpenCallKeeps(s, h, a.flags, v');
      }
    }
  }

  lemma ShutdownKeeps(s: State, h: nat, send: bool, recv: bool, whole: bool, answer: Answer)
    requires Inv(s) && s.inApp && Known(s, h) && (whole || send || recv)
    ensures Inv(AfterShutdown(s, h, send, recv, whole, answer))
  {
    var t := AfterShutdown(s, h, send, recv, whole, answer);
    var a := s.api[h];
    if t != s {
      assert EndingOk(s) && SlotOk(s, a.es);
      HandleFacts(s, h);
      NotBeingReleased(s, h);
      hide Inv;
      var v := s.eng[a.es];
      if answer == Fatal {
        FatalKeeps(s, h);
      } else {
        var abortSend := if whole then v.flags.send || v.flags.fin else send;
        var abortRecv := if whole then v.flags.recv else recv;
        var flags := if whole then Shut else ShutSides(a.flags, send, recv);
        CallKeeps(s, h, flags, EngineShutdown(v, abortSend, abortRecv));
      }
    }
  }

  lemma FatalKeeps(s: State, h: nat)
    requires Inv(s) && s.inApp && Known(s, h) && s.api[h].alive && !s.m.terminalFired
    ensures var held := Handle(s, h, s.api[h].(refs := s.api[h].refs + 1));
            Inv(LoseConnection(held.(stack := held.stack + [DropHold(h)], inApp := false)))
  {
    hide Weights;
    NoFrames();
    HandleFacts(s, h);
    var held := Handle(s, h, s.api[h].(refs := s.api[h].refs + 1));
    var t := held.(stack := held.stack + [DropHold(h)], inApp := false);
    hide Inv;
    OneWeight(DropHold(h), h);
    assert s.stack + [] == s.stack;
    LocalKeeps(s, t, s.api[h].es, h, s.stack, [], [DropHold(h)]);
    LoseKeeps(t);
  }

  lemma EnableCommitKeeps(s: State, h: nat)
    requires Inv(s) && Enabled(s, EnableCommit(h))
    ensures Inv(Next(s, EnableCommit(h)))
  {
    hide Weights;
    NoFrames();
    var t := Next(s, EnableCommit(h));
    if t != s {
      assert EndingOk(s);
      HandleFacts(s, h);
      NotBeingReleased(s, h);
      hide Inv;
      assert s.stack + [] == s.stack;
      LocalKeeps(s, t, s.api[h].es, h, s.stack, [], []);
    }
  }

  /** Only the references of handle `h` change, along with a frame that accounts for them. */
  predicate RefLocal(s: State, t: State, h: nat, base: seq<Frame>, pop: seq<Frame>) {
    SameEnding(s, t) && h < |s.api| && t.m.nextGen == s.m.nextGen && t.eng == s.eng &&
    s.stack == base + pop && t.stack == base && (t.inApp || t.stack != []) &&
    t.api == s.api[h := s.api[h].(refs := t.api[h].refs, appRefs := t.api[h].appRefs)] &&
    t.api[h].refs - t.api[h].appRefs == s.api[h].refs - s.api[h].appRefs - Weights(pop, h) &&
    (s.api[h].refs == 0 ==> t.api[h].refs <= 0) &&
    forall k :: 0 <= k < |pop| ==>
      (pop[k].DropHold? || pop[k].ClosedReturn? || pop[k].DataReturn?) && pop[k].h == h
  }

  lemma {:induction false} RefWeighs(fs: seq<Frame>, h: nat, g: nat)
    requires g != h
    requires forall k :: 0 <= k < |fs| ==> (fs[k].DropHold? || fs[k].ClosedReturn? || fs[k].DataReturn?) && fs[k].h == h
    ensures Weights(fs, g) == 0
  {
    if fs != [] {
      RefWeighs(fs[..|fs| - 1], h, g);
    }
  }

  lemma RefHandles(s: State, t: State, h: nat, base: seq<Frame>, pop: seq<Frame>, g: nat)
    requires Inv(s) && RefLocal(s, t, h, base, pop) && g < |s.api|
    ensures HandleOk(t, g)
  {
    hide Weights;
    NoFrames();
    WeightsConcat(base, pop, g);
    if g != h {
      RefWeighs(pop, h, g);
    }
    assert HandleOk(s, g);
    assert InReset(s, g) == InReset(t, g) && InStop(s, g) == InStop(t, g);
  }

  lemma RefFrames(s: State, t: State, h: nat, base: seq<Frame>, pop: seq<Frame>)
    requires Inv(s) && RefLocal(s, t, h, base, pop)
    ensures StackOk(t) && EndingOk(t) && Distinct(t)
  {
    forall k | 0 <= k < |t.stack| ensures FrameOk(t, t.stack[k]) && (k > 0 ==> !IsRoot(t.stack[k])) {
      assert s.stack[k] == t.stack[k];
      assert FrameOk(s, s.stack[k]);
    }
    if t.m.terminalFired {
      forall g | 0 <= g < |t.api| && t.api[g].alive ensures TornLater(t, g) {
        assert TornLater(s, g);
        var k :| 0 <= k < |s.stack| && s.stack[k].Teardown? && s.stack[k].next <= g;
        assert k < |base|;
        assert t.stack[k] == s.stack[k];
      }
    }
  }

  lemma RefLocalKeeps(s: State, t: State, h: nat, base: seq<Frame>, pop: seq<Frame>)
    requires Inv(s) && RefLocal(s, t, h, base, pop)
    ensures Inv(t)
  {
    hide HandleOk, StackOk, EndingOk, Distinct, Weights, FrameOk;
    forall g | 0 <= g < |t.api| ensures HandleOk(t, g) {
      RefHandles(s, t, h, base, pop, g);
    }
    forall e | 0 <= e < |t.eng| ensures SlotOk(t, e) {
      assert SlotOk(s, e);
      assert RootOn(s, e) ==> RootOn(t, e);
    }
    RefFrames(s, t, h, base, pop);
  }

  lemma RefKeeps(s: State, ev: Event)
    requires Inv(s) && Enabled(s, ev) && (ev.AddRef? || ev.ReleaseRef?)
    ensures Inv(Next(s, ev))
  {
    hide Weights;
    NoFrames();
    hide Inv;
    assert s.stack + [] == s.stack;
    RefLocalKeeps(s, Next(s, ev), ev.h, s.stack, []);
  }

  // ---------------------------------------------------------------- returning to the library

  /** What the invariant says about the frame on top and its handle. */
  lemma TopFacts(s: State)
    requires Inv(s) && s.stack != []
    ensures var n := |s.stack| - 1;
            FrameOk(s, s.stack[n]) && (IsRoot(s.stack[n]) ==> n == 0) && s.stack == s.stack[..n] + [s.stack[n]] &&
            (HasHandle(s.stack[n]) ==> HandleOk(s, s.stack[n].h) && s.api[s.stack[n].h].refs > 0) &&
            (IsRoot(s.stack[n]) ==> SlotOk(s, s.stack[n].e))
    ensures EndingOk(s)
    ensures s.stack[0].EngineRelease? ==> FrameOk(s, s.stack[0])
  {
    hide Weights;
    var n := |s.stack| - 1;
    assert FrameOk(s, s.stack[n]);
    if HasHandle(s.stack[n]) {
      assert HandleOk(s, s.stack[n].h);
      TopWeighs(s.stack, s.stack[n].h);
    }
  }

  /** The slot of a root frame belongs to nobody once its handle is gone. */
  lemma RootUnowned(s: State, e: nat, gen: nat, h: int)
    requires Inv(s) && Carries(s, e, gen, h) && s.eng[e].gen == gen && s.eng[e].kind == Wt && !s.m.terminalFired
    requires h >= 0 ==> h < |s.api| && !s.api[h].alive
    requires s.stack != [] && !s.stack[0].ResetReturn?
    ensures Unowned(s, e)
  {
    assert SlotOk(s, e);
    forall g | 0 <= g < |s.api| && s.api[g].alive ensures s.api[g].es != e {
      assert HandleOk(s, g);
    }
  }

  lemma DropKeeps(s: State, base: seq<Frame>, f: Frame)
    requires f.ClosedReturn? || f.DropHold? || f.DataReturn?
    requires Inv(s) && s.stack == base + [f] && f.h < |s.api|
    ensures Inv(Done(Drop(s.(stack := base), f.h)))
  {
    hide Weights;
    NoFrames();
    assert s.stack[|base|] == f && s.stack[..|base|] == base;
    TopFacts(s);
    var t := Done(Drop(s.(stack := base), f.h));
    assert s.api[f.h].refs > 0;
    OneWeight(f, f.h);
    hide Inv, HandleOk, SlotOk, EndingOk, FrameOk, Weights;
    assert RefLocal(s, t, f.h, base, [f]);
    RefLocalKeeps(s, t, f.h, base, [f]);
  }

  /** A root frame without a handle finishes with its slot. */
  lemma EngineTailKeeps(s: State)
    requires Inv(s) && s.stack != [] && !s.inApp
    requires var f := s.stack[|s.stack| - 1]; f.EngineFin? || f.EngineDone? || f.EngineRelease?
    ensures var n := |s.stack| - 1;
            InRange(s, s.stack[n]) && Inv(Resumed(s.(stack := s.stack[..n]), s.stack[n]))
  {
    hide Weights, Inv, HandleOk, EndingOk, Distinct, StackOk;
    NoFrames();
    var f := s.stack[0];
    TopFacts(s);
    assert s.stack == [f] && s.stack[..0] == [];
    assert [] + [f] == s.stack;
    var t := Resumed(s.(stack := []), f);
    if !s.m.terminalFired && s.eng[f.e].gen == f.gen && s.eng[f.e].kind == Wt {
      RootUnowned(s, f.e, f.gen, -1);
    }
    EngineKeeps(s, t, f.e, [], [f]);
  }

  /** After the last callback of a data or reset event, when the handle is done. */
  lemma CloseRecvEnds(s: State, tail: Frame)
    requires Inv(s) && |s.stack| == 1 && !s.inApp && (s.stack[0].ResetReturn? || (s.stack[0].DataReturn? && s.stack[0].fin))
    requires tail == (if s.stack[0].DataReturn? then EngineFin(s.stack[0].e, s.stack[0].gen)
                      else EngineDone(s.stack[0].e, s.stack[0].gen, false))
    requires s.stack[0].h < |s.api| && s.stack[0].e < |s.eng| && s.api[s.stack[0].h].es < |s.eng|
    requires var a := s.api[s.stack[0].h]; a.alive && !a.flags.send && !a.flags.fin
    ensures Inv(CloseRecv(s.(stack := []), s.stack[0].h, tail))
  {
    hide Weights;
    NoFrames();
    var f := s.stack[0];
    var h := f.h;
    TopFacts(s);
    assert OwnSlot(s, f.e, h);
    var t := CloseRecv(s.(stack := []), h, tail);
    var push := [tail, DropHold(h)] + [ClosedReturn(h)];
    assert t.stack == [] + push;
    ThreeWeights(tail, h);
    OneWeight(f, h);
    assert [] + [f] == s.stack;
    hide Inv;
    LocalKeeps(s, t, f.e, h, [], [f], push);
  }

  /** The same when a side is still open, or the handle was closed meanwhile. */
  lemma CloseRecvStays(s: State, tail: Frame)
    requires Inv(s) && |s.stack| == 1 && !s.inApp && (s.stack[0].ResetReturn? || (s.stack[0].DataReturn? && s.stack[0].fin))
    requires tail == (if s.stack[0].DataReturn? then EngineFin(s.stack[0].e, s.stack[0].gen)
                      else EngineDone(s.stack[0].e, s.stack[0].gen, false))
    requires s.stack[0].h < |s.api| && s.stack[0].e < |s.eng| && s.api[s.stack[0].h].es < |s.eng|
    requires var a := s.api[s.stack[0].h]; a.alive ==> a.flags.send || a.flags.fin
    ensures Inv(CloseRecv(s.(stack := []), s.stack[0].h, tail))
  {
    hide Weights;
    NoFrames();
    if s.api[s.stack[0].h].alive {
      CloseRecvLives(s, tail);
    } else {
      CloseRecvIdles(s, tail);
    }
  }

  lemma CloseRecvLives(s: State, tail: Frame)
    requires Inv(s) && |s.stack| == 1 && !s.inApp && (s.stack[0].ResetReturn? || (s.stack[0].DataReturn? && s.stack[0].fin))
    requires tail == (if s.stack[0].DataReturn? then EngineFin(s.stack[0].e, s.stack[0].gen)
                      else EngineDone(s.stack[0].e, s.stack[0].gen, false))
    requires s.stack[0].h < |s.api| && s.stack[0].e < |s.eng| && s.api[s.stack[0].h].es < |s.eng|
    requires var a := s.api[s.stack[0].h]; a.alive && (a.flags.send || a.flags.fin)
    ensures Inv(CloseRecv(s.(stack := []), s.stack[0].h, tail))
  {
    hide Weights;
    NoFrames();
    var f := s.stack[0];
    var h := f.h;
    TopFacts(s);
    assert OwnSlot(s, f.e, h);
    var t := CloseRecv(s.(stack := []), h, tail);
    OneWeight(f, h);
    assert [] + [f] == s.stack;
    hide Inv;
    LocalKeeps(s, t, f.e, h, [], [f], []);
  }

  lemma CloseRecvIdles(s: State, tail: Frame)
    requires Inv(s) && |s.stack| == 1 && !s.inApp && (s.stack[0].ResetReturn? || (s.stack[0].DataReturn? && s.stack[0].fin))
    requires tail == (if s.stack[0].DataReturn? then EngineFin(s.stack[0].e, s.stack[0].gen)
                      else EngineDone(s.stack[0].e, s.stack[0].gen, false))
    requires s.stack[0].h < |s.api| && s.stack[0].e < |s.eng| && s.api[s.stack[0].h].es < |s.eng|
    requires !s.api[s.stack[0].h].alive
    ensures Inv(CloseRecv(s.(stack := []), s.stack[0].h, tail))
  {
    hide Weights;
    var f := s.stack[0];
    var h := f.h;
    TopFacts(s);
    var u := Drop(s, h).(stack := [tail]);
    IdleTail(s, u, tail);
    hide Inv, HandleOk, SlotOk, EndingOk, FrameOk;
    EngineTailKeeps(u);
    assert u.stack[..0] == [] && u.stack[0] == tail;
    assert CloseRecv(s.(stack := []), h, tail) == Resumed(u.(stack := []), tail);
  }

  /** The callback's hold is returned; the engine's part remains. */
  lemma IdleTail(s: State, u: State, tail: Frame)
    requires Inv(s) && |s.stack| == 1 && !s.inApp && (s.stack[0].ResetReturn? || s.stack[0].DataReturn?) && s.stack[0].h < |s.api|
    requires (tail.EngineFin? || tail.EngineDone?) && tail.e == s.stack[0].e && tail.gen == s.stack[0].gen
    requires !s.api[s.stack[0].h].alive && u == Drop(s, s.stack[0].h).(stack := [tail])
    ensures Inv(u)
  {
    hide Weights;
    var f := s.stack[0];
    TopFacts(s);
    OneWeight(f, f.h);
    OneWeight(tail, f.h);
    assert [] + [f] == s.stack && [] + [tail] == u.stack;
    assert s.eng[f.e := s.eng[f.e]] == s.eng;
    hide Inv;
    LocalKeeps(s, u, f.e, f.h, [], [f], [tail]);
  }

  lemma StopReturnEnds(s: State)
    requires Inv(s) && |s.stack| == 1 && !s.inApp && s.stack[0].StopReturn? && InRange(s, s.stack[0])
    requires !s.m.terminalFired
    requires var a := s.api[s.stack[0].h]; a.commit && Finished(a)
    ensures Inv(Resumed(s.(stack := []), s.stack[0]))
  {
    hide Weights;
    NoFrames();
    var f := s.stack[0];
    var h := f.h;
    TopFacts(s);
    assert OwnSlot(s, f.e, h);
    var t := Resumed(s.(stack := []), f);
    OneWeight(f, h);
    assert [] + [f] == s.stack;
    assert f.commit;
    var push := [EngineDone(f.e, f.gen, true)] + [DropHold(h)] + [ClosedReturn(h)];
    assert push == [EngineDone(f.e, f.gen, true), DropHold(h)] + [ClosedReturn(h)];
    ThreeWeights(EngineDone(f.e, f.gen, true), h);
    hide Inv;
    LocalKeeps(s, t, f.e, h, [], [f], push);
  }

  lemma StopReturnStays(s: State)
    requires Inv(s) && |s.stack| == 1 && !s.inApp && s.stack[0].StopReturn? && InRange(s, s.stack[0])
    requires var a := s.api[s.stack[0].h]; !(a.commit && Finished(a))
    ensures Inv(Resumed(s.(stack := []), s.stack[0]))
  {
    hide Weights;
    NoFrames();
    var f := s.stack[0];
    var h := f.h;
    TopFacts(s);
    if s.api[h].alive {
      assert OwnSlot(s, f.e, h);
    } else if !s.m.terminalFired && s.eng[f.e].gen == f.gen && s.eng[f.e].kind == Wt {
      RootUnowned(s, f.e, f.gen, h);
    }
    var t := Resumed(s.(stack := []), f);
    OneWeight(f, h);
    assert [] + [f] == s.stack;
    hide Inv;
    LocalKeeps(s, t, f.e, h, [], [f], []);
  }

  /** What remains to be done after the commitment callback concerns a handle that is already cut off. */
  lemma CommitReturnFits(s: State)
    requires Inv(s) && |s.stack| == 1 && s.stack[0].CommitReturn? && InRange(s, s.stack[0])
    ensures var f := s.stack[0]; var t := Resumed(s.(stack := []), f);
      SlotOk(t, f.e) && Agrees(t, f.h) && FrameOk(t, EngineDone(f.e, f.gen, true)) && FrameOk(t, FireDeferred) &&
      FrameOk(t, DropHold(f.h)) && FrameOk(t, ClosedReturn(f.h))
  {
    hide Weights;
    TopFacts(s);
    hide Inv;
  }

  lemma CommitReturnKeeps(s: State)
    requires Inv(s) && |s.stack| == 1 && !s.inApp && s.stack[0].CommitReturn? && InRange(s, s.stack[0])
    ensures Inv(Resumed(s.(stack := []), s.stack[0]))
  {
    hide Weights, Inv, HandleOk, SlotOk, EndingOk, FrameOk, Agrees;
    var f := s.stack[0];
    var h := f.h;
    TopFacts(s);
    CommitReturnFits(s);
    var t := Resumed(s.(stack := []), f);
    var push := [EngineDone(f.e, f.gen, true), FireDeferred, DropHold(h), ClosedReturn(h)];
    CommitWeights(f.e, f.gen, h);
    OneWeight(f, h);
    assert [] + [f] == s.stack && [] + push == push;
    assert s.eng[f.e := s.eng[f.e]] == s.eng && s.api[h := s.api[h]] == s.api;
    CommitHolds(s, h);
    hide Resumed;
    LocalKeeps(s, t, f.e, h, [], [f], push);
  }

  lemma CommitHolds(s: State, h: nat)
    requires Inv(s) && |s.stack| == 1 && s.stack[0].CommitReturn? && s.stack[0].h == h && h < |s.api|
    ensures !s.api[h].alive && (s.api[h].refs > 0 ==> s.api[h].es < |s.eng|)
  {
    hide Weights;
    assert FrameOk(s, s.stack[0]) && HandleOk(s, h);
  }

  lemma CommitWeights(e: nat, gen: nat, h: nat)
    ensures Weights([EngineDone(e, gen, true), FireDeferred, DropHold(h), ClosedReturn(h)], h) == 2
  {
    hide Weights;
    NoFrames();
    var fs := [EngineDone(e, gen, true), FireDeferred, DropHold(h), ClosedReturn(h)];
    assert fs == [EngineDone(e, gen, true), FireDeferred] + ([DropHold(h)] + [ClosedReturn(h)]);
    WeightsConcat([EngineDone(e, gen, true), FireDeferred], [DropHold(h)] + [ClosedReturn(h)], h);
    HandleFree([EngineDone(e, gen, true), FireDeferred], h);
    TwoWeights(h);
  }

  /** A frame of the session itself leaves, possibly for one more callback. */
  predicate SessionFrame(s: State, f: Frame) {
    f.Plain? || f.FireClosed? || f.FireFailed? || f.FireDeferred? || (f.Teardown? && f.next == |s.api|)
  }

  predicate Popped(s: State, t: State, base: seq<Frame>, f: Frame, push: seq<Frame>) {
    SameEnding(s, t) && t.m.nextGen == s.m.nextGen && t.eng == s.eng && t.api == s.api &&
    s.stack == base + [f] && t.stack == base + push && (t.inApp || t.stack != []) &&
    SessionFrame(s, f) && (push == [] || push == [Plain])
  }

  lemma PoppedHandles(s: State, t: State, base: seq<Frame>, f: Frame, push: seq<Frame>, h: nat)
    requires Inv(s) && Popped(s, t, base, f, push) && h < |s.api|
    ensures HandleOk(t, h)
  {
    hide Weights;
    NoFrames();
    assert HandleOk(s, h);
    WeightsConcat(base, [f], h);
    WeightsConcat(base, push, h);
    HandleFree([f], h);
    HandleFree(push, h);
    assert base != [] ==> t.stack[0] == s.stack[0];
    assert InReset(t, h) == InReset(s, h) && InStop(t, h) == InStop(s, h);
  }

  lemma PoppedSlots(s: State, t: State, base: seq<Frame>, f: Frame, push: seq<Frame>, e: nat)
    requires Inv(s) && Popped(s, t, base, f, push) && e < |s.eng|
    ensures SlotOk(t, e)
  {
    assert SlotOk(s, e);
    assert base != [] ==> t.stack[0] == s.stack[0];
    assert RootOn(s, e) ==> RootOn(t, e);
  }

  lemma PoppedKeeps(s: State, t: State, base: seq<Frame>, f: Frame, push: seq<Frame>)
    requires Inv(s) && Popped(s, t, base, f, push)
    ensures Inv(t)
  {
    hide HandleOk, SlotOk, StackOk, EndingOk, Distinct;
    forall h | 0 <= h < |t.api| ensures HandleOk(t, h) {
      PoppedHandles(s, t, base, f, push, h);
    }
    forall e | 0 <= e < |t.eng| ensures SlotOk(t, e) {
      PoppedSlots(s, t, base, f, push, e);
    }
    PoppedFrames(s, t, base, f, push);
  }

  lemma PoppedFrames(s: State, t: State, base: seq<Frame>, f: Frame, push: seq<Frame>)
    requires Inv(s) && Popped(s, t, base, f, push)
    ensures StackOk(t) && EndingOk(t) && Distinct(t)
  {
    forall k | 0 <= k < |t.stack| ensures FrameOk(t, t.stack[k]) && (k > 0 ==> !IsRoot(t.stack[k])) {
      if k < |base| {
        assert s.stack[k] == t.stack[k];
        assert FrameOk(s, s.stack[k]);
      }
    }
    if t.m.terminalFired {
      forall g | 0 <= g < |t.api| && t.api[g].alive ensures TornLater(t, g) {
        assert TornLater(s, g);
        var k :| 0 <= k < |s.stack| && s.stack[k].Teardown? && s.stack[k].next <= g;
        assert k < |base|;
        assert t.stack[k] == s.stack[k];
      }
    }
  }

  /** The teardown moves past a handle that is not alive. */
  lemma AdvanceKeeps(s: State, k: nat, i: nat)
    requires Inv(s) && k < |s.stack| && s.stack[k] == Teardown(i) && i < |s.api| && !s.api[i].alive
    ensures Inv(s.(stack := s.stack[k := Teardown(i + 1)]))
  {
    var t := s.(stack := s.stack[k := Teardown(i + 1)]);
    assert FrameOk(s, s.stack[k]);
    forall h | 0 <= h < |t.api| ensures HandleOk(t, h) {
      assert HandleOk(s, h);
      SameWeights(s.stack, k, i, h);
      assert InReset(t, h) == InReset(s, h) && InStop(t, h) == InStop(s, h);
    }
    forall e | 0 <= e < |t.eng| ensures SlotOk(t, e) {
      assert SlotOk(s, e);
      assert RootOn(s, e) ==> RootOn(t, e);
    }
    forall j | 0 <= j < |t.stack| ensures FrameOk(t, t.stack[j]) && (j > 0 ==> !IsRoot(t.stack[j])) {
      assert FrameOk(s, s.stack[j]);
    }
    forall g | 0 <= g < |t.api| && t.api[g].alive ensures TornLater(t, g) {
      assert TornLater(s, g);
      var j :| 0 <= j < |s.stack| && s.stack[j].Teardown? && s.stack[j].next <= g;
      assert t.stack[j].Teardown? && t.stack[j].next <= g;
    }
  }

  lemma {:induction false} SameWeights(fs: seq<Frame>, k: nat, i: nat, h: nat)
    requires k < |fs| && fs[k] == Teardown(i)
    ensures Weights(fs[k := Teardown(i + 1)], h) == Weights(fs, h)
  {
    var n := |fs| - 1;
    if k == n {
      assert fs[k := Teardown(i + 1)][..n] == fs[..n];
    } else {
      SameWeights(fs[..n], k, i, h);
      assert fs[k := Teardown(i + 1)][..n] == fs[..n][k := Teardown(i + 1)];
    }
  }

  /** With one root frame left, a handle of a session that is over is not alive. */
  lemma AloneMeansLiving(s: State)
    requires Inv(s) && |s.stack| == 1 && IsRoot(s.stack[0]) && s.m.terminalFired
    ensures forall h :: 0 <= h < |s.api| ==> !s.api[h].alive
  {
    forall h | 0 <= h < |s.api| ensures !s.api[h].alive {
      assert s.api[h].alive ==> TornLater(s, h);
    }
  }

  lemma RootReturnKeeps(s: State)
    requires Inv(s) && !s.inApp && s.stack != [] && InRange(s, s.stack[|s.stack| - 1])
    requires IsRoot(s.stack[|s.stack| - 1])
    ensures Inv(Next(s, Resume))
  {
    hide Weights;
    NoFrames();
    TopFacts(s);
    var f := s.stack[0];
    assert |s.stack| == 1 && s.stack[..0] == [];
    if s.m.terminalFired {
      AloneMeansLiving(s);
    }
    hide Inv, HandleOk, SlotOk, EndingOk;
    match f
    case DataReturn(h, e, gen, fin) =>
      if !fin {
        DropKeeps(s, [], f);
      } else if Finished(s.api[h].(flags := s.api[h].flags.(recv := false))) {
        CloseRecvEnds(s, EngineFin(e, gen));
      } else {
        CloseRecvStays(s, EngineFin(e, gen));
      }
    case ResetReturn(h, e, gen) =>
      if Finished(s.api[h].(flags := s.api[h].flags.(recv := false))) {
        CloseRecvEnds(s, EngineDone(e, gen, false));
      } else {
        CloseRecvStays(s, EngineDone(e, gen, false));
      }
    case StopReturn(h, e, gen, commit) =>
      if s.api[h].commit && Finished(s.api[h]) {
        StopReturnEnds(s);
      } else {
        StopReturnStays(s);
      }
    case CommitReturn(h, e, gen) => CommitReturnKeeps(s);
    case EngineFin(e, gen) => EngineTailKeeps(s);
    case EngineDone(e, gen, checked) => EngineTailKeeps(s);
    case EngineRelease(e, gen) => EngineTailKeeps(s);
  }

  lemma TeardownKeeps(s: State, base: seq<Frame>, i: nat)
    requires Inv(s) && !s.inApp && s.stack == base + [Teardown(i)] && InRange(s, Teardown(i))
    ensures Inv(Resumed(s.(stack := base), Teardown(i)))
  {
    var t := Resumed(s.(stack := base), Teardown(i));
    var n := |base|;
    assert s.stack[n] == Teardown(i);
    assert FrameOk(s, s.stack[n]);
    if i == |s.api| {
      hide Inv;
      PoppedKeeps(s, t, base, Teardown(i), []);
    } else if s.api[i].alive {
      TearOneKeeps(s, i);
      var u := TornOne(s, i);
      hide Inv;
      AdvanceKeeps(u, n, i);
      assert t.stack == u.stack[n := Teardown(i + 1)];
      assert t == u.(stack := u.stack[n := Teardown(i + 1)]);
    } else {
      hide Inv;
      AdvanceKeeps(s, n, i);
      assert t == s.(stack := s.stack[n := Teardown(i + 1)]);
    }
  }

  /** The teardown closes handle `i`, before it moves on. */
  function TornOne(s: State, i: nat): State
    requires i < |s.api| && s.api[i].es < |s.eng|
  {
    Terminal(Handle(s, i, s.api[i].(flags := Shut)), i, [])
  }

  lemma TearOneKeeps(s: State, i: nat)
    requires Inv(s) && s.m.terminalFired && i < |s.api| && s.api[i].alive
    ensures s.api[i].refs > 0 && s.api[i].es < |s.eng| && Inv(TornOne(s, i))
  {
    hide Weights;
    NoFrames();
    assert HandleOk(s, i) && SlotOk(s, s.api[i].es);
    assert s.stack != [] ==> FrameOk(s, s.stack[0]);
    hide Inv;
    var push := [] + [ClosedReturn(i)];
    assert push == [ClosedReturn(i)];
    OneWeight(ClosedReturn(i), i);
    assert s.stack + [] == s.stack;
    LocalKeeps(s, TornOne(s, i), s.api[i].es, i, s.stack, [], push);
  }

  lemma OtherReturnKeeps(s: State, base: seq<Frame>, f: Frame)
    requires Inv(s) && !s.inApp && s.stack == base + [f] && InRange(s, f) && !IsRoot(f)
    ensures Inv(Resumed(s.(stack := base), f))
  {
    hide Inv;
    var t := Resumed(s.(stack := base), f);
    match f
    case ClosedReturn(h) => DropKeeps(s, base, f);
    case DropHold(h) => DropKeeps(s, base, f);
    case Teardown(i) => TeardownKeeps(s, base, i);
    case FireClosed => PoppedKeeps(s, t, base, f, if s.m.commitDepth != 0 then [] else [Plain]);
    case FireFailed => PoppedKeeps(s, t, base, f, [Plain]);
    case FireDeferred =>
      PoppedKeeps(s, t, base, f, if s.m.commitDepth == 0 && s.m.deferred then [Plain] else []);
    case Plain => PoppedKeeps(s, t, base, f, []);
  }

  lemma ResumeKeeps(s: State)
    requires Inv(s) && Enabled(s, Resume)
    ensures Inv(Next(s, Resume))
  {
    hide Inv;
    var n := |s.stack| - 1;
    if IsRoot(s.stack[n]) {
      RootReturnKeeps(s);
    } else {
      assert s.stack == s.stack[..n] + [s.stack[n]];
      OtherReturnKeeps(s, s.stack[..n], s.stack[n]);
    }
  }

  // ---------------------------------------------------------------- every step, every run

  lemma ReturnKeeps(s: State)
    requires Inv(s) && Enabled(s, AppReturn)
    ensures Inv(s.(inApp := false))
  {
    assert s.stack + [] == s.stack && EndingOk(s);
    hide Inv;
    OuterKeeps(s, s.(inApp := false), []);
  }

  lemma SessionStepKeeps(s: State, ev: Event)
    requires Inv(s) && s.inApp && Enabled(s, ev)
    requires ev.CloseSession? || ev.OpenFatal? || ev.PeerClose? || ev.Lost?
    ensures Inv(Next(s, ev))
  {
    assert EndingOk(s);
    hide Inv;
    if ev.Lost? {
      LoseKeeps(s);
    } else if s.m.phase == Active && !s.m.terminalFired && !s.m.connClosed {
      if ev.OpenFatal? {
        LoseKeeps(s);
      } else {
        EndKeeps(s, ev.rawFails);
      }
    }
  }

  /** What the transport reports about streams that are there, and about the session. */
  predicate FromTransport(ev: Event) {
    ev.Data? || ev.PeerReset? || ev.PeerStop? || ev.SendOver? || ev.StreamGone? || ev.Writable? || ev.PeerDrain? || ev.PeerDatagram?
  }

  lemma TransportKeeps(s: State, ev: Event)
    requires Inv(s) && s.inApp && Enabled(s, ev) && FromTransport(ev)
    ensures Inv(Next(s, ev))
  {
    hide Inv;
    match ev
    case Data(e, fin) => DataKeeps(s, e, fin);
    case PeerReset(e) => ResetKeeps(s, e);
    case PeerStop(e) => StopKeeps(s, e);
    case SendOver(e, gen, graceful) => SendOverKeeps(s, e, gen, graceful);
    case StreamGone(e) => GoneKeeps(s, e);
    case Writable(e) => WritableKeeps(s, e);
    case PeerDrain => NoticeKeeps(s, ev);
    case PeerDatagram => NoticeKeeps(s, ev);
  }

  /**
   Every step keeps the invariant, except an open into the slot of the stream whose reset is
   being reported.
   */
  lemma NextKeeps(s: State, ev: Event)
    requires Inv(s) && Enabled(s, ev) && Guarded(s, ev)
    ensures Inv(Next(s, ev))
  {
    assert StackOk(s);
    hide Inv, StackOk;
    match ev
    case AppReturn => ReturnKeeps(s);
    case Resume => ResumeKeeps(s);
    case Send(h, fin, ok) => SendKeeps(s, h, fin, ok);
    case Shutdown(h, send, recv, whole, answer) => ShutdownKeeps(s, h, send, recv, whole, answer);
    case EnableCommit(h) => EnableCommitKeeps(s, h);
    case Open(bidi, e, h) => OpenKeeps(s, bidi, e, h);
    case OpenUnheld(bidi, e) => OpenUnheldKeeps(s, bidi, e);
    case AddRef(h) => RefKeeps(s, ev);
    case ReleaseRef(h) => RefKeeps(s, ev);
    case PeerStream(e, bidi, h) => PeerStreamKeeps(s, e, bidi, h);
    case _ =>
      if FromTransport(ev) {
        TransportKeeps(s, ev);
      } else if ev.Establish? || ev.Refuse? || ev.Fail? {
        PhaseKeeps(s, ev);
      } else if ev.PeerAlloc? || ev.PeerFree? || ev.PeerUnheld? || ev.Retire? {
        PeerSlotKeeps(s, ev);
      } else {
        SessionStepKeeps(s, ev);
      }
  }
}
