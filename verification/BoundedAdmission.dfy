/**
 Bounded admission: the engine's stream slots, the API's handle slots and the backend's native
 records are three arrays with three allocators. In a budgeted session they stay in step: the
 three entries of a stream have one index, and the index is free again only when all three have
 let go of it. Entries refer to each other by index, -1 for none, and steps follow those
 references wherever they lead.
 */
module BoundedAdmission {

  datatype Kind = Free | Wt | Other

  /** An engine slot; `peer` is the admission record registered for it. */
  datatype Engine = Engine(kind: Kind, resident: bool, ds: int, peer: int)

  /** A handle slot; `credit` is the native record it holds a lease on. */
  datatype Handle = Handle(refs: nat, alive: bool, es: int, credit: int)

  /** Reading the preamble, waiting to be admitted, admitted, or none of the engine's business. */
  datatype Admission = Reading | Waiting | Admitted | Ignored

  datatype Native = Native(
    occupied: bool,
    local: bool,
    bidi: bool,
    ectx: int,
    prefixEs: int,
    state: Admission,
    leased: bool,
    over: bool,
    busy: bool)

  /** Peer unidirectional slots first, then peer bidirectional ones, then local ones. */
  datatype Plan = Plan(uni: nat, bidi: nat, local: nat, native: nat)

  function PeerCount(p: Plan): nat {
    p.uni + p.bidi
  }

  function Capacity(p: Plan): nat {
    p.uni + p.bidi + p.local
  }

  /** `stuck` records a branch that the allocators are meant to make unreachable. */
  datatype State = State(eng: seq<Engine>, api: seq<Handle>, natives: seq<Native>, plan: Plan, stuck: bool)

  const NoEngine := Engine(Free, false, -1, -1)
  const NoHandle := Handle(0, false, -1, -1)
  const NoNative := Native(false, false, false, -1, -1, Reading, false, false, false)

  predicate Sized(s: State) {
    |s.eng| == Capacity(s.plan) && |s.api| == Capacity(s.plan) && |s.natives| == s.plan.native && Capacity(s.plan) <= s.plan.native
  }

  predicate IsInit(s: State) {
    Sized(s) && !s.stuck && (forall i :: 0 <= i < |s.eng| ==> s.eng[i] == NoEngine) &&
    (forall i :: 0 <= i < |s.api| ==> s.api[i] == NoHandle) && (forall i :: 0 <= i < |s.natives| ==> s.natives[i] == NoNative)
  }

  // ---------------------------------------------------------------- the three allocators

  datatype Found = Found(index: nat) | None

  /** The native record for a new peer stream: the first that is not occupied. */
  function FindNative(natives: seq<Native>, i: nat, end: nat): (r: Found)
    requires i <= end <= |natives|
    ensures r.Found? ==> i <= r.index < end && !natives[r.index].occupied
    decreases end - i
  {
    if i == end then None else if !natives[i].occupied then Found(i) else FindNative(natives, i + 1, end)
  }

  predicate Available(e: Engine) {
    !e.resident && e.kind == Free
  }

  /** The handle slot for a local stream: the first unreferenced one whose engine slot is available. */
  function FindHandle(s: State, i: nat): (r: Found)
    requires Sized(s) && i <= Capacity(s.plan)
    ensures r.Found? ==> i <= r.index < Capacity(s.plan) && s.api[r.index].refs == 0 && Available(s.eng[r.index])
    decreases Capacity(s.plan) - i
  {
    if i == Capacity(s.plan) then None
    else if s.api[i].refs == 0 && Available(s.eng[i]) then Found(i)
    else FindHandle(s, i + 1)
  }

  /** The engine slot for a local stream: the first available one, whatever the API thinks. */
  function FindEngine(s: State, i: nat): (r: Found)
    requires Sized(s) && i <= Capacity(s.plan)
    ensures r.Found? ==> i <= r.index < Capacity(s.plan) && Available(s.eng[r.index])
    decreases Capacity(s.plan) - i
  {
    if i == Capacity(s.plan) then None else if Available(s.eng[i]) then Found(i) else FindEngine(s, i + 1)
  }

  // ---------------------------------------------------------------- the steps

  datatype Preamble = WebTransport | Http | Foreign

  datatype Event =
    | PeerArrives(bidi: bool)
    | ReadPreamble(n: nat, what: Preamble)
    | Attach(n: nat)
    | Admit(n: nat)
    | OpenLocal(bidi: bool, nativeFails: bool)
    | ReleaseEngine(e: nat)
    | Unlink(h: nat)
    | AddRef(h: nat)
    | DropRef(h: nat)
    | ShutdownComplete(n: nat)
    | SetBusy(n: nat, busy: bool)
    | Collect(n: nat)

  predicate InRange(i: int, n: nat) {
    0 <= i < n
  }

  predicate Enabled(s: State, ev: Event) {
    Sized(s) &&
    match ev
    case PeerArrives(_) => true
    case ReadPreamble(n, _) => n < PeerCount(s.plan) && s.natives[n].occupied && s.natives[n].state == Reading
    case Attach(n) => n < PeerCount(s.plan) && s.natives[n].occupied
    case Admit(n) => n < PeerCount(s.plan) && s.natives[n].state == Waiting && s.natives[n].occupied
    case OpenLocal(_, _) => true
    case ReleaseEngine(e) => e < |s.eng| && s.eng[e].kind != Free
    case Unlink(h) => h < |s.api| && s.api[h].alive
    case AddRef(h) => h < |s.api| && s.api[h].refs > 0
    case DropRef(h) => h < |s.api| && s.api[h].refs > 0 && (s.api[h].refs > 1 || !s.api[h].alive)
    case ShutdownComplete(n) => n < |s.natives| && s.natives[n].occupied
    case SetBusy(n, _) => n < |s.natives| && s.natives[n].occupied
    case Collect(n) => n < |s.natives| && Collectable(s.natives[n])
  }

  /** Nothing keeps the native record any more. */
  predicate Collectable(r: Native) {
    r.occupied && r.over && r.ectx == -1 && r.prefixEs == -1 && r.state != Waiting && !r.leased && !r.busy
  }

  /** A peer stream takes a native record and registers for the engine slot of that index. */
  function Arrived(s: State, bidi: bool): State
    requires Sized(s)
  {
    var r := FindNative(s.natives, if bidi then s.plan.uni else 0, if bidi then PeerCount(s.plan) else s.plan.uni);
    match r
    case None => s
    case Found(i) =>
      var t := s.(natives := s.natives[i := NoNative.(occupied := true, bidi := bidi)]);
      if s.eng[i].peer != -1 || s.eng[i].resident then t.(stuck := true)
      else t.(eng := s.eng[i := s.eng[i].(resident := true, ds := i, peer := i)])
  }

  /** The engine takes a registered peer stream into the slot it is registered for. */
  function Entered(s: State, n: nat, kind: Kind): State
    requires Sized(s) && n < PeerCount(s.plan)
  {
    s.(eng := s.eng[n := s.eng[n].(kind := kind, resident := true, ds := n)],
       natives := s.natives[n := s.natives[n].(prefixEs := n, state := Admitted)])
  }

  /** A new handle in slot `h` for engine slot `e` leases the native record that slot names. */
  function Acquired(s: State, h: nat, e: nat): State
    requires Sized(s) && h < |s.api| && e < |s.eng| && InRange(s.eng[e].ds, |s.natives|)
  {
    var d := s.eng[e].ds;
    s.(api := s.api[h := Handle(1, true, e, d)], natives := s.natives[d := s.natives[d].(leased := true)])
  }

  /** Admission: refused while the handle slot is referenced; the API takes the slot of that index. */
  function AfterAdmit(s: State, n: nat): State
    requires Sized(s) && n < PeerCount(s.plan)
  {
    if s.api[n].refs != 0 then s.(stuck := true)
    else if s.eng[n].peer != n || s.eng[n].kind != Free then s.(stuck := true)
    else
      var t := Entered(s, n, Wt);
      if t.api[n].refs != 0 then t.(stuck := true) else Acquired(t, n, n)
  }

  /** A local open reserves a handle, then asks the engine, which asks the backend. */
  function AfterOpen(s: State, bidi: bool, nativeFails: bool): State
    requires Sized(s)
  {
    var h := FindHandle(s, PeerCount(s.plan));
    var e := FindEngine(s, PeerCount(s.plan));
    if h.None? then s
    else if e.None? then s.(stuck := true)
    else if s.natives[e.index].occupied then s.(stuck := true)
    else if nativeFails then s
    else
      var i := e.index;
      var t := s.(natives := s.natives[i := NoNative.(occupied := true, local := true, bidi := bidi, ectx := i)],
                  eng := s.eng[i := Engine(Wt, true, i, -1)]);
      Acquired(t, h.index, i)
  }

  /** The slot is free, and its native record no longer leads to it. */
  function Released(s: State, e: nat): State
    requires Sized(s) && e < |s.eng|
  {
    var d := s.eng[e].ds;
    var p := s.eng[e].peer;
    var a := if InRange(d, |s.natives|) && s.natives[d].ectx == e then s.natives[d := s.natives[d].(ectx := -1)] else s.natives;
    var b := if InRange(p, |s.natives|) && a[p].prefixEs == e then a[p := a[p].(prefixEs := -1, state := Ignored)] else a;
    s.(eng := s.eng[e := s.eng[e].(kind := Free)], natives := b)
  }

  /** The last reference returns the lease. */
  function RefDropped(s: State, h: nat): State
    requires Sized(s) && h < |s.api| && s.api[h].refs > 0
  {
    var a := s.api[h];
    if a.refs > 1 || !InRange(a.credit, |s.natives|) then s.(api := s.api[h := a.(refs := a.refs - 1)])
    else
      s.(api := s.api[h := a.(refs := 0, credit := -1)], natives := s.natives[a.credit := s.natives[a.credit].(leased := false)])
  }

  /** Collecting a record retires the engine slot of its index, if that slot is its own and free. */
  function Collected(s: State, n: nat): State
    requires Sized(s) && n < |s.natives|
  {
    var eng :=
      if n >= |s.eng| then s.eng
      else
        var forgotten := if !s.natives[n].local && s.eng[n].peer == n then s.eng[n].(peer := -1) else s.eng[n];
        s.eng[n := if forgotten.ds == n && forgotten.kind == Free then forgotten.(resident := false, ds := -1) else forgotten];
    s.(eng := eng, natives := s.natives[n := s.natives[n].(occupied := false)])
  }

  function Next(s: State, ev: Event): State
    requires Enabled(s, ev)
  {
    match ev
    case PeerArrives(bidi) => Arrived(s, bidi)
    case ReadPreamble(n, what) =>
      (match what
       case WebTransport => s.(natives := s.natives[n := s.natives[n].(state := Waiting)])
       case Foreign => s.(natives := s.natives[n := s.natives[n].(state := Ignored)])
       case Http => if s.eng[n].kind != Free then s.(stuck := true) else Entered(s, n, Other))
    case Attach(n) => s.(natives := s.natives[n := s.natives[n].(ectx := s.natives[n].prefixEs)])
    case Admit(n) => AfterAdmit(s, n)
    case OpenLocal(bidi, nativeFails) => AfterOpen(s, bidi, nativeFails)
    case ReleaseEngine(e) => Released(s, e)
    case Unlink(h) => s.(api := s.api[h := s.api[h].(alive := false, es := -1)])
    case AddRef(h) => s.(api := s.api[h := s.api[h].(refs := s.api[h].refs + 1)])
    case DropRef(h) => RefDropped(s, h)
    case ShutdownComplete(n) => s.(natives := s.natives[n := s.natives[n].(over := true)])
    case SetBusy(n, busy) => s.(natives := s.natives[n := s.natives[n].(busy := busy)])
    case Collect(n) => Collected(s, n)
  }

  predicate Run(es: seq<Event>, ss: seq<State>) {
    |ss| == |es| + 1 && IsInit(ss[0]) &&
    forall i :: 0 <= i < |es| ==> Enabled(ss[i], es[i]) && ss[i + 1] == Next(ss[i], es[i])
  }

  // ---------------------------------------------------------------- one index for all three

  predicate OneOf(x: int, i: int) {
    x == -1 || x == i
  }

  predicate EngineOk(s: State, i: nat)
    requires Sized(s) && i < Capacity(s.plan)
  {
    var e, r := s.eng[i], s.natives[i];
    e.resident == r.occupied && e.ds == (if e.resident then i else -1) &&
    e.peer == (if r.occupied && i < PeerCount(s.plan) then i else -1) && (r.occupied ==> r.local == (i >= PeerCount(s.plan))) &&
    (r.occupied && !r.local ==> (r.bidi <==> i >= s.plan.uni)) &&
    OneOf(r.ectx, i) && OneOf(r.prefixEs, i) &&
    (r.occupied ==> ((r.ectx == i || r.prefixEs == i) <==> e.kind != Free) && (r.prefixEs == i ==> !r.local && r.state == Admitted)) &&
    (!r.occupied ==> e.kind == Free && !r.leased) && (r.occupied && !r.local && r.ectx == i ==> r.prefixEs == i)
  }

  predicate HandleOk(s: State, i: nat)
    requires Sized(s) && i < Capacity(s.plan)
  {
    var a, r := s.api[i], s.natives[i];
    OneOf(a.es, i) && a.credit == (if a.refs > 0 then i else -1) && (r.leased <==> a.refs > 0) && (a.alive ==> a.refs > 0) &&
    (a.refs > 0 ==> r.occupied && (r.local || r.state == Admitted || r.state == Ignored)) &&
    (r.occupied && !r.local && (r.state == Reading || r.state == Waiting) ==> a.refs == 0 && s.eng[i].kind == Free)
  }

  predicate Inv(s: State) {
    Sized(s) && !s.stuck && forall i :: 0 <= i < Capacity(s.plan) ==> EngineOk(s, i) && HandleOk(s, i)
  }

  /** A slot the engine calls available is one the API and the backend have let go of. */
  lemma {:induction false} AllocatorsAgree(s: State, i: nat)
    requires Inv(s) && i <= Capacity(s.plan)
    ensures FindHandle(s, i) == FindEngine(s, i)
    decreases Capacity(s.plan) - i
  {
    if i < Capacity(s.plan) {
      assert EngineOk(s, i) && HandleOk(s, i);
      AllocatorsAgree(s, i + 1);
    }
  }

  lemma ArriveKeeps(s: State, bidi: bool)
    requires Inv(s)
    ensures Inv(Arrived(s, bidi))
  {
    var r := FindNative(s.natives, if bidi then s.plan.uni else 0, if bidi then PeerCount(s.plan) else s.plan.uni);
    if r.Found? {
      assert EngineOk(s, r.index) && HandleOk(s, r.index);
      var t := Arrived(s, bidi);
      forall i | 0 <= i < Capacity(s.plan) ensures EngineOk(t, i) && HandleOk(t, i) {
        assert EngineOk(s, i) && HandleOk(s, i);
      }
    }
  }

  lemma AdmitKeeps(s: State, n: nat)
    requires Inv(s) && Enabled(s, Admit(n))
    ensures Inv(AfterAdmit(s, n))
  {
    assert EngineOk(s, n) && HandleOk(s, n);
    var t := AfterAdmit(s, n);
    forall i | 0 <= i < Capacity(s.plan) ensures EngineOk(t, i) && HandleOk(t, i) {
      assert EngineOk(s, i) && HandleOk(s, i);
    }
  }

  lemma OpenKeeps(s: State, bidi: bool, nativeFails: bool)
    requires Inv(s)
    ensures Inv(AfterOpen(s, bidi, nativeFails))
  {
    AllocatorsAgree(s, PeerCount(s.plan));
    var e := FindEngine(s, PeerCount(s.plan));
    if e.Found? {
      assert EngineOk(s, e.index) && HandleOk(s, e.index);
      var t := AfterOpen(s, bidi, nativeFails);
      forall i | 0 <= i < Capacity(s.plan) ensures EngineOk(t, i) && HandleOk(t, i) {
        assert EngineOk(s, i) && HandleOk(s, i);
      }
    }
  }

  lemma ReleaseKeeps(s: State, e: nat)
    requires Inv(s) && Enabled(s, ReleaseEngine(e))
    ensures Inv(Released(s, e))
  {
    assert EngineOk(s, e) && HandleOk(s, e);
    var t := Released(s, e);
    forall i | 0 <= i < Capacity(s.plan) ensures EngineOk(t, i) && HandleOk(t, i) {
      assert EngineOk(s, i) && HandleOk(s, i);
    }
  }

  lemma CollectKeeps(s: State, n: nat)
    requires Inv(s) && Enabled(s, Collect(n))
    ensures Inv(Collected(s, n))
  {
    if n < Capacity(s.plan) {
      assert EngineOk(s, n) && HandleOk(s, n);
    }
    var t := Collected(s, n);
    forall i | 0 <= i < Capacity(s.plan) ensures EngineOk(t, i) && HandleOk(t, i) {
      assert EngineOk(s, i) && HandleOk(s, i);
    }
  }

  lemma DropKeeps(s: State, h: nat)
    requires Inv(s) && Enabled(s, DropRef(h))
    ensures Inv(RefDropped(s, h))
  {
    assert EngineOk(s, h) && HandleOk(s, h);
    var t := RefDropped(s, h);
    forall i | 0 <= i < Capacity(s.plan) ensures EngineOk(t, i) && HandleOk(t, i) {
      assert EngineOk(s, i) && HandleOk(s, i);
    }
  }

  lemma ReadKeeps(s: State, n: nat, what: Preamble)
    requires Inv(s) && Enabled(s, ReadPreamble(n, what))
    ensures Inv(Next(s, ReadPreamble(n, what)))
  {
    assert EngineOk(s, n) && HandleOk(s, n);
    var t := Next(s, ReadPreamble(n, what));
    forall i | 0 <= i < Capacity(s.plan) ensures EngineOk(t, i) && HandleOk(t, i) {
      assert EngineOk(s, i) && HandleOk(s, i);
    }
  }

  lemma OtherKeeps(s: State, ev: Event)
    requires Inv(s) && Enabled(s, ev)
    requires ev.Attach? || ev.Unlink? || ev.AddRef? || ev.ShutdownComplete? || ev.SetBusy?
    ensures Inv(Next(s, ev))
  {
    if ev.Attach? {
      assert EngineOk(s, ev.n) && HandleOk(s, ev.n);
    }
    var t := Next(s, ev);
    forall i | 0 <= i < Capacity(s.plan) ensures EngineOk(t, i) && HandleOk(t, i) {
      assert EngineOk(s, i) && HandleOk(s, i);
    }
  }

  lemma StepKeeps(s: State, ev: Event)
    requires Inv(s) && Enabled(s, ev)
    ensures Inv(Next(s, ev)) && Next(s, ev).plan == s.plan
  {
    hide Inv;
    match ev
    case PeerArrives(bidi) => ArriveKeeps(s, bidi);
    case ReadPreamble(n, what) => ReadKeeps(s, n, what);
    case Admit(n) => AdmitKeeps(s, n);
    case OpenLocal(bidi, nativeFails) => OpenKeeps(s, bidi, nativeFails);
    case ReleaseEngine(e) => ReleaseKeeps(s, e);
    case DropRef(h) => DropKeeps(s, h);
    case Collect(n) => CollectKeeps(s, n);
    case _ => OtherKeeps(s, ev);
  }

  lemma {:induction false} RunKeeps(es: seq<Event>, ss: seq<State>, n: nat)
    requires Run(es, ss) && n <= |es|
    ensures Inv(ss[n])
  {
    if n > 0 {
      RunKeeps(es, ss, n - 1);
      hide Inv;
      StepKeeps(ss[n - 1], es[n - 1]);
    }
  }

  // ---------------------------------------------------------------- what bounded admission promises

  /** A stream that any layer still has is at one index in all of them. */
  predicate OneIndex(s: State, i: nat)
    requires Sized(s) && i < Capacity(s.plan)
  {
    (s.api[i].refs > 0 ==> s.api[i].credit == i && s.natives[i].occupied && s.natives[i].leased && s.eng[i].resident) &&
    (s.api[i].es >= 0 ==> s.api[i].es == i) &&
    (s.eng[i].kind != Free ==> s.eng[i].ds == i && s.natives[i].occupied && (s.natives[i].ectx == i || s.natives[i].prefixEs == i)) &&
    (s.natives[i].ectx >= 0 ==> s.natives[i].ectx == i)
  }

  /**
   In every run the three layers agree on the index of every stream, and no branch that copes with
   their disagreement is ever taken: no handle pool exhausted behind an admitted stream, no
   admission of a slot that is still referenced, no reservation that is already registered.
   */
  lemma LayersAgree(es: seq<Event>, ss: seq<State>, n: nat, i: nat)
    requires Run(es, ss) && n <= |es| && i < Capacity(ss[n].plan)
    ensures Sized(ss[n]) && !ss[n].stuck && OneIndex(ss[n], i)
  {
    RunKeeps(es, ss, n);
    assert EngineOk(ss[n], i) && HandleOk(ss[n], i);
  }

  /** An index goes to a new stream only when engine, API and backend had all let go of it. */
  lemma ReusedOnlyWhenFree(es: seq<Event>, ss: seq<State>, n: nat, i: nat)
    requires Run(es, ss) && n < |es| && i < Capacity(ss[n].plan)
    requires |ss[n].natives| > i && |ss[n + 1].natives| > i && !ss[n].natives[i].occupied && ss[n + 1].natives[i].occupied
    ensures Sized(ss[n]) && Available(ss[n].eng[i]) && ss[n].api[i].refs == 0 && ss[n].eng[i].peer == -1
  {
    RunKeeps(es, ss, n);
    assert EngineOk(ss[n], i) && HandleOk(ss[n], i);
  }

  /** The partition of an occupied index tells whose stream it is, and of which direction. */
  lemma PartitionTellsDirection(es: seq<Event>, ss: seq<State>, n: nat, i: nat)
    requires Run(es, ss) && n <= |es| && i < Capacity(ss[n].plan) && |ss[n].natives| > i && ss[n].natives[i].occupied
    ensures var r, p := ss[n].natives[i], ss[n].plan;
            if i < p.uni then !r.local && !r.bidi else if i < p.uni + p.bidi then !r.local && r.bidi else r.local
  {
    RunKeeps(es, ss, n);
    assert EngineOk(ss[n], i);
  }

  lemma {:induction false} FindsLowest(natives: seq<Native>, i: nat, end: nat, k: nat)
    requires i <= k <= end <= |natives| && (forall j :: i <= j < k ==> natives[j].occupied)
    ensures k == end ==> FindNative(natives, i, end) == None
    ensures k < end && !natives[k].occupied ==> FindNative(natives, i, end) == Found(k)
    decreases end - i
  {
    if i < k {
      FindsLowest(natives, i + 1, end, k);
    }
  }

  /** The record an arriving stream of this direction may take, when all the lower ones of its partition are occupied. */
  predicate LowestPeer(s: State, bidi: bool, k: nat) {
    var first := if bidi then s.plan.uni else 0;
    var end := if bidi then s.plan.uni + s.plan.bidi else s.plan.uni;
    first <= k <= end <= |s.natives| && forall j :: first <= j < k ==> s.natives[j].occupied
  }

  /**
   A peer's stream takes the lowest record of its own direction's partition that is not occupied,
   which registers the engine slot of that index; it is turned away only when there is none.
   */
  lemma ArrivalTakesLowest(es: seq<Event>, ss: seq<State>, n: nat, bidi: bool, k: nat)
    requires Run(es, ss) && n < |es| && es[n] == PeerArrives(bidi) && LowestPeer(ss[n], bidi, k)
    ensures k == (if bidi then ss[n].plan.uni + ss[n].plan.bidi else ss[n].plan.uni) ==> ss[n + 1] == ss[n]
    ensures k < (if bidi then ss[n].plan.uni + ss[n].plan.bidi else ss[n].plan.uni) && !ss[n].natives[k].occupied ==>
              k < |ss[n].eng| &&
              ss[n + 1] == ss[n].(natives := ss[n].natives[k := NoNative.(occupied := true, bidi := bidi)],
                                  eng := ss[n].eng[k := Engine(Free, true, k, k)])
  {
    var s := ss[n];
    RunKeeps(es, ss, n);
    assert Enabled(s, es[n]) && ss[n + 1] == Next(s, es[n]);
    FindsLowest(s.natives, if bidi then s.plan.uni else 0, if bidi then PeerCount(s.plan) else s.plan.uni, k);
    if k < PeerCount(s.plan) {
      assert EngineOk(s, k) && HandleOk(s, k);
    }
  }

  lemma {:induction false} FindsFirstEngine(s: State, i: nat, k: nat)
    requires Sized(s) && i <= k <= Capacity(s.plan) && (forall j :: i <= j < k ==> s.eng[j].kind != Free || s.eng[j].resident)
    ensures k == Capacity(s.plan) ==> FindEngine(s, i) == None
    ensures k < Capacity(s.plan) && s.eng[k].kind == Free && !s.eng[k].resident ==> FindEngine(s, i) == Found(k)
    decreases Capacity(s.plan) - i
  {
    if i < k {
      FindsFirstEngine(s, i + 1, k);
    }
  }

  /** The slot a local stream may take, when all the lower ones of the local partition are used or resident. */
  predicate LowestLocal(s: State, k: nat) {
    s.plan.uni + s.plan.bidi <= k <= |s.eng| &&
    forall j :: s.plan.uni + s.plan.bidi <= j < k ==> s.eng[j].kind != Free || s.eng[j].resident
  }

  /**
   A local open takes the lowest slot of the local partition that is free and not resident, with the
   handle and the native record of that index; without one, or when the transport cannot open a
   stream, nothing changes.
   */
  lemma OpenTakesOneIndex(es: seq<Event>, ss: seq<State>, n: nat, bidi: bool, nativeFails: bool, k: nat)
    requires Run(es, ss) && n < |es| && es[n] == OpenLocal(bidi, nativeFails) && LowestLocal(ss[n], k)
    ensures k == |ss[n].eng| || nativeFails ==> ss[n + 1] == ss[n]
    ensures k < |ss[n].eng| && ss[n].eng[k].kind == Free && !ss[n].eng[k].resident && !nativeFails ==>
              k < |ss[n].api| && k < |ss[n].natives| &&
              ss[n + 1] == ss[n].(
                natives := ss[n].natives[k := Native(true, true, bidi, k, -1, Reading, true, false, false)],
                eng := ss[n].eng[k := Engine(Wt, true, k, -1)], api := ss[n].api[k := Handle(1, true, k, k)])
  {
    var s := ss[n];
    RunKeeps(es, ss, n);
    assert Enabled(s, es[n]) && ss[n + 1] == Next(s, es[n]);
    FindsFirstEngine(s, PeerCount(s.plan), k);
    OpenGoes(s, bidi, nativeFails);
  }

  lemma OpenGoes(s: State, bidi: bool, nativeFails: bool)
    requires Inv(s)
    ensures var e := FindEngine(s, PeerCount(s.plan));
            AfterOpen(s, bidi, nativeFails) ==
              if e.None? || nativeFails then s
              else s.(natives := s.natives[e.index := Native(true, true, bidi, e.index, -1, Reading, true, false, false)],
                      eng := s.eng[e.index := Engine(Wt, true, e.index, -1)],
                      api := s.api[e.index := Handle(1, true, e.index, e.index)])
  {
    AllocatorsAgree(s, PeerCount(s.plan));
    var e := FindEngine(s, PeerCount(s.plan));
    if e.Found? {
      assert EngineOk(s, e.index) && HandleOk(s, e.index);
    }
  }

  /** An admission of a waiting stream always goes through: handle, slot and record take its index. */
  lemma AdmitGoesThrough(es: seq<Event>, ss: seq<State>, n: nat, i: nat)
    requires Run(es, ss) && n < |es| && es[n] == Admit(i)
    ensures i < |ss[n].eng| && i < |ss[n].api| && i < |ss[n].natives|
    ensures ss[n + 1] == ss[n].(
              natives := ss[n].natives[i := ss[n].natives[i].(prefixEs := i, state := Admitted, leased := true)],
              eng := ss[n].eng[i := ss[n].eng[i].(kind := Wt)], api := ss[n].api[i := Handle(1, true, i, i)])
  {
    RunKeeps(es, ss, n);
    assert Enabled(ss[n], es[n]) && ss[n + 1] == Next(ss[n], es[n]);
    assert EngineOk(ss[n], i) && HandleOk(ss[n], i);
  }

  /**
   An index comes back. Its record can be collected if and only if the transport is done with the
   stream, no reference to the handle is left, the engine's slot is free and no admission waits;
   and then engine, API and backend have all let go of it.
   */
  lemma IndexComesBack(es: seq<Event>, ss: seq<State>, n: nat, i: nat)
    requires Run(es, ss) && n <= |es| && i < Capacity(ss[n].plan)
    ensures Sized(ss[n])
    ensures var s, r := ss[n], ss[n].natives[i];
            Enabled(s, Collect(i)) <==>
              r.occupied && r.over && !r.busy && s.api[i].refs == 0 && s.eng[i].kind == Free && r.state != Waiting
    ensures n < |es| && es[n] == Collect(i) ==>
              |ss[n + 1].natives| > i && |ss[n + 1].eng| > i &&
              !ss[n + 1].natives[i].occupied && Available(ss[n + 1].eng[i]) && ss[n + 1].eng[i].peer == -1 &&
              ss[n + 1].api == ss[n].api && ss[n].api[i].refs == 0
  {
    RunKeeps(es, ss, n);
    assert EngineOk(ss[n], i) && HandleOk(ss[n], i);
    if n < |es| {
      assert Enabled(ss[n], es[n]) && ss[n + 1] == Next(ss[n], es[n]);
    }
  }

  /** The last reference to a handle returns the lease on its record. */
  lemma LeaseReturned(es: seq<Event>, ss: seq<State>, n: nat, i: nat)
    requires Run(es, ss) && n < |es| && es[n] == DropRef(i) && i < Capacity(ss[n].plan)
    ensures Sized(ss[n]) && Sized(ss[n + 1])
    ensures ss[n].api[i].refs == 1 ==>
              ss[n + 1] == ss[n].(api := ss[n].api[i := ss[n].api[i].(refs := 0, credit := -1)],
                                  natives := ss[n].natives[i := ss[n].natives[i].(leased := false)])
  {
    RunKeeps(es, ss, n);
    assert Enabled(ss[n], es[n]) && ss[n + 1] == Next(ss[n], es[n]);
    assert EngineOk(ss[n], i) && HandleOk(ss[n], i);
  }

  /** The engine's release of a slot cuts both links of the record to it. */
  lemma LinksCut(es: seq<Event>, ss: seq<State>, n: nat, i: nat)
    requires Run(es, ss) && n < |es| && es[n] == ReleaseEngine(i) && i < Capacity(ss[n].plan)
    ensures Sized(ss[n]) && Sized(ss[n + 1]) && ss[n + 1].api == ss[n].api
    ensures ss[n + 1].eng[i].kind == Free && ss[n + 1].natives[i].ectx == -1 && ss[n + 1].natives[i].prefixEs == -1
  {
    RunKeeps(es, ss, n);
    assert Enabled(ss[n], es[n]) && ss[n + 1] == Next(ss[n], es[n]);
    assert EngineOk(ss[n], i) && HandleOk(ss[n], i);
  }

  /** What a peer's preamble makes of its stream: one that waits for admission, one of HTTP/3, or none of the engine's. */
  lemma PreambleDecides(es: seq<Event>, ss: seq<State>, n: nat, i: nat, what: Preamble)
    requires Run(es, ss) && n < |es| && es[n] == ReadPreamble(i, what)
    ensures i < |ss[n].natives| && i < |ss[n].eng|
    ensures var r, e := ss[n].natives[i], ss[n].eng[i];
            ss[n + 1] == if what == Http
                         then ss[n].(natives := ss[n].natives[i := r.(prefixEs := i, state := Admitted)],
                                     eng := ss[n].eng[i := e.(kind := Other)])
                         else ss[n].(natives := ss[n].natives[i := r.(state := if what == WebTransport then Waiting else Ignored)])
  {
    RunKeeps(es, ss, n);
    assert Enabled(ss[n], es[n]) && ss[n + 1] == Next(ss[n], es[n]);
    assert EngineOk(ss[n], i) && HandleOk(ss[n], i);
  }

  /** The backend's link to the engine's slot leads to the slot of its own index, exactly while the stream is in the engine. */
  lemma AttachLinks(es: seq<Event>, ss: seq<State>, n: nat, i: nat)
    requires Run(es, ss) && n < |es| && es[n] == Attach(i)
    ensures i < |ss[n].natives| && i < |ss[n].eng|
    ensures ss[n + 1] == ss[n].(natives := ss[n].natives[i :=
              ss[n].natives[i].(ectx := if ss[n].natives[i].prefixEs == i then i else -1)])
    ensures ss[n + 1].natives[i].ectx == i <==> ss[n].eng[i].kind != Free
  {
    RunKeeps(es, ss, n);
    assert Enabled(ss[n], es[n]) && ss[n + 1] == Next(ss[n], es[n]);
    assert EngineOk(ss[n], i) && HandleOk(ss[n], i);
  }
}
