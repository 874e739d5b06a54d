/**
 The send chain of a Network stream. A gather takes a record slot; the slot is free again only
 when its completion has been delivered and the transport has let go of it, in either order.
 Queued sends are issued as one batch at a time. The sweep of a dying stream delivers what is
 still owed.
 */
module NwSends {

  const Slots: nat := 16
  const MaxBytes: nat := 0x10_0000

  /** A record; `id` numbers the accepted gathers. */
  datatype Rec = Rec(inUse: bool, appDone: bool, transportDone: bool, id: nat, bytes: nat)

  datatype Ref = Ref(slot: nat, id: nat)

  /** A queued send: of bytes that were copied, or of a gather. */
  datatype Entry = Plain | Gather(ref: Ref)

  datatype Batch = Batch(refs: seq<Ref>, completed: bool, retired: bool)

  /** Completions are fanned out one by one; the application may send in between. */
  datatype Fan = NoFan | Fan(b: nat, k: nat, told: bool)

  datatype Counters = Counters(bytes: int, appPending: int, unretired: int, batchesLive: int)

  datatype Flags = Flags(ready: bool, terminal: bool, cancelIssued: bool, failedSeen: bool, swept: bool, inflight: bool, blocked: bool)

  /** The stream, and as `told` the gathers whose completion was delivered. */
  datatype State = State(
    recs: seq<Rec>,
    pending: seq<Entry>,
    batches: seq<Batch>,
    fan: Fan,
    c: Counters,
    f: Flags,
    accepted: nat,
    told: seq<nat>)

  const Unused := Rec(false, false, false, 0, 0)

  function FreshRecs(): (r: seq<Rec>)
    ensures |r| == Slots && forall i :: 0 <= i < Slots ==> r[i] == Unused
  {
    seq(Slots, _ => Unused)
  }

  function Init(): State {
    State(FreshRecs(), [], [], NoFan, Counters(0, 0, 0, 0), Flags(false, false, false, false, false, false, false), 0, [])
  }

  datatype Room = Free(slot: nat) | NoRoom

  /** The first slot that is not in use, from `i` on. */
  function FindSlot(recs: seq<Rec>, i: nat): (r: Room)
    requires i <= |recs|
    ensures r.Free? ==> r.slot < |recs| && !recs[r.slot].inUse
    decreases |recs| - i
  {
    if i == |recs| then NoRoom else if !recs[i].inUse then Free(i) else FindSlot(recs, i + 1)
  }

  predicate Down(s: State) {
    s.f.terminal || s.f.cancelIssued
  }

  function RefsOf(es: seq<Entry>): seq<Ref> {
    if es == [] then []
    else if es[0].Plain? then RefsOf(es[1..])
    else [es[0].ref] + RefsOf(es[1..])
  }

  /** How many queued sends go into one batch. */
  function Taken(es: seq<Entry>, room: nat): (n: nat)
    ensures n <= |es|
  {
    if es == [] || room == 0 then 0
    else 1 + Taken(es[1..], if es[0].Plain? then room else room - 1)
  }

  predicate Exist(refs: seq<Ref>, n: nat) {
    forall k :: 0 <= k < |refs| ==> refs[k].slot < n
  }

  /** A holder exists from the issue on. */
  function Issued(recs: seq<Rec>, refs: seq<Ref>): (r: seq<Rec>)
    requires Exist(refs, |recs|)
    ensures |r| == |recs|
    decreases |refs|
  {
    if refs == [] then recs
    else
      var n := |refs| - 1;
      var r := Issued(recs, refs[..n]);
      var i := refs[n].slot;
      r[i := r[i].(transportDone := false)]
  }

  /** The batch was never handed to the transport after all. */
  function Unissued(recs: seq<Rec>, refs: seq<Ref>): (r: seq<Rec>)
    requires Exist(refs, |recs|)
    ensures |r| == |recs|
    decreases |refs|
  {
    if refs == [] then recs
    else
      var n := |refs| - 1;
      var r := Unissued(recs, refs[..n]);
      var i := refs[n].slot;
      r[i := r[i].(transportDone := true)]
  }

  predicate AnyDone(recs: seq<Rec>, refs: seq<Ref>)
    requires Exist(refs, |recs|)
  {
    exists k :: 0 <= k < |refs| && recs[refs[k].slot].appDone
  }

  function Retired(recs: seq<Rec>, refs: seq<Ref>): (r: seq<Rec>)
    requires Exist(refs, |recs|)
    ensures |r| == |recs|
    decreases |refs|
  {
    if refs == [] then recs
    else
      var n := |refs| - 1;
      var r := Retired(recs, refs[..n]);
      var i := refs[n].slot;
      r[i := r[i].(transportDone := true, inUse := r[i].inUse && !r[i].appDone)]
  }

  /** Every slot a step may touch exists. */
  predicate InRange(s: State) {
    |s.recs| == Slots && Exist(RefsOf(s.pending), Slots) &&
    (forall b :: 0 <= b < |s.batches| ==> Exist(s.batches[b].refs, Slots)) && FanInRange(s.fan, s.batches)
  }

  predicate FanInRange(fan: Fan, batches: seq<Batch>) {
    fan.Fan? ==>
      fan.b < |batches| && fan.k <= |batches[fan.b].refs| && (fan.told ==> fan.k < |batches[fan.b].refs|)
  }

  /** Issue everything queued, unless something is in flight or the stream is going down. */
  function Pump(s: State, concatFails: bool): State
    requires InRange(s)
  {
    if s.f.inflight || !s.f.ready || Down(s) || s.pending == [] then s
    else
      var n := Taken(s.pending, Slots);
      var refs := RefsOf(s.pending[..n]);
      PrefixExists(s.pending, n);
      if concatFails then s.(pending := [], f := s.f.(cancelIssued := true))
      else
        s.(recs := Issued(s.recs, refs), pending := s.pending[n..], batches := s.batches + [Batch(refs, false, false)],
           c := s.c.(unretired := s.c.unretired + |refs|, batchesLive := s.c.batchesLive + 1),
           f := s.f.(inflight := true))
  }

  lemma PrefixExists(es: seq<Entry>, n: nat)
    requires n <= |es| && Exist(RefsOf(es), Slots)
    ensures Exist(RefsOf(es[..n]), Slots) && Exist(RefsOf(es[n..]), Slots)
  {
    hide RefsOf;
    RefsSplit(es, n);
    ExistParts(RefsOf(es[..n]), RefsOf(es[n..]));
  }

  lemma ExistParts(a: seq<Ref>, b: seq<Ref>)
    requires Exist(a + b, Slots)
    ensures Exist(a, Slots) && Exist(b, Slots)
  {
    forall k | 0 <= k < |a| ensures a[k].slot < Slots {
      assert (a + b)[k] == a[k];
    }
    forall k | 0 <= k < |b| ensures b[k].slot < Slots {
      assert (a + b)[|a| + k] == b[k];
    }
  }

  lemma {:induction false} RefsSplit(es: seq<Entry>, n: nat)
    requires n <= |es|
    ensures RefsOf(es) == RefsOf(es[..n]) + RefsOf(es[n..])
  {
    if n == 0 {
      assert es[0..] == es && es[..0] == [];
    } else {
      RefsSplit(es[1..], n - 1);
      assert es[1..][..n - 1] == es[..n][1..] && es[1..][n - 1..] == es[n..] && es[..n][0] == es[0];
    }
  }

  /** Deliver one completion, unless a sweep already did. */
  function AppComplete(s: State, i: nat): State
    requires i < |s.recs|
  {
    var r := s.recs[i];
    if r.appDone then s
    else
      s.(recs := s.recs[i := r.(appDone := true)], told := s.told + [r.id],
         c := s.c.(appPending := s.c.appPending - 1, bytes := s.c.bytes - r.bytes),
         f := s.f.(blocked := s.f.blocked && Down(s)))
  }

  /** A slot both sides are done with is free again. */
  function ClearSlot(s: State, i: nat): State
    requires i < |s.recs|
  {
    var r := s.recs[i];
    if r.transportDone && r.appDone then s.(recs := s.recs[i := r.(inUse := false)]) else s
  }

  /** A phase of a batch is over; with the second one the batch is gone. */
  function PhaseDone(s: State, b: nat, v: Batch): State
    requires b < |s.batches|
  {
    if v.completed && v.retired
    then s.(batches := s.batches[..b] + s.batches[b + 1..], c := s.c.(batchesLive := s.c.batchesLive - 1))
    else s.(batches := s.batches[b := v])
  }

  /** What the sweep delivers, in slot order. */
  function OwedIds(recs: seq<Rec>): seq<nat> {
    if recs == [] then []
    else
      var n := |recs| - 1;
      OwedIds(recs[..n]) + (if recs[n].inUse && !recs[n].appDone then [recs[n].id] else [])
  }

  function SweptRec(r: Rec): Rec {
    if !r.inUse then r else r.(appDone := true, inUse := !r.transportDone)
  }

  function SweptAll(recs: seq<Rec>): (r: seq<Rec>)
    ensures |r| == |recs| && forall i :: 0 <= i < |recs| ==> r[i] == SweptRec(recs[i])
  {
    seq(|recs|, i requires 0 <= i < |recs| => SweptRec(recs[i]))
  }

  function Sweep(s: State): State {
    s.(recs := SweptAll(s.recs), told := s.told + OwedIds(s.recs),
       c := s.c.(appPending := s.c.appPending - |OwedIds(s.recs)|, bytes := s.c.bytes - Sum(s.recs, BytesOf)),
       f := s.f.(swept := true, blocked := s.f.blocked && (Down(s) || OwedIds(s.recs) == [])))
  }

  // ---------------------------------------------------------------- what the counters count

  function PendingOf(r: Rec): nat {
    if r.inUse && !r.appDone then 1 else 0
  }

  function BytesOf(r: Rec): nat {
    if r.inUse && !r.appDone then r.bytes else 0
  }

  function UnretiredOf(r: Rec): nat {
    if r.inUse && !r.transportDone then 1 else 0
  }

  function Sum(recs: seq<Rec>, f: Rec -> nat): nat {
    if recs == [] then 0 else Sum(recs[..|recs| - 1], f) + f(recs[|recs| - 1])
  }

  // ---------------------------------------------------------------- the steps

  datatype Answer = Ok | NoMemory | NotQueued

  datatype Event =
    | SendGather(bytes: nat, answer: Answer, concatFails: bool)
    | SendPlain(ok: bool, concatFails: bool)
    | PumpTurn(concatFails: bool)
    | BeginComplete(b: nat)
    | TellOne
    | ClearOne
    | EndComplete(concatFails: bool)
    | RetireBatch(b: nat)
    | Ready
    | Cancel(dropQueue: bool)
    | Failed
    | Cancelled
    | GroupTerminal

  predicate Enabled(s: State, ev: Event) {
    InRange(s) &&
    match ev
    case SendGather(_, _, _) => true
    case SendPlain(_, _) => true
    case PumpTurn(_) => s.fan.NoFan?
    case BeginComplete(b) => s.fan.NoFan? && b < |s.batches| && !s.batches[b].completed
    case TellOne => s.fan.Fan? && !s.fan.told && s.fan.k < |s.batches[s.fan.b].refs|
    case ClearOne => s.fan.Fan? && s.fan.told
    case EndComplete(_) => s.fan.Fan? && !s.fan.told && s.fan.k == |s.batches[s.fan.b].refs|
    case RetireBatch(b) => s.fan.NoFan? && b < |s.batches| && !s.batches[b].retired
    case Ready => s.fan.NoFan? && !s.f.ready
    case Cancel(_) => true
    case Failed => s.fan.NoFan? && !s.f.failedSeen
    case Cancelled => s.fan.NoFan? && !s.f.terminal
    case GroupTerminal => s.fan.NoFan?
  }

  /** A gather takes the first free slot, if the window allows it. */
  function AfterGather(s: State, bytes: nat, answer: Answer): State
    requires InRange(s)
  {
    if Down(s) then s
    else
      var room := FindSlot(s.recs, 0);
      if room.NoRoom? || s.c.bytes + bytes > MaxBytes then s.(f := s.f.(blocked := true))
      else
        match answer
        case NoMemory => s
        case NotQueued => s.(recs := s.recs[room.slot := Rec(false, false, true, s.accepted, bytes)])
        case Ok =>
          s.(recs := s.recs[room.slot := Rec(true, false, true, s.accepted, bytes)],
             pending := s.pending + [Gather(Ref(room.slot, s.accepted))],
             c := s.c.(bytes := s.c.bytes + bytes, appPending := s.c.appPending + 1),
             accepted := s.accepted + 1)
  }

  function Fail(s: State): State {
    Sweep(s.(pending := [], f := s.f.(failedSeen := true)))
  }

  lemma QueueInRange(s: State, slot: nat, id: nat)
    requires InRange(s) && slot < Slots
    ensures InRange(s.(pending := s.pending + [Gather(Ref(slot, id))])) && InRange(s.(pending := s.pending + [Plain]))
  {
    var es, one := s.pending + [Gather(Ref(slot, id))], s.pending + [Plain];
    RefsSplit(es, |s.pending|);
    RefsSplit(one, |s.pending|);
    assert es[..|s.pending|] == s.pending && es[|s.pending|..] == [Gather(Ref(slot, id))];
    assert one[..|s.pending|] == s.pending && one[|s.pending|..] == [Plain];
    assert RefsOf([Gather(Ref(slot, id))]) == [Ref(slot, id)] + RefsOf([]);
  }

  function Next(s: State, ev: Event): State
    requires Enabled(s, ev)
  {
    match ev
    case SendGather(bytes, answer, concatFails) =>
      var t := AfterGather(s, bytes, answer);
      if t.accepted == s.accepted then t
      else
        QueueInRange(s, FindSlot(s.recs, 0).slot, s.accepted);
        Pump(t, concatFails)
    case SendPlain(ok, concatFails) =>
      if Down(s) || !ok then s
      else
        QueueInRange(s, 0, 0);
        Pump(s.(pending := s.pending + [Plain]), concatFails)
    case PumpTurn(concatFails) => Pump(s, concatFails)
    case BeginComplete(b) => s.(fan := Fan(b, 0, false), f := s.f.(inflight := false))
    case TellOne => AppComplete(s, s.batches[s.fan.b].refs[s.fan.k].slot).(fan := s.fan.(told := true))
    case ClearOne => ClearSlot(s, s.batches[s.fan.b].refs[s.fan.k].slot).(fan := Fan(s.fan.b, s.fan.k + 1, false))
    case EndComplete(concatFails) =>
      var b := s.fan.b;
      Pump(PhaseDone(s.(fan := NoFan), b, s.batches[b].(completed := true)), concatFails)
    case RetireBatch(b) =>
      var refs := s.batches[b].refs;
      var t := s.(recs := Retired(s.recs, refs), c := s.c.(unretired := s.c.unretired - |refs|));
      var freed := AnyDone(s.recs, refs);
      PhaseDone(t, b, s.batches[b].(retired := true)).(f := s.f.(blocked := s.f.blocked && !(freed && !Down(s))))
    case Ready => s.(f := s.f.(ready := true))
    case Cancel(dropQueue) => s.(pending := if dropQueue then [] else s.pending, f := s.f.(cancelIssued := true))
    case Failed => Fail(s).(f := Fail(s).f.(cancelIssued := true))
    case Cancelled =>
      var t := if s.f.failedSeen then s else Fail(s);
      t.(f := t.f.(terminal := true))
    case GroupTerminal => Sweep(s.(f := s.f.(cancelIssued := true)))
  }

  predicate Run(es: seq<Event>, ss: seq<State>) {
    |ss| == |es| + 1 && ss[0] == Init() &&
    forall i :: 0 <= i < |es| ==> Enabled(ss[i], es[i]) && ss[i + 1] == Next(ss[i], es[i])
  }
}
