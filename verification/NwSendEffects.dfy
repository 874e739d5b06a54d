/**
 What each step of the send chain does, on slots, queue, batches and counters: which gathers are
 taken and which wait, what goes out, who is told, and that a sender who has to wait is woken.
 */
module NwSendEffects {
  import opened NwSends
  import opened NwSendRuns

  lemma {:induction false} FindsFirst(recs: seq<Rec>, i: nat, k: nat)
    requires i <= k <= |recs| && (forall j :: i <= j < k ==> recs[j].inUse)
    ensures k == |recs| ==> FindSlot(recs, i) == NoRoom
    ensures k < |recs| && !recs[k].inUse ==> FindSlot(recs, i) == Free(k)
    decreases |recs| - i
  {
    if i < k {
      FindsFirst(recs, i + 1, k);
    }
  }

  /** The slots below `k` are in use, and `k` is the first that is not, or the end. */
  predicate FirstFree(recs: seq<Rec>, k: nat) {
    k <= |recs| && (forall j :: 0 <= j < k ==> recs[j].inUse) && (k < |recs| ==> !recs[k].inUse)
  }

  lemma FirstFreeFound(recs: seq<Rec>, k: nat)
    requires FirstFree(recs, k)
    ensures FindSlot(recs, 0) == if k < |recs| then Free(k) else NoRoom
  {
    FindsFirst(recs, 0, k);
  }

  /** The stream takes no more sends. */
  predicate Ending(s: State) {
    s.f.terminal || s.f.cancelIssued
  }

  /** A gather has to wait: every slot is in use, or the bytes not yet told of leave no room for it. */
  predicate MustWait(s: State, k: nat, bytes: nat) {
    k == 16 || Sum(s.recs, BytesOf) + bytes > 1024 * 1024
  }

  /** The gather that was just accepted: last in the queue, and in slot `k`. */
  predicate Accepts(s: State, t: State, k: nat, bytes: nat) {
    k < |s.recs| && t.recs == s.recs[k := Rec(true, false, true, s.accepted, bytes)] &&
    t.pending == s.pending + [Gather(Ref(k, s.accepted))] && t.accepted == s.accepted + 1 &&
    t.c == s.c.(bytes := s.c.bytes + bytes, appPending := s.c.appPending + 1) &&
    t.batches == s.batches && t.fan == s.fan && t.f == s.f && t.told == s.told
  }

  /**
   A gather is refused by a stream that is ending; it waits, and arms the writable edge, exactly
   when there is no slot or no room in the window; and otherwise it is taken if the transport can
   queue it: in the first free slot, last in the queue, which is then pumped.
   */
  lemma GatherEffect(es: seq<Event>, ss: seq<State>, n: nat, bytes: nat, answer: Answer, concatFails: bool, k: nat)
    requires Run(es, ss) && n < |es| && es[n] == SendGather(bytes, answer, concatFails) && FirstFree(ss[n].recs, k)
    ensures |ss[n].recs| == 16
    ensures var s, t := ss[n], ss[n + 1];
            if Ending(s) then t == s
            else if MustWait(s, k, bytes) then t == s.(f := s.f.(blocked := true))
            else if answer == Ok then exists u: State :: Accepts(s, u, k, bytes) && InRange(u) && t == Pump(u, concatFails)
            else t == s.(recs := t.recs) && |t.recs| == 16 && (forall j :: 0 <= j < 16 ==> t.recs[j].inUse == s.recs[j].inUse) &&
                 forall j :: 0 <= j < 16 && s.recs[j].inUse ==> t.recs[j] == s.recs[j]
  {
    var s := ss[n];
    RunKeeps(es, ss, n);
    assert Enabled(s, es[n]) && ss[n + 1] == Next(s, es[n]);
    FirstFreeFound(s.recs, k);
    hide Inv, FindSlot;
    CountersExact(es, ss, n);
    if !Ending(s) && !MustWait(s, k, bytes) && answer == Ok {
      QueueInRange(s, k, s.accepted);
      var u := AfterGather(s, bytes, answer);
      assert Accepts(s, u, k, bytes) && InRange(u) && ss[n + 1] == Pump(u, concatFails);
    }
  }

  /** A copied send needs no slot and no window: it is queued, unless the stream is ending or the queue has no memory. */
  lemma PlainEffect(es: seq<Event>, ss: seq<State>, n: nat, ok: bool, concatFails: bool)
    requires Run(es, ss) && n < |es| && es[n] == SendPlain(ok, concatFails)
    ensures var s, t := ss[n], ss[n + 1];
            if Ending(s) || !ok then t == s
            else var u := s.(pending := s.pending + [Plain]); InRange(u) && t == Pump(u, concatFails)
  {
    var s := ss[n];
    assert Enabled(s, es[n]) && ss[n + 1] == Next(s, es[n]);
    QueueInRange(s, 0, 0);
    hide InRange;
  }

  // ---------------------------------------------------------------- what goes out

  /** The first `n` entries of the queue are what one batch can carry: all of them, or up to the sixteenth gather. */
  predicate OneBatch(queue: seq<Entry>, n: nat) {
    n <= |queue| && |RefsOf(queue[..n])| <= 16 &&
    (n < |queue| ==> n > 0 && queue[n - 1].Gather? && |RefsOf(queue[..n])| == 16)
  }

  lemma {:induction false} TakenFits(queue: seq<Entry>, room: nat)
    requires room > 0
    ensures var n := Taken(queue, room);
            |RefsOf(queue[..n])| <= room &&
            (n < |queue| ==> n > 0 && queue[n - 1].Gather? && |RefsOf(queue[..n])| == room)
    decreases |queue|
  {
    var n := Taken(queue, room);
    if queue != [] {
      var left := if queue[0].Plain? then room else room - 1;
      assert queue[..n][1..] == queue[1..][..n - 1] && queue[..n][0] == queue[0];
      if left > 0 {
        TakenFits(queue[1..], left);
      } else {
        assert queue[..1] == [queue[0]];
      }
    }
  }

  /** Entry for entry: the records that a batch names are held by the transport from now on. */
  predicate HeldSince(recs: seq<Rec>, now: seq<Rec>, refs: seq<Ref>) {
    |now| == |recs| &&
    forall i :: 0 <= i < |recs| ==>
      now[i] == recs[i].(transportDone := recs[i].transportDone && !(exists k :: 0 <= k < |refs| && refs[k].slot == i))
  }

  predicate GoesOut(s: State, t: State, n: nat)
    requires n <= |s.pending|
  {
    var refs := RefsOf(s.pending[..n]);
    OneBatch(s.pending, n) && t.pending == s.pending[n..] && t.batches == s.batches + [Batch(refs, false, false)] &&
    HeldSince(s.recs, t.recs, refs) && t.f == s.f.(inflight := true) &&
    t.c == s.c.(unretired := s.c.unretired + |refs|, batchesLive := s.c.batchesLive + 1) &&
    t.fan == s.fan && t.accepted == s.accepted && t.told == s.told
  }

  /**
   The queue goes out whenever it can: nothing in flight, the stream ready and not ending. It goes
   as one batch, in order; data that cannot be joined takes the stream down with an empty queue.
   */
  lemma PumpEffect(s: State, concatFails: bool)
    requires InRange(s)
    ensures var t := Pump(s, concatFails);
            if s.f.inflight || !s.f.ready || Ending(s) || s.pending == [] then t == s
            else if concatFails then t == s.(pending := [], f := s.f.(cancelIssued := true))
            else exists n :: 0 < n <= |s.pending| && GoesOut(s, t, n)
  {
    hide RefsOf, Issued, Exist, Taken, OneBatch;
    if !(s.f.inflight || !s.f.ready || Ending(s) || s.pending == []) && !concatFails {
      var n := Taken(s.pending, Slots);
      var refs := RefsOf(s.pending[..n]);
      PrefixExists(s.pending, n);
      FitsOneBatch(s.pending);
      IssuedHolds(s.recs, refs);
      assert GoesOut(s, Pump(s, concatFails), n);
    }
  }

  lemma FitsOneBatch(queue: seq<Entry>)
    requires queue != []
    ensures OneBatch(queue, Taken(queue, Slots)) && Taken(queue, Slots) > 0
  {
    TakenFits(queue, Slots);
  }

  lemma IssuedHolds(recs: seq<Rec>, refs: seq<Ref>)
    requires Exist(refs, |recs|)
    ensures HeldSince(recs, Issued(recs, refs), refs)
  {
    forall i | 0 <= i < |recs|
      ensures Issued(recs, refs)[i] == recs[i].(transportDone := recs[i].transportDone && !(exists k :: 0 <= k < |refs| && refs[k].slot == i))
    {
      IssuedAt(recs, refs, i);
    }
  }

  // ---------------------------------------------------------------- who is told, and who is woken

  /** A completion that was not delivered yet is delivered, its bytes leave the window, and a waiting sender is woken. */
  lemma TellEffect(es: seq<Event>, ss: seq<State>, n: nat)
    requires Run(es, ss) && n < |es| && es[n] == TellOne
    ensures ss[n].fan.Fan? && ss[n].fan.b < |ss[n].batches| && ss[n].fan.k < |ss[n].batches[ss[n].fan.b].refs|
    ensures ss[n].batches[ss[n].fan.b].refs[ss[n].fan.k].slot < |ss[n].recs|
    ensures var s, t := ss[n], ss[n + 1];
            var i := s.batches[s.fan.b].refs[s.fan.k].slot;
            var r := s.recs[i];
            t.fan == s.fan.(told := true) && t.pending == s.pending && t.batches == s.batches &&
            if r.appDone then t.(fan := s.fan) == s
            else t.told == s.told + [r.id] && t.recs == s.recs[i := r.(appDone := true)] && t.c.bytes == s.c.bytes - r.bytes &&
                 (Ending(s) || !t.f.blocked)
  {
    assert Enabled(ss[n], es[n]) && ss[n + 1] == Next(ss[n], es[n]);
  }

  /** A slot whose release, in one phase or the other, will wake a waiting sender. */
  predicate WillWake(r: Rec) {
    r.inUse && !(r.appDone && r.transportDone)
  }

  /** A gather that the window could never admit, whatever is told of. */
  predicate Oversized(e: Event) {
    e.SendGather? && e.bytes > 1024 * 1024
  }

  ghost predicate OversizedBefore(es: seq<Event>, n: nat)
    requires n <= |es|
  {
    exists m :: 0 <= m < n && Oversized(es[m])
  }

  predicate SomeoneWakes(s: State) {
    exists r :: 0 <= r < |s.recs| && WillWake(s.recs[r])
  }

  lemma SumOfNone(recs: seq<Rec>)
    requires Sum(recs, BytesOf) > 0
    ensures exists r :: 0 <= r < |recs| && Owed(recs[r])
  {
    if forall r :: 0 <= r < |recs| ==> !Owed(recs[r]) {
      SumZero(recs, BytesOf);
    }
  }

  /** Where a gather has to wait, some slot in use is still to be released. */
  lemma WaitFinds(s: State, bytes: nat)
    requires Inv(s)
    requires (forall i :: 0 <= i < |s.recs| ==> s.recs[i].inUse) || (bytes <= MaxBytes && s.c.bytes + bytes > MaxBytes)
    ensures SomeoneWakes(s)
  {
    if bytes <= MaxBytes && s.c.bytes + bytes > MaxBytes {
      SumOfNone(s.recs);
      var r :| 0 <= r < |s.recs| && Owed(s.recs[r]);
      assert WillWake(s.recs[r]);
    } else if BeingTold(s, 0) {
      assert !BeingTold(s, 1);
      assert WillWake(s.recs[1]);
    } else {
      assert WillWake(s.recs[0]);
    }
  }

  /** The transport lets go of a batch: its slots are free if they were told of, and a waiting sender is woken by any such. */
  lemma RetireEffect(es: seq<Event>, ss: seq<State>, n: nat, b: nat)
    requires Run(es, ss) && n < |es| && es[n] == RetireBatch(b)
    ensures b < |ss[n].batches| && |ss[n + 1].recs| == |ss[n].recs|
    ensures forall k :: 0 <= k < |ss[n].batches[b].refs| ==> ss[n].batches[b].refs[k].slot < |ss[n].recs|
    ensures var s, t, refs := ss[n], ss[n + 1], ss[n].batches[b].refs;
            (forall i :: 0 <= i < |s.recs| ==>
               if exists k :: 0 <= k < |refs| && refs[k].slot == i
               then t.recs[i] == s.recs[i].(transportDone := true, inUse := s.recs[i].inUse && !s.recs[i].appDone)
               else t.recs[i] == s.recs[i]) &&
            t.c.unretired == s.c.unretired - |refs| && t.told == s.told && t.pending == s.pending &&
            (t.f.blocked <==> s.f.blocked && (Ending(s) || forall k :: 0 <= k < |refs| ==> !s.recs[refs[k].slot].appDone))
  {
    hide Retired, Issued, RefsOf;
    var s := ss[n];
    assert Enabled(s, es[n]) && ss[n + 1] == Next(s, es[n]);
    RetireChanges(s, b);
    assert forall i :: 0 <= i < |s.recs| ==> (Slotted(s.batches[b].refs, i) <==> exists k :: 0 <= k < |s.batches[b].refs| && s.batches[b].refs[k].slot == i);
    hide Slotted;
  }

  /** The failure of a stream tells every gather that is still owed, in slot order, and empties the queue. */
  lemma FailEffect(es: seq<Event>, ss: seq<State>, n: nat)
    requires Run(es, ss) && n < |es| && es[n] == Failed
    ensures var s, t := ss[n], ss[n + 1];
            t.pending == [] && t.f.failedSeen && t.f.cancelIssued && t.told == s.told + OwedIds(s.recs) && |t.recs| == |s.recs| &&
            forall i :: 0 <= i < |s.recs| ==>
              t.recs[i] == if s.recs[i].inUse then s.recs[i].(appDone := true, inUse := !s.recs[i].transportDone) else s.recs[i]
  {
    assert Enabled(ss[n], es[n]) && ss[n + 1] == Next(ss[n], es[n]);
  }

  /** A cancellation ends the stream for sends, and drops what is only queued if it says so. */
  lemma CancelEffect(es: seq<Event>, ss: seq<State>, n: nat, dropQueue: bool)
    requires Run(es, ss) && n < |es| && es[n] == Cancel(dropQueue)
    ensures ss[n + 1] == ss[n].(pending := if dropQueue then [] else ss[n].pending, f := ss[n].f.(cancelIssued := true))
  {
    assert Enabled(ss[n], es[n]) && ss[n + 1] == Next(ss[n], es[n]);
  }

  /** Between two completions of a batch, the slot just told of is free if the transport has let go of it. */
  lemma ClearEffect(es: seq<Event>, ss: seq<State>, n: nat)
    requires Run(es, ss) && n < |es| && es[n] == ClearOne
    ensures ss[n].fan.Fan? && ss[n].fan.b < |ss[n].batches| && ss[n].fan.k < |ss[n].batches[ss[n].fan.b].refs|
    ensures ss[n].batches[ss[n].fan.b].refs[ss[n].fan.k].slot < |ss[n].recs|
    ensures var s := ss[n];
            var i := s.batches[s.fan.b].refs[s.fan.k].slot;
            var r := s.recs[i];
            ss[n + 1] == s.(fan := Fan(s.fan.b, s.fan.k + 1, false),
                            recs := s.recs[i := r.(inUse := r.inUse && !(r.transportDone && r.appDone))])
  {
    assert Enabled(ss[n], es[n]) && ss[n + 1] == Next(ss[n], es[n]);
    var i := ss[n].batches[ss[n].fan.b].refs[ss[n].fan.k].slot;
    assert ss[n].recs[i := ss[n].recs[i]] == ss[n].recs;
  }

  /** When all of a batch has been told, the batch is gone if it was let go of, and what was queued meanwhile goes out. */
  lemma EndEffect(es: seq<Event>, ss: seq<State>, n: nat, concatFails: bool)
    requires Run(es, ss) && n < |es| && es[n] == EndComplete(concatFails)
    ensures ss[n].fan.Fan? && ss[n].fan.b < |ss[n].batches|
    ensures var s, b := ss[n], ss[n].fan.b;
            exists u: State ::
              InRange(u) && ss[n + 1] == Pump(u, concatFails) &&
              u == s.(fan := NoFan, batches := u.batches, c := s.c.(batchesLive := |u.batches|)) &&
              u.batches == if s.batches[b].retired then s.batches[..b] + s.batches[b + 1..]
                           else s.batches[b := s.batches[b].(completed := true)]
  {
    var s, b := ss[n], ss[n].fan.b;
    RunKeeps(es, ss, n);
    CountersExact(es, ss, n);
    assert Enabled(s, es[n]) && ss[n + 1] == Next(s, es[n]);
    hide Pump;
    EndKeeps(s);
    var u := PhaseDone(s.(fan := NoFan), b, s.batches[b].(completed := true));
    EndInRange(u);
    hide Inv, InRange;
    assert InRange(u) && ss[n + 1] == Pump(u, concatFails);
  }

  // ---------------------------------------------------------------- no sender waits for ever

  /** Every slot that will wake a sender still does. */
  predicate WakesStay(s: State, t: State) {
    |t.recs| == |s.recs| && forall r :: 0 <= r < |s.recs| && WillWake(s.recs[r]) ==> WillWake(t.recs[r])
  }

  lemma StillWakes(s: State, t: State)
    requires WakesStay(s, t)
    ensures SomeoneWakes(s) ==> SomeoneWakes(t)
  {
    if SomeoneWakes(s) {
      var r :| 0 <= r < |s.recs| && WillWake(s.recs[r]);
      assert WillWake(t.recs[r]);
    }
  }

  lemma PumpStays(s: State, concatFails: bool)
    requires InRange(s)
    ensures WakesStay(s, Pump(s, concatFails)) && (Pump(s, concatFails).f.blocked ==> s.f.blocked)
    ensures !Ending(Pump(s, concatFails)) ==> !Ending(s)
  {
    hide Pump, InRange, RefsOf, OneBatch;
    PumpEffect(s, concatFails);
  }

  lemma GatherWakes(s: State, bytes: nat, answer: Answer)
    requires Inv(s) && InRange(s)
    ensures var t := AfterGather(s, bytes, answer);
            WakesStay(s, t) && (t.f.blocked && !s.f.blocked ==> SomeoneWakes(t) || bytes > MaxBytes) && (!Ending(t) ==> !Ending(s))
  {
    hide Inv, InRange;
    var room := FindSlot(s.recs, 0);
    if !Ending(s) && room.NoRoom? {
      NoRoomMeans(s.recs, 0);
      WaitFinds(s, bytes);
    } else if !Ending(s) && s.c.bytes + bytes > MaxBytes && bytes <= MaxBytes {
      WaitFinds(s, bytes);
    }
  }

  lemma {:induction false} NoRoomMeans(recs: seq<Rec>, i: nat)
    requires i <= |recs| && FindSlot(recs, i) == NoRoom
    ensures forall j :: i <= j < |recs| ==> recs[j].inUse
    decreases |recs| - i
  {
    if i < |recs| {
      NoRoomMeans(recs, i + 1);
    }
  }

  /** What a step that blocks nobody leaves: the slots that will wake, or a sender that has just been woken. */
  predicate KeepsWaking(s: State, t: State) {
    Ending(t) || !t.f.blocked || (s.f.blocked && !Ending(s) && WakesStay(s, t))
  }

  lemma TellKeepsWaking(s: State, ev: Event)
    requires Inv(s) && Enabled(s, ev) && (ev.BeginComplete? || ev.TellOne? || ev.ClearOne?)
    ensures KeepsWaking(s, Next(s, ev))
  {
    hide RefsOf, Counts, ToldOk, MembersOk, QueueOk, Ordered;
  }

  lemma RetireKeepsWaking(s: State, b: nat)
    requires Inv(s) && Enabled(s, RetireBatch(b))
    ensures KeepsWaking(s, Next(s, RetireBatch(b)))
  {
    hide Retired, Issued, RefsOf, Inv, Exist;
    RetireChanges(s, b);
  }

  lemma EndKeepsWaking(s: State, concatFails: bool)
    requires Inv(s) && Enabled(s, EndComplete(concatFails))
    ensures KeepsWaking(s, Next(s, EndComplete(concatFails)))
  {
    hide Inv, Pump;
    EndKeeps(s);
    var t := PhaseDone(s.(fan := NoFan), s.fan.b, s.batches[s.fan.b].(completed := true));
    EndInRange(t);
    PumpStays(t, concatFails);
  }

  lemma OtherKeepsWaking(s: State, ev: Event)
    requires Inv(s) && Enabled(s, ev)
    requires ev.SendPlain? || ev.PumpTurn? || ev.Ready? || ev.Cancel? || ev.Failed? || ev.Cancelled? || ev.GroupTerminal?
    ensures KeepsWaking(s, Next(s, ev))
  {
    hide Inv, Pump;
    if ev.PumpTurn? {
      PumpStays(s, ev.concatFails);
    } else if ev.SendPlain? && !Ending(s) && ev.ok {
      QueueInRange(s, 0, 0);
      PumpStays(s.(pending := s.pending + [Plain]), ev.concatFails);
    }
  }

  lemma GatherStepWakes(s: State, bytes: nat, answer: Answer, concatFails: bool)
    requires Inv(s) && Enabled(s, SendGather(bytes, answer, concatFails))
    ensures var t := Next(s, SendGather(bytes, answer, concatFails));
            t.f.blocked && !Ending(t) && bytes <= MaxBytes && (s.f.blocked && !Ending(s) ==> SomeoneWakes(s)) ==> SomeoneWakes(t)
  {
    hide Inv, Pump, AfterGather;
    var u := AfterGather(s, bytes, answer);
    GatherWakes(s, bytes, answer);
    StillWakes(s, u);
    if u.accepted != s.accepted {
      GatherAccepted(s, bytes, answer);
      PumpStays(u, concatFails);
      StillWakes(u, Pump(u, concatFails));
    }
  }

  lemma GatherAccepted(s: State, bytes: nat, answer: Answer)
    requires InRange(s) && AfterGather(s, bytes, answer).accepted != s.accepted
    ensures InRange(AfterGather(s, bytes, answer))
  {
    QueueInRange(s, FindSlot(s.recs, 0).slot, s.accepted);
  }

  lemma StepWakes(s: State, ev: Event)
    requires Inv(s) && Enabled(s, ev)
    ensures var t := Next(s, ev);
            t.f.blocked && !Ending(t) && !Oversized(ev) && (s.f.blocked && !Ending(s) ==> SomeoneWakes(s)) ==> SomeoneWakes(t)
  {
    hide Inv, Next, SomeoneWakes, WakesStay;
    var t := Next(s, ev);
    if ev.SendGather? {
      GatherStepWakes(s, ev.bytes, ev.answer, ev.concatFails);
    } else {
      if ev.BeginComplete? || ev.TellOne? || ev.ClearOne? {
        TellKeepsWaking(s, ev);
      } else if ev.RetireBatch? {
        RetireKeepsWaking(s, ev.b);
      } else if ev.EndComplete? {
        EndKeepsWaking(s, ev.concatFails);
      } else {
        OtherKeepsWaking(s, ev);
      }
      if WakesStay(s, t) {
        StillWakes(s, t);
      }
    }
  }

  /**
   No sender waits for ever: in every run, while a sender that was told to wait has not been woken
   and the stream is not ending, some slot in use is still to be told of or let go, and that wakes
   the sender; unless a gather larger than the whole window was among those refused.
   */
  lemma {:induction false} WakeComes(es: seq<Event>, ss: seq<State>, n: nat)
    requires Run(es, ss) && n <= |es| && ss[n].f.blocked && !Ending(ss[n])
    ensures SomeoneWakes(ss[n]) || OversizedBefore(es, n)
  {
    hide Inv, Next, Enabled, SomeoneWakes;
    if n > 0 {
      var s, e := ss[n - 1], es[n - 1];
      RunKeeps(es, ss, n - 1);
      assert Enabled(s, e) && ss[n] == Next(s, e);
      StepWakes(s, e);
      if s.f.blocked && !Ending(s) {
        WakeComes(es, ss, n - 1);
      }
    }
  }

  /**
   The guard decides. A stream none of whose slots is in use takes a gather if and only if it fits
   the whole window; one that does not is told to wait, with nothing left that could wake its sender.
   */
  lemma IdleTakesIff(es: seq<Event>, ss: seq<State>, n: nat, bytes: nat, concatFails: bool)
    requires Run(es, ss) && n < |es| && es[n] == SendGather(bytes, Ok, concatFails) && !Ending(ss[n])
    requires forall r :: 0 <= r < |ss[n].recs| ==> !ss[n].recs[r].inUse
    ensures ss[n + 1].accepted == ss[n].accepted + 1 <==> bytes <= 1024 * 1024
    ensures bytes > 1024 * 1024 ==> ss[n + 1] == ss[n].(f := ss[n].f.(blocked := true)) && !SomeoneWakes(ss[n + 1])
  {
    hide Next, Enabled, InRange, Pump;
    GatherEffect(es, ss, n, bytes, Ok, concatFails, 0);
    SumZero(ss[n].recs, BytesOf);
    if bytes <= 1024 * 1024 {
      var u: State :| Accepts(ss[n], u, 0, bytes) && InRange(u) && ss[n + 1] == Pump(u, concatFails);
      PumpEffect(u, concatFails);
    }
  }

  /** The shortest such run. */
  lemma OversizedWaitsForNothing(bytes: nat)
    requires bytes > 1024 * 1024
    ensures var ev := SendGather(bytes, Ok, false);
            Enabled(Init(), ev) &&
            var t := Next(Init(), ev);
            Run([ev], [Init(), t]) && t.f.blocked && !Ending(t) && !SomeoneWakes(t)
  {
    InitOk();
    EndInRange(Init());
    FirstFreeFound(Init().recs, 0);
    SumZero(Init().recs, BytesOf);
    hide Inv, InRange;
  }
}
