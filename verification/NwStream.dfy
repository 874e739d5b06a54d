/**
 The send side of a Network stream as the backend keeps it: a fixed ring of slots, a queue,
 batches, counters and flags, changed in place by loops. Each method does to them what one step
 of the model says, and so keeps what the model proves.
 */
module NwStream {
  import opened NwSends
  import opened NwSendRuns
  import NwSendEffects

  /** What a gather is answered. */
  datatype Sent = Accepted | Closed | WouldBlock | Failure

  /** The data of queue entry `at` cannot be joined to the batch. */
  predicate Breaks(queue: seq<Entry>, at: nat) {
    at < Taken(queue, Slots)
  }

  lemma KnownInRange(s: State)
    requires Inv(s)
    ensures InRange(s)
  {
    forall b | 0 <= b < |s.batches| ensures Exist(s.batches[b].refs, Slots) {
      forall k | 0 <= k < |s.batches[b].refs| ensures s.batches[b].refs[k].slot < Slots {
        assert MemberOk(s, b, k);
      }
    }
    forall q | 0 <= q < |RefsOf(s.pending)| ensures RefsOf(s.pending)[q].slot < Slots {
      assert QueuedOk(s, RefsOf(s.pending)[q]);
    }
  }

  /** One more entry of the queue goes into the batch. */
  lemma TakeOne(queue: seq<Entry>, i: nat, room: nat)
    requires i < |queue| && room > 0
    ensures Taken(queue[i..], room) == 1 + Taken(queue[i + 1..], if queue[i].Plain? then room else room - 1)
    ensures RefsOf(queue[..i + 1]) == RefsOf(queue[..i]) + (if queue[i].Plain? then [] else [queue[i].ref])
  {
    assert queue[i..][1..] == queue[i + 1..] && queue[i..][0] == queue[i];
    assert queue[..i + 1] == queue[..i] + [queue[i]];
    QueueGrows(queue[..i], queue[i]);
  }

  /** No transport holds the records of what is only queued. */
  lemma QueueAtRest(s: State, n: nat)
    requires Inv(s) && !Down(s) && n <= |s.pending|
    ensures Exist(RefsOf(s.pending[..n]), |s.recs|)
    ensures forall k :: 0 <= k < |RefsOf(s.pending[..n])| ==> s.recs[RefsOf(s.pending[..n])[k].slot].transportDone
  {
    hide RefsOf;
    RefsSplit(s.pending, n);
    var refs := RefsOf(s.pending[..n]);
    forall k | 0 <= k < |refs| ensures refs[k].slot < |s.recs| && s.recs[refs[k].slot].transportDone {
      assert RefsOf(s.pending)[k] == refs[k];
      assert QueuedOk(s, RefsOf(s.pending)[k]);
    }
  }

  lemma MoreIssued(recs: seq<Rec>, refs: seq<Ref>, x: Ref)
    requires Exist(refs, |recs|) && x.slot < |recs|
    ensures Exist(refs + [x], |recs|)
    ensures var r := Issued(recs, refs); Issued(recs, refs + [x]) == r[x.slot := r[x.slot].(transportDone := false)]
  {
    assert (refs + [x])[..|refs|] == refs;
  }

  lemma NoneIssued(recs: seq<Rec>)
    ensures RefsOf([]) == [] && Issued(recs, []) == recs
  {
  }

  lemma TakenEnds(queue: seq<Entry>, room: nat)
    ensures Taken(queue, room) == 0 <==> queue == [] || room == 0
  {
  }

  lemma RangeFacts(s: State)
    requires InRange(s)
    ensures |s.recs| == Slots && FanInRange(s.fan, s.batches)
    ensures forall b :: 0 <= b < |s.batches| ==> Exist(s.batches[b].refs, Slots)
  {
  }

  lemma QueueInBounds(s: State)
    requires InRange(s)
    ensures Exist(RefsOf(s.pending), Slots)
  {
  }

  lemma EntryInBounds(queue: seq<Entry>, i: nat)
    requires i < |queue| && queue[i].Gather? && Exist(RefsOf(queue), Slots)
    ensures queue[i].ref.slot < Slots
  {
    RefsSplit(queue, i);
    hide RefsOf;
    assert RefsOf(queue[i..]) == [queue[i].ref] + RefsOf(queue[i + 1..]) by {
      FirstRef(queue, i);
    }
    assert RefsOf(queue)[|RefsOf(queue[..i])|] == queue[i].ref;
  }

  lemma FirstRef(queue: seq<Entry>, i: nat)
    requires i < |queue| && queue[i].Gather?
    ensures RefsOf(queue[i..]) == [queue[i].ref] + RefsOf(queue[i + 1..])
  {
    assert queue[i..][1..] == queue[i + 1..] && queue[i..][0] == queue[i];
  }

  predicate AllInUse(recs: seq<Rec>) {
    forall i :: 0 <= i < |recs| ==> recs[i].inUse
  }

  /** The search for a slot fails exactly when all are in use, and otherwise finds the first that is not. */
  lemma FindsRoom(recs: seq<Rec>)
    ensures FindSlot(recs, 0).NoRoom? <==> AllInUse(recs)
    ensures forall k :: 0 <= k < |recs| && NwSendEffects.FirstFree(recs, k) ==> FindSlot(recs, 0) == Free(k)
  {
    if FindSlot(recs, 0).NoRoom? {
      NwSendEffects.NoRoomMeans(recs, 0);
    }
    forall k | 0 <= k < |recs| && NwSendEffects.FirstFree(recs, k) ensures FindSlot(recs, 0) == Free(k) {
      NwSendEffects.FirstFreeFound(recs, k);
    }
  }

  class SendRing {
    const recs: array<Rec>
    var pending: seq<Entry>
    var batches: seq<Batch>
    var fan: Fan
    var bytes: int
    var appPending: int
    var unretired: int
    var batchesLive: int
    var ready: bool
    var terminal: bool
    var cancelIssued: bool
    var failedSeen: bool
    var swept: bool
    var inflight: bool
    var blocked: bool
    var accepted: nat
    var told: seq<nat>

    /** The state of the model that the fields stand for. */
    ghost function View(): State
      reads this, recs
    {
      State(recs[..], pending, batches, fan, Counters(bytes, appPending, unretired, batchesLive),
            Flags(ready, terminal, cancelIssued, failedSeen, swept, inflight, blocked), accepted, told)
    }

    ghost predicate Valid()
      reads this, recs
    {
      recs.Length == Slots && Inv(View()) && InRange(View())
    }

    constructor ()
      ensures Valid() && View() == Init() && fresh(recs)
    {
      recs := new Rec[Slots](_ => Unused);
      pending, batches, fan := [], [], NoFan;
      bytes, appPending, unretired, batchesLive := 0, 0, 0, 0;
      ready, terminal, cancelIssued, failedSeen, swept, inflight, blocked := false, false, false, false, false, false, false;
      accepted, told := 0, [];
      new;
      assert recs[..] == FreshRecs();
      InitOk();
      KnownInRange(Init());
    }

    // -------------------------------------------------------------- loops over the slots

    /** The first slot that is not in use. */
    method FindFree() returns (room: Room)
      requires recs.Length == Slots
      ensures room == FindSlot(recs[..], 0)
    {
      var i := 0;
      while i < Slots
        invariant i <= Slots && FindSlot(recs[..], 0) == FindSlot(recs[..], i)
      {
        if !recs[i].inUse {
          return Free(i);
        }
        i := i + 1;
      }
      return NoRoom;
    }

    /** The transport has let go of a whole batch; `freed` if that makes room. */
    method RetireRefs(refs: seq<Ref>) returns (freed: bool)
      requires recs.Length == Slots && Exist(refs, Slots)
      modifies this`unretired, recs
      ensures recs[..] == Retired(old(recs[..]), refs) && unretired == old(unretired) - |refs|
      ensures freed == AnyDone(old(recs[..]), refs)
    {
      ghost var before := recs[..];
      freed := false;
      var i := 0;
      assert refs[..0] == [];
      while i < |refs|
        invariant i <= |refs| && recs[..] == Retired(before, refs[..i]) && unretired == old(unretired) - i
        invariant forall k :: 0 <= k < Slots ==> recs[k].appDone == before[k].appDone
        invariant freed <==> exists k :: 0 <= k < i && before[refs[k].slot].appDone
      {
        var slot := refs[i].slot;
        var r := recs[slot];
        assert refs[..i + 1][..i] == refs[..i];
        recs[slot] := r.(transportDone := true, inUse := r.inUse && !r.appDone);
        freed := freed || r.appDone;
        unretired := unretired - 1;
        i := i + 1;
      }
      assert refs[..i] == refs;
    }

    /** A batch that was never issued: its records go back to having no holder. */
    method RollBack(refs: seq<Ref>)
      requires recs.Length == Slots && Exist(refs, Slots)
      modifies this`unretired, recs
      ensures recs[..] == Unissued(old(recs[..]), refs) && unretired == old(unretired) - |refs|
    {
      ghost var before := recs[..];
      var i := 0;
      assert refs[..0] == [];
      while i < |refs|
        invariant i <= |refs| && recs[..] == Unissued(before, refs[..i]) && unretired == old(unretired) - i
      {
        assert refs[..i + 1][..i] == refs[..i];
        recs[refs[i].slot] := recs[refs[i].slot].(transportDone := true);
        unretired := unretired - 1;
        i := i + 1;
      }
      assert refs[..i] == refs;
    }

    /** Deliver the completion of a slot, unless a sweep already did; freed window wakes a blocked sender. */
    method AppCompleteSlot(slot: nat)
      requires recs.Length == Slots && slot < Slots
      modifies this`bytes, this`appPending, this`blocked, this`told, recs
      ensures View() == AppComplete(old(View()), slot)
    {
      var r := recs[slot];
      if r.appDone {
        return;
      }
      recs[slot] := r.(appDone := true);
      appPending := appPending - 1;
      bytes := bytes - r.bytes;
      if blocked && !terminal && !cancelIssued {
        blocked := false;
      }
      told := told + [r.id];
    }

    /** What the sweep has done once it has passed the slots below `n`. */
    ghost function SweptTo(s: State, n: nat): State
      requires n <= |s.recs|
    {
      var owed := OwedIds(s.recs[..n]);
      s.(recs := SweptAll(s.recs[..n]) + s.recs[n..], told := s.told + owed,
         c := s.c.(appPending := s.c.appPending - |owed|, bytes := s.c.bytes - Sum(s.recs[..n], BytesOf)),
         f := s.f.(blocked := s.f.blocked && (Down(s) || owed == [])))
    }

    /** The sweep at one slot. */
    method SweepSlot(slot: nat)
      requires recs.Length == Slots && slot < Slots
      modifies this`bytes, this`appPending, this`blocked, this`told, recs
      ensures var s := old(View());
        View() == (if Owed(s.recs[slot]) then AppComplete(s, slot) else s).(recs := s.recs[slot := SweptRec(s.recs[slot])])
    {
      if recs[slot].inUse && !recs[slot].appDone {
        AppCompleteSlot(slot);
      }
      if recs[slot].inUse && recs[slot].appDone && recs[slot].transportDone {
        recs[slot] := recs[slot].(inUse := false);
      }
    }

    lemma SweptFurther(s: State, n: nat)
      requires n < |s.recs|
      ensures |SweptTo(s, n).recs| == |s.recs| && SweptTo(s, n).recs[n] == s.recs[n]
      ensures
        var t := SweptTo(s, n);
        SweptTo(s, n + 1) == (if Owed(t.recs[n]) then AppComplete(t, n) else t).(recs := t.recs[n := SweptRec(t.recs[n])])
    {
      assert s.recs[..n + 1][..n] == s.recs[..n];
    }

    /** The sweep: deliver whatever is still owed, slot by slot. */
    method Synthesize()
      requires recs.Length == Slots
      modifies this`bytes, this`appPending, this`blocked, this`told, recs
      ensures View() == Sweep(old(View())).(f := Sweep(old(View())).f.(swept := old(swept)))
    {
      hide SweptTo, Sum, OwedIds, SweptRec, AppComplete, Owed, Down;
      ghost var s := View();
      SweptNothing(s);
      var i := 0;
      while i < Slots
        invariant i <= Slots && View() == SweptTo(s, i)
      {
        SweptFurther(s, i);
        SweepSlot(i);
        i := i + 1;
      }
      SweptAllOf(s);
    }

    lemma SweptNothing(s: State)
      ensures SweptTo(s, 0) == s
    {
    }

    lemma SweptAllOf(s: State)
      ensures SweptTo(s, |s.recs|) == Sweep(s).(f := Sweep(s).f.(swept := s.f.swept))
    {
      assert s.recs[..|s.recs|] == s.recs;
    }

    // -------------------------------------------------------------- steps of the stream

    /** Everything queued goes out as one batch, or, when its data cannot be joined, nothing and the stream goes down. */
    method PumpSends(at: nat)
      requires Valid()
      modifies this, recs
      ensures Valid() && View() == Pump(old(View()), Breaks(old(pending), at)) && accepted == old(accepted)
    {
      hide Inv, InRange, Issued, Unissued, RefsOf, Taken;
      ghost var s := View();
      QueueInBounds(s);
      PumpKeeps(s, Breaks(pending, at));
      KnownInRange(Pump(s, Breaks(pending, at)));
      if inflight || !ready || terminal || cancelIssued || pending == [] {
        return;
      }
      var refs, failed := IssueQueue(at);
      if failed {
        QueueAtRest(s, at);
        UnissueUndoesIssue(s.recs, refs);
        RollBack(refs);
        pending := [];
        cancelIssued := true;
      } else {
        inflight := true;
        batchesLive := batchesLive + 1;
        batches := batches + [Batch(refs, false, false)];
      }
    }

    /** Take entries off the queue, mark their records as held, and stop marking at the entry that fails. */
    method IssueQueue(at: nat) returns (refs: seq<Ref>, failed: bool)
      requires recs.Length == Slots && Exist(RefsOf(pending), Slots)
      modifies this`pending, this`unretired, recs
      ensures failed == Breaks(old(pending), at) && Exist(refs, Slots)
      ensures recs[..] == Issued(old(recs[..]), refs) && unretired == old(unretired) + |refs|
      ensures !failed ==> var n := Taken(old(pending), Slots); refs == RefsOf(old(pending)[..n]) && pending == old(pending)[n..]
      ensures failed ==> refs == RefsOf(old(pending)[..at])
    {
      hide RefsOf, Taken, Issued;
      ghost var before := recs[..];
      var queue := pending;
      refs, failed := [], false;
      var i := 0;
      ghost var j := 0;
      assert queue[..0] == [] && queue[0..] == queue;
      NoneIssued(before);
      while i < |queue| && |refs| < Slots
        invariant j <= i <= |queue| && |refs| <= Slots && j == (if failed then at else i) && (!failed ==> i <= at || at >= |queue|)
        invariant refs == RefsOf(queue[..j]) && Exist(refs, Slots)
        invariant recs[..] == Issued(before, refs) && unretired == old(unretired) + |refs|
        invariant Taken(queue, Slots) == j + Taken(queue[j..], Slots - |refs|)
        invariant failed ==> at < |queue| && |refs| < Slots
        decreases |queue| - i
      {
        if i == at {
          failed := true;
        }
        if !failed {
          TakeOne(queue, i, Slots - |refs|);
          if queue[i].Gather? {
            EntryInBounds(queue, i);
            MoreIssued(before, refs, queue[i].ref);
            var slot := queue[i].ref.slot;
            recs[slot] := recs[slot].(transportDone := false);
            unretired := unretired + 1;
            refs := refs + [queue[i].ref];
          }
          j := j + 1;
        }
        i := i + 1;
      }
      TakenEnds(queue[j..], Slots - |refs|);
      pending := queue[i..];
    }

    /** The record of a gather, before it is known to be queued. */
    method Charge(slot: nat, size: nat)
      requires recs.Length == Slots && slot < Slots
      modifies this`bytes, this`appPending, recs
      ensures recs[..] == old(recs[..])[slot := Rec(true, false, true, accepted, size)]
      ensures bytes == old(bytes) + size && appPending == old(appPending) + 1
    {
      recs[slot] := Rec(true, false, true, accepted, size);
      bytes := bytes + size;
      appPending := appPending + 1;
    }

    /** It was not queued after all. */
    method Discharge(slot: nat, size: nat)
      requires recs.Length == Slots && slot < Slots
      modifies this`bytes, this`appPending, recs
      ensures recs[..] == old(recs[..])[slot := old(recs[slot]).(inUse := false)]
      ensures bytes == old(bytes) - size && appPending == old(appPending) - 1
    {
      recs[slot] := recs[slot].(inUse := false);
      bytes := bytes - size;
      appPending := appPending - 1;
    }

    /** A gather takes the first free slot and is queued, or is refused and leaves no trace. */
    method TakeGather(size: nat, answer: Answer) returns (sent: Sent)
      requires recs.Length == Slots && InRange(View())
      modifies this, recs
      ensures View() == AfterGather(old(View()), size, answer)
      ensures sent.Accepted? <==> accepted == old(accepted) + 1
      ensures !sent.Accepted? ==> accepted == old(accepted)
      ensures sent.Closed? <==> old(terminal || cancelIssued)
      ensures sent.WouldBlock? <==> old(!terminal && !cancelIssued && (AllInUse(recs[..]) || bytes + size > MaxBytes))
      ensures sent.WouldBlock? ==> blocked
      ensures sent.Accepted? <==>
                answer == Ok && old(!terminal && !cancelIssued && !AllInUse(recs[..]) && bytes + size <= MaxBytes)
      ensures sent.Accepted? ==> forall k :: 0 <= k < Slots && NwSendEffects.FirstFree(old(recs[..]), k) ==>
                recs[..] == old(recs[..])[k := Rec(true, false, true, old(accepted), size)] &&
                pending == old(pending) + [Gather(Ref(k, old(accepted)))]
    {
      hide InRange, FindSlot;
      ghost var s := View();
      FindsRoom(recs[..]);
      if terminal || cancelIssued {
        return Closed;
      }
      var room := FindFree();
      if room.NoRoom? || bytes + size > MaxBytes {
        blocked := true;
        return WouldBlock;
      }
      if answer == NoMemory {
        return Failure;
      }
      Charge(room.slot, size);
      if answer == NotQueued {
        Discharge(room.slot, size);
        return Failure;
      }
      pending := pending + [Gather(Ref(room.slot, accepted))];
      accepted := accepted + 1;
      return Accepted;
    }

    /** A gather is accepted and pumped, or refused. */
    method SendGather(size: nat, answer: Answer, at: nat) returns (sent: Sent)
      requires Valid()
      modifies this, recs
      ensures Valid()
      ensures View() == Next(old(View()), NwSends.SendGather(size, answer, Breaks(AfterGather(old(View()), size, answer).pending, at)))
      ensures sent.Accepted? <==> accepted == old(accepted) + 1
      ensures sent.Closed? <==> old(terminal || cancelIssued)
      // the window: the bytes of the gathers accepted and not yet told of
      ensures sent.WouldBlock? <==>
                old(!terminal && !cancelIssued && (AllInUse(recs[..]) || Sum(recs[..], BytesOf) + size > MaxBytes))
      ensures sent.Accepted? <==>
                answer == Ok && old(!terminal && !cancelIssued && !AllInUse(recs[..]) && Sum(recs[..], BytesOf) + size <= MaxBytes)
    {
      assert bytes == Sum(recs[..], BytesOf);
      hide Inv, InRange, AfterGather, Breaks, Pump, Sum;
      ghost var s := View();
      GatherKeeps(s, size, answer);
      KnownInRange(AfterGather(s, size, answer));
      sent := TakeGather(size, answer);
      if sent.Accepted? {
        PumpSends(at);
      }
    }

    /** A phase of a batch is over; after both it is gone. */
    method EndPhase(b: nat, v: Batch)
      requires b < |batches|
      modifies this`batches, this`batchesLive
      ensures View() == PhaseDone(old(View()), b, v)
    {
      if v.completed && v.retired {
        batches := batches[..b] + batches[b + 1..];
        batchesLive := batchesLive - 1;
      } else {
        batches := batches[b := v];
      }
    }

    /** The next completion of the batch being fanned out is delivered. */
    method TellOne()
      requires Valid() && Enabled(View(), NwSends.TellOne)
      modifies this, recs
      ensures Valid() && View() == Next(old(View()), NwSends.TellOne)
    {
      hide Inv, InRange, RefsOf, Retired, Sum, OwedIds, SweptAll, AnyDone;
      ghost var s := View();
      RangeFacts(s);
      StepKeeps(s, NwSends.TellOne);
      KnownInRange(Next(s, NwSends.TellOne));
      AppCompleteSlot(batches[fan.b].refs[fan.k].slot);
      fan := fan.(told := true);
    }

    /** The transport lets go of a batch: its slots may be free, and a waiting sender is woken. */
    method RetireBatch(b: nat)
      requires Valid() && Enabled(View(), NwSends.RetireBatch(b))
      modifies this, recs
      ensures Valid() && View() == Next(old(View()), NwSends.RetireBatch(b))
    {
      hide Inv, InRange, RefsOf, Retired, Sum, OwedIds, SweptAll, AnyDone;
      ghost var s := View();
      RangeFacts(s);
      StepKeeps(s, NwSends.RetireBatch(b));
      KnownInRange(Next(s, NwSends.RetireBatch(b)));
      hide PhaseDone;
      var freed := RetireRefs(batches[b].refs);
      EndPhase(b, batches[b].(retired := true));
      if freed && blocked && !terminal && !cancelIssued {
        blocked := false;
      }
    }

    /** The queue is dropped and everything still owed is delivered. */
    method DropAndSweep()
      requires recs.Length == Slots
      modifies this, recs
      ensures View() == Fail(old(View()))
    {
      hide Sum, OwedIds, SweptAll, Down;
      failedSeen := true;
      pending := [];
      Synthesize();
      swept := true;
    }

    /** The stream has failed. */
    method FailSends()
      requires Valid() && Enabled(View(), Failed)
      modifies this, recs
      ensures Valid() && View() == Next(old(View()), Failed)
    {
      hide Inv, InRange, Fail;
      ghost var s := View();
      StepKeeps(s, Failed);
      KnownInRange(Next(s, Failed));
      DropAndSweep();
      cancelIssued := true;
    }
  }
}
