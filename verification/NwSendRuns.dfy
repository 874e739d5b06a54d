/**
 What the send chain keeps over every run: exactly one completion per accepted gather, slots
 reused only after both phases, counters that equal their definitions, one send in flight.
 */
module NwSendRuns {
  import opened NwSends

  // ---------------------------------------------------------------- the invariant

  predicate Owed(r: Rec) {
    r.inUse && !r.appDone
  }

  /** The completion of this batch member has been dealt with. */
  predicate Finished(s: State, b: nat, k: nat)
    requires b < |s.batches|
  {
    s.batches[b].completed || (s.fan.Fan? && s.fan.b == b && (k < s.fan.k || (k == s.fan.k && s.fan.told)))
  }

  predicate Counts(s: State) {
    s.c.appPending == Sum(s.recs, PendingOf) && s.c.bytes == Sum(s.recs, BytesOf) &&
    s.c.unretired == Sum(s.recs, UnretiredOf) && s.c.batchesLive == |s.batches| && s.c.bytes <= MaxBytes &&
    |s.told| + s.c.appPending == s.accepted && s.c.unretired == Held(s.batches)
  }

  /** The members of batches that the transport still holds. */
  function Held(batches: seq<Batch>): nat {
    if batches == [] then 0
    else
      var n := |batches| - 1;
      Held(batches[..n]) + (if batches[n].retired then 0 else |batches[n].refs|)
  }

  /** Every accepted gather has been told of once, or waits in exactly one slot. */
  ghost predicate ToldOk(s: State) {
    (forall i, j :: 0 <= i < j < |s.told| ==> s.told[i] != s.told[j]) && (forall i :: 0 <= i < |s.told| ==> s.told[i] < s.accepted) &&
    (forall r :: 0 <= r < |s.recs| && Owed(s.recs[r]) ==> s.recs[r].id < s.accepted && s.recs[r].id !in s.told) &&
    (forall q, r :: 0 <= q < r < |s.recs| && Owed(s.recs[q]) && Owed(s.recs[r]) ==> s.recs[q].id != s.recs[r].id) &&
    (forall id: nat :: id < s.accepted ==> id in s.told || exists r :: 0 <= r < |s.recs| && Owed(s.recs[r]) && s.recs[r].id == id)
  }

  /** A batch member holds its slot until both its completion and its retirement are over. */
  predicate MemberOk(s: State, b: nat, k: nat)
    requires b < |s.batches| && k < |s.batches[b].refs|
  {
    var x := s.batches[b].refs[k];
    x.slot < |s.recs| && x.id < s.accepted &&
    var r := s.recs[x.slot];
    (!s.batches[b].retired ==> r.inUse && r.id == x.id && !r.transportDone && (Finished(s, b, k) ==> r.appDone)) &&
    (!Finished(s, b, k) && !s.f.swept ==> r.inUse && r.id == x.id && !r.appDone && r.transportDone == s.batches[b].retired) &&
    (!Finished(s, b, k) && s.f.swept ==> r.appDone)
  }

  predicate MembersOk(s: State) {
    forall b :: 0 <= b < |s.batches| ==> forall k :: 0 <= k < |s.batches[b].refs| ==> MemberOk(s, b, k)
  }

  /** A queued gather holds its slot, and no transport does. */
  predicate QueuedOk(s: State, x: Ref) {
    x.slot < |s.recs| && x.id < s.accepted &&
    (!s.f.swept ==>
      var r := s.recs[x.slot]; r.inUse && r.id == x.id && !r.appDone && r.transportDone)
  }

  predicate QueueOk(s: State) {
    var queue := RefsOf(s.pending);
    forall q :: 0 <= q < |queue| ==> QueuedOk(s, queue[q])
  }

  predicate Rising(refs: seq<Ref>) {
    forall k, l :: 0 <= k < l < |refs| ==> refs[k].id < refs[l].id
  }

  predicate Below(a: seq<Ref>, b: seq<Ref>) {
    forall k, l :: 0 <= k < |a| && 0 <= l < |b| ==> a[k].id < b[l].id
  }

  /** Batches and queue hold the gathers in the order they were accepted. */
  predicate Ordered(s: State) {
    (forall b :: 0 <= b < |s.batches| ==> Rising(s.batches[b].refs) && Below(s.batches[b].refs, RefsOf(s.pending))) &&
    (forall b, c :: 0 <= b < c < |s.batches| ==> Below(s.batches[b].refs, s.batches[c].refs)) &&
    Rising(RefsOf(s.pending))
  }

  predicate FlagsOk(s: State) {
    (s.f.swept ==> Down(s)) && (s.f.terminal ==> s.f.failedSeen) && (s.f.failedSeen ==> s.f.swept && s.pending == []) &&
    (s.f.swept ==> forall r :: 0 <= r < |s.recs| ==> !Owed(s.recs[r])) &&
    FanInRange(s.fan, s.batches) && (s.fan.Fan? ==> !s.batches[s.fan.b].completed) &&
    (forall b :: 0 <= b < |s.batches| ==>
      !(s.batches[b].completed && s.batches[b].retired) &&
      (!s.batches[b].completed && !(s.fan.Fan? && s.fan.b == b) ==> s.f.inflight && b == |s.batches| - 1)) &&
    (s.f.inflight ==> s.batches != [] && !s.batches[|s.batches| - 1].completed && !(s.fan.Fan? && s.fan.b == |s.batches| - 1))
  }

  /** Between steps of a fan-out, a slot in use is one that somebody still has to deal with. */
  predicate SlotsOk(s: State) {
    |s.recs| == Slots &&
    forall r :: 0 <= r < |s.recs| && s.recs[r].inUse ==>
      !s.recs[r].appDone || !s.recs[r].transportDone || BeingTold(s, r)
  }

  predicate BeingTold(s: State, r: nat) {
    s.fan.Fan? && s.fan.told && FanInRange(s.fan, s.batches) && s.batches[s.fan.b].refs[s.fan.k].slot == r
  }

  ghost predicate Inv(s: State) {
    Counts(s) && ToldOk(s) && MembersOk(s) && QueueOk(s) && Ordered(s) && FlagsOk(s) && SlotsOk(s)
  }

  // ---------------------------------------------------------------- sums

  lemma {:induction false} SumUpdate(recs: seq<Rec>, i: nat, r: Rec, f: Rec -> nat)
    requires i < |recs|
    ensures Sum(recs[i := r], f) == Sum(recs, f) - f(recs[i]) + f(r)
  {
    var n := |recs| - 1;
    if i == n {
      assert recs[i := r][..n] == recs[..n];
    } else {
      SumUpdate(recs[..n], i, r, f);
      assert recs[i := r][..n] == recs[..n][i := r];
    }
  }

  lemma {:induction false} SumAtLeast(recs: seq<Rec>, i: nat, f: Rec -> nat)
    requires i < |recs|
    ensures Sum(recs, f) >= f(recs[i])
  {
    var n := |recs| - 1;
    if i < n {
      SumAtLeast(recs[..n], i, f);
    }
  }

  lemma {:induction false} SumZero(recs: seq<Rec>, f: Rec -> nat)
    requires forall i :: 0 <= i < |recs| ==> f(recs[i]) == 0
    ensures Sum(recs, f) == 0
  {
    if recs != [] {
      SumZero(recs[..|recs| - 1], f);
    }
  }

  /** One slot changes, and the counters follow. */
  lemma CountsUpdate(s: State, t: State, i: nat, r: Rec)
    requires Counts(s) && i < |s.recs| && t.recs == s.recs[i := r] && |t.batches| == t.c.batchesLive
    requires t.c.appPending == s.c.appPending - PendingOf(s.recs[i]) + PendingOf(r)
    requires t.c.bytes == s.c.bytes - BytesOf(s.recs[i]) + BytesOf(r) <= MaxBytes
    requires t.c.unretired == s.c.unretired - UnretiredOf(s.recs[i]) + UnretiredOf(r)
    requires |t.told| + t.c.appPending == t.accepted && t.c.unretired == s.c.unretired && t.batches == s.batches
    ensures Counts(t)
  {
    hide Sum;
    SumUpdate(s.recs, i, r, PendingOf);
    SumUpdate(s.recs, i, r, BytesOf);
    SumUpdate(s.recs, i, r, UnretiredOf);
  }

  lemma {:induction false} HeldSplit(a: seq<Batch>, b: seq<Batch>)
    ensures Held(a + b) == Held(a) + Held(b)
  {
    if b == [] {
      assert a + b == a;
    } else {
      var n := |b| - 1;
      HeldSplit(a, b[..n]);
      assert (a + b)[..|a + b| - 1] == a + b[..n];
    }
  }

  /** A batch changes or leaves. */
  lemma HeldPhase(batches: seq<Batch>, b: nat, v: Batch)
    requires b < |batches|
    ensures var w := if batches[b].retired then 0 else |batches[b].refs|;
      Held(batches[b := v]) == Held(batches) - w + (if v.retired then 0 else |v.refs|) &&
      Held(batches[..b] + batches[b + 1..]) == Held(batches) - w
  {
    hide Held;
    var front, back := batches[..b], batches[b + 1..];
    HeldSplit(front, back);
    HeldBetween(front, batches[b], back);
    HeldBetween(front, v, back);
    assert batches == front + ([batches[b]] + back) && batches[b := v] == front + ([v] + back);
  }

  lemma HeldBetween(front: seq<Batch>, v: Batch, back: seq<Batch>)
    ensures Held(front + ([v] + back)) == Held(front) + (if v.retired then 0 else |v.refs|) + Held(back)
  {
    HeldSplit(front, [v] + back);
    HeldSplit([v], back);
    assert [v][..0] == [];
  }

  // ---------------------------------------------------------------- delivering completions

  lemma TellNext(s: State)
    requires Inv(s) && Enabled(s, TellOne)
    ensures Inv(Next(s, TellOne))
  {
    var b, k := s.fan.b, s.fan.k;
    var x := s.batches[b].refs[k];
    var t := Next(s, TellOne);
    assert MemberOk(s, b, k);
    var r := s.recs[x.slot];
    if !r.appDone {
      assert !s.f.swept && Owed(r) && r.id == x.id;
      CountsUpdate(s, t, x.slot, r.(appDone := true));
      TellTold(s, t, x.slot);
    }
    TellMembers(s, t);
    TellQueue(s, t);
    TellFlags(s, t);
  }

  lemma TellTold(s: State, t: State, i: nat)
    requires ToldOk(s) && i < |s.recs| && Owed(s.recs[i])
    requires t.recs == s.recs[i := s.recs[i].(appDone := true)] && t.told == s.told + [s.recs[i].id] && t.accepted == s.accepted
    ensures ToldOk(t)
  {
    forall id: nat | id < t.accepted
      ensures id in t.told || exists r :: 0 <= r < |t.recs| && Owed(t.recs[r]) && t.recs[r].id == id
    {
      if id !in s.told && id != s.recs[i].id {
        var r :| 0 <= r < |s.recs| && Owed(s.recs[r]) && s.recs[r].id == id;
        assert t.recs[r] == s.recs[r];
      }
    }
  }

  lemma TellMembers(s: State, t: State)
    requires Inv(s) && Enabled(s, TellOne) && t == Next(s, TellOne)
    ensures MembersOk(t) && Ordered(t)
  {
    hide Sum, Held;
    var b, k := s.fan.b, s.fan.k;
    var x := s.batches[b].refs[k];
    assert MemberOk(s, b, k);
    forall c, l | 0 <= c < |t.batches| && 0 <= l < |t.batches[c].refs| ensures MemberOk(t, c, l) {
      assert MemberOk(s, c, l);
      var y := s.batches[c].refs[l];
      if y.slot == x.slot && (c != b || l != k) && !s.recs[x.slot].appDone {
        Different(s, b, k, c, l);
      }
    }
  }

  /** Two members of batches are two gathers. */
  lemma Different(s: State, b: nat, k: nat, c: nat, l: nat)
    requires Ordered(s) && b < |s.batches| && c < |s.batches| && k < |s.batches[b].refs| && l < |s.batches[c].refs|
    requires b != c || k != l
    ensures s.batches[b].refs[k].id != s.batches[c].refs[l].id
  {
    if b == c {
      assert Rising(s.batches[b].refs);
    } else if b < c {
      assert Below(s.batches[b].refs, s.batches[c].refs);
    } else {
      assert Below(s.batches[c].refs, s.batches[b].refs);
    }
  }

  lemma TellQueue(s: State, t: State)
    requires Inv(s) && Enabled(s, TellOne) && t == Next(s, TellOne)
    ensures QueueOk(t)
  {
    hide Sum, Held;
    var b, k := s.fan.b, s.fan.k;
    var x := s.batches[b].refs[k];
    assert MemberOk(s, b, k);
    var queue := RefsOf(s.pending);
    forall q | 0 <= q < |queue| ensures QueuedOk(t, queue[q]) {
      assert QueuedOk(s, queue[q]);
      assert Below(s.batches[b].refs, queue);
      assert x.id < queue[q].id;
    }
  }

  lemma TellFlags(s: State, t: State)
    requires Inv(s) && Enabled(s, TellOne) && t == Next(s, TellOne)
    ensures FlagsOk(t) && SlotsOk(t)
  {
    hide Sum, Held;
    assert MemberOk(s, s.fan.b, s.fan.k);
  }

  lemma ClearNext(s: State)
    requires Inv(s) && Enabled(s, ClearOne)
    ensures Inv(Next(s, ClearOne))
  {
    var b, k := s.fan.b, s.fan.k;
    var x := s.batches[b].refs[k];
    var t := Next(s, ClearOne);
    assert MemberOk(s, b, k);
    var r := s.recs[x.slot];
    if r.transportDone && r.appDone {
      CountsUpdate(s, t, x.slot, r.(inUse := false));
    }
    ClearMembers(s, t);
    ClearTold(s, t);
  }

  lemma ClearTold(s: State, t: State)
    requires ToldOk(s) && Enabled(s, ClearOne) && t == Next(s, ClearOne)
    ensures ToldOk(t)
  {
    assert forall r :: 0 <= r < |s.recs| ==> Owed(t.recs[r]) == Owed(s.recs[r]) && t.recs[r].id == s.recs[r].id;
    OwedTold(s, t);
  }

  /** What is known about the told depends only on what is owed. */
  lemma OwedTold(s: State, t: State)
    requires ToldOk(s) && |t.recs| == |s.recs| && t.told == s.told && t.accepted == s.accepted
    requires forall r :: 0 <= r < |s.recs| ==> Owed(t.recs[r]) == Owed(s.recs[r]) && (Owed(s.recs[r]) ==> t.recs[r].id == s.recs[r].id)
    ensures ToldOk(t)
  {
    hide Owed;
    forall id: nat | id < t.accepted
      ensures id in t.told || exists r :: 0 <= r < |t.recs| && Owed(t.recs[r]) && t.recs[r].id == id
    {
      if id !in s.told {
        var r :| 0 <= r < |s.recs| && Owed(s.recs[r]) && s.recs[r].id == id;
        assert Owed(t.recs[r]) && t.recs[r].id == id;
      }
    }
  }

  lemma ClearMembers(s: State, t: State)
    requires Inv(s) && Enabled(s, ClearOne) && t == Next(s, ClearOne)
    ensures MembersOk(t) && Ordered(t) && QueueOk(t) && FlagsOk(t) && SlotsOk(t)
  {
    hide RefsOf, Sum, Held;
    var b, k := s.fan.b, s.fan.k;
    var x := s.batches[b].refs[k];
    assert MemberOk(s, b, k);
    forall c, l | 0 <= c < |t.batches| && 0 <= l < |t.batches[c].refs| ensures MemberOk(t, c, l) {
      assert MemberOk(s, c, l);
    }
    var queue := RefsOf(s.pending);
    forall q | 0 <= q < |queue| ensures QueuedOk(t, queue[q]) {
      assert QueuedOk(s, queue[q]);
    }
  }

  lemma BeginNext(s: State, b: nat)
    requires Inv(s) && Enabled(s, BeginComplete(b))
    ensures Inv(Next(s, BeginComplete(b)))
  {
    hide Sum, Held;
    var t := Next(s, BeginComplete(b));
    forall c, l | 0 <= c < |t.batches| && 0 <= l < |t.batches[c].refs| ensures MemberOk(t, c, l) {
      assert MemberOk(s, c, l);
    }
    QuietTold(s, t);
    QuietQueue(s, t);
  }

  lemma QuietTold(s: State, t: State)
    requires ToldOk(s) && t.recs == s.recs && t.told == s.told && t.accepted == s.accepted
    ensures ToldOk(t)
  {
  }

  lemma QuietQueue(s: State, t: State)
    requires QueueOk(s) && t.recs == s.recs && t.pending == s.pending && t.accepted == s.accepted && t.f.swept == s.f.swept
    ensures QueueOk(t)
  {
    var queue := RefsOf(s.pending);
    forall q | 0 <= q < |queue| ensures QueuedOk(t, queue[q]) {
      assert QueuedOk(s, queue[q]);
    }
  }

  // ---------------------------------------------------------------- issuing a batch

  predicate Slotted(refs: seq<Ref>, i: nat) {
    exists k :: 0 <= k < |refs| && refs[k].slot == i
  }

  predicate DistinctSlots(refs: seq<Ref>) {
    forall k, l :: 0 <= k < l < |refs| ==> refs[k].slot != refs[l].slot
  }

  lemma SlottedPrefix(refs: seq<Ref>, i: nat)
    requires refs != []
    ensures var n := |refs| - 1; Slotted(refs, i) <==> Slotted(refs[..n], i) || refs[n].slot == i
  {
    var n := |refs| - 1;
    assert forall k :: 0 <= k < n ==> refs[..n][k] == refs[k];
    if Slotted(refs[..n], i) {
      var k :| 0 <= k < n && refs[..n][k].slot == i;
      assert refs[k].slot == i;
    }
  }

  lemma {:induction false} IssuedAt(recs: seq<Rec>, refs: seq<Ref>, i: nat)
    requires Exist(refs, |recs|) && i < |recs|
    ensures Issued(recs, refs)[i] == if Slotted(refs, i) then recs[i].(transportDone := false) else recs[i]
    decreases |refs|
  {
    if refs != [] {
      var n := |refs| - 1;
      IssuedAt(recs, refs[..n], i);
      SlottedPrefix(refs, i);
    }
  }

  lemma {:induction false} IssuedSums(recs: seq<Rec>, refs: seq<Ref>)
    requires Exist(refs, |recs|) && DistinctSlots(refs)
    requires forall k :: 0 <= k < |refs| ==> recs[refs[k].slot].inUse && recs[refs[k].slot].transportDone
    ensures Sum(Issued(recs, refs), UnretiredOf) == Sum(recs, UnretiredOf) + |refs|
    ensures Sum(Issued(recs, refs), PendingOf) == Sum(recs, PendingOf)
    ensures Sum(Issued(recs, refs), BytesOf) == Sum(recs, BytesOf)
    decreases |refs|
  {
    hide Sum;
    if refs != [] {
      var n := |refs| - 1;
      IssuedSums(recs, refs[..n]);
      var mid := Issued(recs, refs[..n]);
      var i := refs[n].slot;
      IssuedAt(recs, refs[..n], i);
      assert !Slotted(refs[..n], i);
      var r := mid[i].(transportDone := false);
      SumUpdate(mid, i, r, UnretiredOf);
      SumUpdate(mid, i, r, PendingOf);
      SumUpdate(mid, i, r, BytesOf);
    }
  }

  /** A batch that could not be handed over leaves no trace in the records. */
  lemma {:induction false} UnissueUndoesIssue(recs: seq<Rec>, refs: seq<Ref>)
    requires Exist(refs, |recs|)
    requires forall k :: 0 <= k < |refs| ==> recs[refs[k].slot].transportDone
    ensures Unissued(Issued(recs, refs), refs) == recs
  {
    var t := Issued(recs, refs);
    forall i | 0 <= i < |recs| ensures Unissued(t, refs)[i] == recs[i] {
      IssuedAt(recs, refs, i);
      UnissuedAt(t, refs, i);
    }
  }

  lemma {:induction false} UnissuedAt(recs: seq<Rec>, refs: seq<Ref>, i: nat)
    requires Exist(refs, |recs|) && i < |recs|
    ensures Unissued(recs, refs)[i] == if Slotted(refs, i) then recs[i].(transportDone := true) else recs[i]
    decreases |refs|
  {
    if refs != [] {
      var n := |refs| - 1;
      UnissuedAt(recs, refs[..n], i);
      SlottedPrefix(refs, i);
    }
  }

  /** The parts of a rising sequence. */
  lemma SplitRising(a: seq<Ref>, b: seq<Ref>)
    requires Rising(a + b)
    ensures Rising(a) && Rising(b) && Below(a, b)
  {
    forall k, l | 0 <= k < l < |a| ensures a[k].id < a[l].id {
      assert (a + b)[k] == a[k] && (a + b)[l] == a[l];
    }
    forall k, l | 0 <= k < l < |b| ensures b[k].id < b[l].id {
      assert (a + b)[|a| + k] == b[k] && (a + b)[|a| + l] == b[l];
    }
    forall k, l | 0 <= k < |a| && 0 <= l < |b| ensures a[k].id < b[l].id {
      assert (a + b)[k] == a[k] && (a + b)[|a| + l] == b[l];
    }
  }

  lemma SplitBelow(z: seq<Ref>, a: seq<Ref>, b: seq<Ref>)
    requires Below(z, a + b)
    ensures Below(z, a) && Below(z, b)
  {
    forall k, l | 0 <= k < |z| && 0 <= l < |a| ensures z[k].id < a[l].id {
      assert (a + b)[l] == a[l];
    }
    forall k, l | 0 <= k < |z| && 0 <= l < |b| ensures z[k].id < b[l].id {
      assert (a + b)[|a| + l] == b[l];
    }
  }

  /** The queue as it is cut by the pump. */
  lemma CutQueue(s: State, n: nat)
    requires QueueOk(s) && Ordered(s) && n <= |s.pending| && !s.f.swept
    ensures var refs, rest := RefsOf(s.pending[..n]), RefsOf(s.pending[n..]);
      Rising(refs) && Rising(rest) && Below(refs, rest) && DistinctSlots(refs) &&
      (forall k :: 0 <= k < |refs| ==> QueuedOk(s, refs[k])) && (forall k :: 0 <= k < |rest| ==> QueuedOk(s, rest[k])) &&
      (forall b :: 0 <= b < |s.batches| ==> Below(s.batches[b].refs, refs) && Below(s.batches[b].refs, rest))
  {
    hide RefsOf;
    RefsSplit(s.pending, n);
    var refs, rest := RefsOf(s.pending[..n]), RefsOf(s.pending[n..]);
    SplitRising(refs, rest);
    forall k | 0 <= k < |refs| ensures QueuedOk(s, refs[k]) {
      assert (refs + rest)[k] == refs[k];
    }
    forall k | 0 <= k < |rest| ensures QueuedOk(s, rest[k]) {
      assert (refs + rest)[|refs| + k] == rest[k];
    }
    forall b | 0 <= b < |s.batches| ensures Below(s.batches[b].refs, refs) && Below(s.batches[b].refs, rest) {
      assert Below(s.batches[b].refs, RefsOf(s.pending));
      SplitBelow(s.batches[b].refs, refs, rest);
    }
  }

  lemma PumpCounts(s: State, refs: seq<Ref>)
    requires Inv(s) && Exist(refs, |s.recs|) && DistinctSlots(refs) && !s.f.swept
    requires forall k :: 0 <= k < |refs| ==> QueuedOk(s, refs[k])
    ensures Sum(Issued(s.recs, refs), UnretiredOf) == s.c.unretired + |refs|
    ensures Sum(Issued(s.recs, refs), PendingOf) == s.c.appPending && Sum(Issued(s.recs, refs), BytesOf) == s.c.bytes
  {
    hide Sum, Issued;
    assert forall k :: 0 <= k < |refs| ==> QueuedOk(s, refs[k]);
    IssuedSums(s.recs, refs);
  }

  lemma OneHeld(refs: seq<Ref>)
    ensures Held([Batch(refs, false, false)]) == |refs|
  {
    assert [Batch(refs, false, false)][..0] == [];
  }

  lemma PumpIssues(s: State)
    requires Inv(s) && InRange(s) && !s.f.inflight && s.f.ready && !Down(s) && s.pending != []
    ensures Inv(Pump(s, false))
  {
    hide Sum, Taken, Issued, RefsOf;
    var n := Taken(s.pending, Slots);
    var refs := RefsOf(s.pending[..n]);
    var t := Pump(s, false);
    CutQueue(s, n);
    PrefixExists(s.pending, n);
    PumpCounts(s, refs);
    forall i | 0 <= i < |s.recs| ensures t.recs[i] == if Slotted(refs, i) then s.recs[i].(transportDone := false) else s.recs[i] {
      IssuedAt(s.recs, refs, i);
    }
    HeldSplit(s.batches, [Batch(refs, false, false)]);
    OneHeld(refs);
    assert IssueOf(s, t, refs) && Counts(t);
    hide Pump, Counts;
    IssuedTold(s, t, refs);
    IssuedMembers(s, t, refs);
    IssuedRest(s, t, refs, n);
  }

  /** What an issue changes, apart from the counters. */
  predicate IssueOf(s: State, t: State, refs: seq<Ref>) {
    |t.recs| == |s.recs| && t.batches == s.batches + [Batch(refs, false, false)] && t.fan == s.fan &&
    t.accepted == s.accepted && t.told == s.told && t.f == s.f.(inflight := true) &&
    forall i :: 0 <= i < |s.recs| ==> t.recs[i] == if Slotted(refs, i) then s.recs[i].(transportDone := false) else s.recs[i]
  }

  lemma IssuedTold(s: State, t: State, refs: seq<Ref>)
    requires ToldOk(s) && IssueOf(s, t, refs)
    ensures ToldOk(t)
  {
    OwedTold(s, t);
  }

  lemma IssuedMembers(s: State, t: State, refs: seq<Ref>)
    requires MembersOk(s) && FanInRange(s.fan, s.batches) && IssueOf(s, t, refs) && !s.f.swept
    requires forall k :: 0 <= k < |refs| ==> QueuedOk(s, refs[k])
    requires forall b :: 0 <= b < |s.batches| ==> Below(s.batches[b].refs, refs)
    ensures MembersOk(t)
  {
    forall c, l | 0 <= c < |t.batches| && 0 <= l < |t.batches[c].refs| ensures MemberOk(t, c, l) {
      if c < |s.batches| {
        assert t.batches[c] == s.batches[c];
        assert MemberOk(s, c, l);
        var y := s.batches[c].refs[l];
        if Slotted(refs, y.slot) {
          var k :| 0 <= k < |refs| && refs[k].slot == y.slot;
          assert QueuedOk(s, refs[k]);
          assert Below(s.batches[c].refs, refs);
        }
      } else {
        assert t.batches[c].refs[l] == refs[l];
        assert QueuedOk(s, refs[l]);
        assert Slotted(refs, refs[l].slot);
      }
    }
  }

  lemma IssuedRest(s: State, t: State, refs: seq<Ref>, n: nat)
    requires Ordered(s) && FlagsOk(s) && SlotsOk(s) && IssueOf(s, t, refs) && !s.f.swept && !s.f.inflight && !Down(s)
    requires n <= |s.pending| && t.pending == s.pending[n..]
    requires var rest := RefsOf(s.pending[n..]);
      Rising(refs) && Rising(rest) && Below(refs, rest) && (forall k :: 0 <= k < |refs| ==> QueuedOk(s, refs[k])) &&
      (forall k :: 0 <= k < |rest| ==> QueuedOk(s, rest[k])) &&
      (forall b :: 0 <= b < |s.batches| ==> Below(s.batches[b].refs, refs) && Below(s.batches[b].refs, rest))
    ensures QueueOk(t) && Ordered(t) && FlagsOk(t) && SlotsOk(t)
  {
    hide RefsOf;
    var rest := RefsOf(t.pending);
    forall q | 0 <= q < |rest| ensures QueuedOk(t, rest[q]) {
      assert QueuedOk(s, rest[q]);
      forall k | 0 <= k < |refs| ensures refs[k].slot != rest[q].slot {
        assert QueuedOk(s, refs[k]);
      }
    }
    forall b | 0 <= b < |t.batches| ensures Rising(t.batches[b].refs) && Below(t.batches[b].refs, rest) {
      if b < |s.batches| {
        assert t.batches[b] == s.batches[b];
      }
    }
    forall b, c | 0 <= b < c < |t.batches| ensures Below(t.batches[b].refs, t.batches[c].refs) {
      assert t.batches[b] == s.batches[b];
      assert c < |s.batches| ==> t.batches[c] == s.batches[c];
    }
    IssuedFlags(s, t, refs);
  }

  lemma IssuedFlags(s: State, t: State, refs: seq<Ref>)
    requires FlagsOk(s) && SlotsOk(s) && IssueOf(s, t, refs) && !s.f.swept && !s.f.inflight && !Down(s)
    ensures FlagsOk(t) && SlotsOk(t)
  {
    assert forall b :: 0 <= b < |s.batches| ==> t.batches[b] == s.batches[b];
  }

  /** The queue is given up, which only takes references away. */
  lemma DropKeeps(s: State, t: State)
    requires Inv(s) && t.pending == [] && t.recs == s.recs && t.batches == s.batches && t.fan == s.fan && t.c == s.c
    requires t.accepted == s.accepted && t.told == s.told && t.f == s.f.(cancelIssued := true)
    ensures Inv(t)
  {
    hide Sum, Held;
    QuietTold(s, t);
    forall c, l | 0 <= c < |t.batches| && 0 <= l < |t.batches[c].refs| ensures MemberOk(t, c, l) {
      assert MemberOk(s, c, l);
    }
    assert RefsOf([]) == [];
  }

  lemma PumpKeeps(s: State, concatFails: bool)
    requires Inv(s) && InRange(s)
    ensures Inv(Pump(s, concatFails))
  {
    hide Inv;
    if !s.f.inflight && s.f.ready && !Down(s) && s.pending != [] {
      if concatFails {
        DropKeeps(s, Pump(s, concatFails));
      } else {
        PumpIssues(s);
      }
    }
  }

  // ---------------------------------------------------------------- queueing

  lemma QueueGrows(es: seq<Entry>, e: Entry)
    ensures RefsOf(es + [e]) == RefsOf(es) + (if e.Plain? then [] else [e.ref])
  {
    RefsSplit(es + [e], |es|);
    assert (es + [e])[..|es|] == es && (es + [e])[|es|..] == [e] && [e][1..] == [];
  }

  lemma PlainKeeps(s: State)
    requires Inv(s) && !Down(s)
    ensures Inv(s.(pending := s.pending + [Plain]))
  {
    hide RefsOf, Sum, Held;
    var t := s.(pending := s.pending + [Plain]);
    QueueGrows(s.pending, Plain);
    assert RefsOf(s.pending) + [] == RefsOf(s.pending);
    assert RefsOf(t.pending) == RefsOf(s.pending);
    QuietTold(s, t);
    forall c, l | 0 <= c < |t.batches| && 0 <= l < |t.batches[c].refs| ensures MemberOk(t, c, l) {
      assert MemberOk(s, c, l);
    }
    var queue := RefsOf(s.pending);
    forall q | 0 <= q < |queue| ensures QueuedOk(t, queue[q]) {
      assert QueuedOk(s, queue[q]);
    }
  }

  /** A free slot is one that no live reference names. */
  lemma FreeIsUnnamed(s: State, i: nat)
    requires MembersOk(s) && QueueOk(s) && !s.f.swept && i < |s.recs| && !s.recs[i].inUse
    ensures forall q :: 0 <= q < |RefsOf(s.pending)| ==> RefsOf(s.pending)[q].slot != i
    ensures forall b :: 0 <= b < |s.batches| ==> forall k :: 0 <= k < |s.batches[b].refs| && s.batches[b].refs[k].slot == i ==>
      s.batches[b].retired && Finished(s, b, k)
  {
    var queue := RefsOf(s.pending);
    forall q | 0 <= q < |queue| ensures queue[q].slot != i {
      assert QueuedOk(s, queue[q]);
    }
    forall b, k | 0 <= b < |s.batches| && 0 <= k < |s.batches[b].refs| && s.batches[b].refs[k].slot == i
      ensures s.batches[b].retired && Finished(s, b, k)
    {
      assert MemberOk(s, b, k);
    }
  }

  lemma GatherKeeps(s: State, bytes: nat, answer: Answer)
    requires Inv(s) && InRange(s)
    ensures Inv(AfterGather(s, bytes, answer))
  {
    hide Inv;
    var room := FindSlot(s.recs, 0);
    if !Down(s) {
      if room.NoRoom? || s.c.bytes + bytes > MaxBytes {
        BlockedKeeps(s);
      } else if answer == NotQueued {
        NotQueuedKeeps(s, room.slot, bytes);
      } else if answer == Ok {
        AcceptedKeeps(s, room.slot, bytes);
      }
    }
  }

  lemma BlockedKeeps(s: State)
    requires Inv(s)
    ensures Inv(s.(f := s.f.(blocked := true)))
  {
    hide Sum, Held;
    var t := s.(f := s.f.(blocked := true));
    QuietTold(s, t);
    QuietQueue(s, t);
    forall c, l | 0 <= c < |t.batches| && 0 <= l < |t.batches[c].refs| ensures MemberOk(t, c, l) {
      assert MemberOk(s, c, l);
    }
  }

  lemma NotQueuedKeeps(s: State, i: nat, bytes: nat)
    requires Inv(s) && !Down(s) && i < |s.recs| && !s.recs[i].inUse
    ensures Inv(s.(recs := s.recs[i := Rec(false, false, true, s.accepted, bytes)]))
  {
    var r := Rec(false, false, true, s.accepted, bytes);
    var t := s.(recs := s.recs[i := r]);
    CountsUpdate(s, t, i, r);
    OwedTold(s, t);
    FreeIsUnnamed(s, i);
    forall c, l | 0 <= c < |t.batches| && 0 <= l < |t.batches[c].refs| ensures MemberOk(t, c, l) {
      assert MemberOk(s, c, l);
    }
    var queue := RefsOf(s.pending);
    forall q | 0 <= q < |queue| ensures QueuedOk(t, queue[q]) {
      assert QueuedOk(s, queue[q]);
    }
  }

  lemma AcceptedKeeps(s: State, i: nat, bytes: nat)
    requires Inv(s) && !Down(s) && i < |s.recs| && !s.recs[i].inUse && s.c.bytes + bytes <= MaxBytes
    ensures Inv(s.(recs := s.recs[i := Rec(true, false, true, s.accepted, bytes)],
                   pending := s.pending + [Gather(Ref(i, s.accepted))],
                   c := s.c.(bytes := s.c.bytes + bytes, appPending := s.c.appPending + 1),
                   accepted := s.accepted + 1))
  {
    var r := Rec(true, false, true, s.accepted, bytes);
    var t := s.(recs := s.recs[i := r], pending := s.pending + [Gather(Ref(i, s.accepted))],
                c := s.c.(bytes := s.c.bytes + bytes, appPending := s.c.appPending + 1), accepted := s.accepted + 1);
    CountsUpdate(s, t, i, r);
    AcceptedTold(s, t, i);
    AcceptedMembers(s, t, i);
    AcceptedQueue(s, t, i);
    AcceptedFlags(s, t, i);
  }

  predicate AcceptOf(s: State, t: State, i: nat) {
    i < |s.recs| && !s.recs[i].inUse && |t.recs| == |s.recs| && t.recs == s.recs[i := t.recs[i]] &&
    t.recs[i].inUse && !t.recs[i].appDone && t.recs[i].transportDone && t.recs[i].id == s.accepted &&
    t.pending == s.pending + [Gather(Ref(i, s.accepted))] && t.accepted == s.accepted + 1 && t.told == s.told &&
    t.batches == s.batches && t.fan == s.fan && t.f == s.f
  }

  lemma AcceptedTold(s: State, t: State, i: nat)
    requires ToldOk(s) && AcceptOf(s, t, i)
    ensures ToldOk(t)
  {
    forall id: nat | id < t.accepted
      ensures id in t.told || exists r :: 0 <= r < |t.recs| && Owed(t.recs[r]) && t.recs[r].id == id
    {
      if id == s.accepted {
        assert Owed(t.recs[i]) && t.recs[i].id == id;
      } else if id !in s.told {
        var r :| 0 <= r < |s.recs| && Owed(s.recs[r]) && s.recs[r].id == id;
        assert r != i;
        assert Owed(t.recs[r]) && t.recs[r].id == id;
      }
    }
  }

  lemma AcceptedMembers(s: State, t: State, i: nat)
    requires MembersOk(s) && QueueOk(s) && !s.f.swept && AcceptOf(s, t, i)
    ensures MembersOk(t)
  {
    FreeIsUnnamed(s, i);
    forall c, l | 0 <= c < |t.batches| && 0 <= l < |t.batches[c].refs| ensures MemberOk(t, c, l) {
      assert MemberOk(s, c, l);
    }
  }

  lemma AcceptedQueue(s: State, t: State, i: nat)
    requires MembersOk(s) && QueueOk(s) && Ordered(s) && !s.f.swept && AcceptOf(s, t, i)
    ensures QueueOk(t) && Ordered(t)
  {
    FreeIsUnnamed(s, i);
    QueueGrows(s.pending, Gather(Ref(i, s.accepted)));
    hide RefsOf;
    var queue, more := RefsOf(s.pending), RefsOf(t.pending);
    assert more == queue + [Ref(i, s.accepted)];
    forall q | 0 <= q < |more| ensures QueuedOk(t, more[q]) {
      if q < |queue| {
        assert more[q] == queue[q];
        assert QueuedOk(s, queue[q]);
      }
    }
    forall k, l | 0 <= k < l < |more| ensures more[k].id < more[l].id {
      assert more[k] == queue[k] && QueuedOk(s, queue[k]);
      assert l < |queue| ==> more[l] == queue[l];
    }
    forall b | 0 <= b < |s.batches| ensures Below(s.batches[b].refs, more) {
      forall k, l | 0 <= k < |s.batches[b].refs| && 0 <= l < |more| ensures s.batches[b].refs[k].id < more[l].id {
        assert MemberOk(s, b, k);
        assert Below(s.batches[b].refs, queue);
        assert l < |queue| ==> more[l] == queue[l];
      }
    }
  }

  lemma AcceptedFlags(s: State, t: State, i: nat)
    requires FlagsOk(s) && SlotsOk(s) && !Down(s) && AcceptOf(s, t, i)
    ensures FlagsOk(t) && SlotsOk(t)
  {
  }

  // ---------------------------------------------------------------- the end of a phase

  /** Where batch `c` of the shorter list was. */
  function Old(b: nat, c: nat): nat {
    if c < b then c else c + 1
  }

  /** A batch leaves, or stays with one phase done. */
  predicate PhaseOf(s: State, t: State, b: nat, v: Batch) {
    b < |s.batches| && v.refs == s.batches[b].refs && t.pending == s.pending &&
    t.batches == if v.completed && v.retired then s.batches[..b] + s.batches[b + 1..] else s.batches[b := v]
  }

  lemma PhaseOrdered(s: State, t: State, b: nat, v: Batch)
    requires Ordered(s) && PhaseOf(s, t, b, v)
    ensures Ordered(t)
  {
    hide RefsOf;
    if v.completed && v.retired {
      forall c | 0 <= c < |t.batches| ensures t.batches[c] == s.batches[Old(b, c)] {
      }
    } else {
      forall c | 0 <= c < |t.batches| ensures t.batches[c].refs == s.batches[c].refs {
      }
    }
  }

  lemma EndMembers(s: State, t: State, b: nat, v: Batch)
    requires MembersOk(s) && FlagsOk(s) && PhaseOf(s, t, b, v) && s.fan.Fan? && s.fan.b == b && s.fan.k == |s.batches[b].refs|
    requires t.fan.NoFan? && v == s.batches[b].(completed := true)
    requires t.recs == s.recs && t.accepted == s.accepted && t.f.swept == s.f.swept
    ensures MembersOk(t)
  {
    forall c, l | 0 <= c < |t.batches| && 0 <= l < |t.batches[c].refs| ensures MemberOk(t, c, l) {
      var o := if v.completed && v.retired then Old(b, c) else c;
      assert t.batches[c].refs == s.batches[o].refs;
      assert MemberOk(s, o, l);
      assert o != b ==> t.batches[c] == s.batches[o];
    }
  }

  lemma EndFlags(s: State, t: State, b: nat, v: Batch)
    requires FlagsOk(s) && SlotsOk(s) && PhaseOf(s, t, b, v) && s.fan.Fan? && s.fan.b == b && !s.fan.told
    requires t.fan.NoFan? && v == s.batches[b].(completed := true) && t.recs == s.recs && t.f == s.f
    ensures FlagsOk(t) && SlotsOk(t)
  {
    if v.retired {
      forall c | 0 <= c < |t.batches| ensures t.batches[c] == s.batches[Old(b, c)] {
      }
    }
  }

  lemma EndKeeps(s: State)
    requires Inv(s) && InRange(s) && s.fan.Fan? && !s.fan.told && s.fan.k == |s.batches[s.fan.b].refs|
    ensures Inv(PhaseDone(s.(fan := NoFan), s.fan.b, s.batches[s.fan.b].(completed := true)))
  {
    var b := s.fan.b;
    var v := s.batches[b].(completed := true);
    var t := PhaseDone(s.(fan := NoFan), b, v);
    QuietTold(s, t);
    QuietQueue(s, t);
    HeldPhase(s.batches, b, v);
    PhaseOrdered(s, t, b, v);
    EndMembers(s, t, b, v);
    EndFlags(s, t, b, v);
  }

  lemma EndInRange(s: State)
    requires Inv(s) && |s.recs| == Slots
    ensures InRange(s)
  {
    var queue := RefsOf(s.pending);
    forall q | 0 <= q < |queue| ensures queue[q].slot < Slots {
      assert QueuedOk(s, queue[q]);
    }
    forall b | 0 <= b < |s.batches| ensures Exist(s.batches[b].refs, Slots) {
      forall k | 0 <= k < |s.batches[b].refs| ensures s.batches[b].refs[k].slot < Slots {
        assert MemberOk(s, b, k);
      }
    }
  }

  // ---------------------------------------------------------------- retirement

  lemma {:induction false} RetiredAt(recs: seq<Rec>, refs: seq<Ref>, i: nat)
    requires Exist(refs, |recs|) && i < |recs|
    ensures Retired(recs, refs)[i] ==
      if Slotted(refs, i) then recs[i].(transportDone := true, inUse := recs[i].inUse && !recs[i].appDone) else recs[i]
    decreases |refs|
  {
    if refs != [] {
      var n := |refs| - 1;
      RetiredAt(recs, refs[..n], i);
      SlottedPrefix(refs, i);
    }
  }

  lemma {:induction false} RetiredSums(recs: seq<Rec>, refs: seq<Ref>)
    requires Exist(refs, |recs|) && DistinctSlots(refs)
    requires forall k :: 0 <= k < |refs| ==> recs[refs[k].slot].inUse && !recs[refs[k].slot].transportDone
    ensures Sum(Retired(recs, refs), UnretiredOf) == Sum(recs, UnretiredOf) - |refs|
    ensures Sum(Retired(recs, refs), PendingOf) == Sum(recs, PendingOf)
    ensures Sum(Retired(recs, refs), BytesOf) == Sum(recs, BytesOf)
    decreases |refs|
  {
    hide Sum;
    if refs != [] {
      var n := |refs| - 1;
      RetiredSums(recs, refs[..n]);
      var mid := Retired(recs, refs[..n]);
      var i := refs[n].slot;
      RetiredAt(recs, refs[..n], i);
      assert !Slotted(refs[..n], i);
      var r := mid[i].(transportDone := true, inUse := mid[i].inUse && !mid[i].appDone);
      SumUpdate(mid, i, r, UnretiredOf);
      SumUpdate(mid, i, r, PendingOf);
      SumUpdate(mid, i, r, BytesOf);
    }
  }

  /** What the retirement of a batch changes in the records. */
  predicate RetireOf(s: State, t: State, b: nat) {
    b < |s.batches| && |t.recs| == |s.recs| && t.accepted == s.accepted && t.told == s.told &&
    t.fan.NoFan? && s.fan.NoFan? && t.f.(blocked := s.f.blocked) == s.f &&
    PhaseOf(s, t, b, s.batches[b].(retired := true)) && !s.batches[b].retired &&
    forall i :: 0 <= i < |s.recs| ==>
      t.recs[i] ==
      if Slotted(s.batches[b].refs, i) then s.recs[i].(transportDone := true, inUse := s.recs[i].inUse && !s.recs[i].appDone)
      else s.recs[i]
  }

  lemma RetireMembers(s: State, t: State, b: nat)
    requires MembersOk(s) && Ordered(s) && RetireOf(s, t, b)
    ensures MembersOk(t)
  {
    hide MemberOk, Ordered;
    var v := s.batches[b].(retired := true);
    forall c, l | 0 <= c < |t.batches| && 0 <= l < |t.batches[c].refs| ensures MemberOk(t, c, l) {
      PhaseAt(s, t, b, v, c);
      RetireMember(s, t, b, if v.completed then Old(b, c) else c, c, l);
    }
  }

  /** Which batch is where after a phase ended. */
  lemma PhaseAt(s: State, t: State, b: nat, v: Batch, c: nat)
    requires PhaseOf(s, t, b, v) && c < |t.batches|
    ensures var o := if v.completed && v.retired then Old(b, c) else c;
      o < |s.batches| && t.batches[c] == if o == b then v else s.batches[o]
  {
  }

  lemma RetireMember(s: State, t: State, b: nat, o: nat, c: nat, l: nat)
    requires MembersOk(s) && Ordered(s) && RetireOf(s, t, b) && o < |s.batches| && c < |t.batches|
    requires t.batches[c] == (if o == b then s.batches[b].(retired := true) else s.batches[o]) && l < |s.batches[o].refs|
    ensures MemberOk(t, c, l)
  {
    assert MemberOk(s, o, l);
    var y := s.batches[o].refs[l];
    if o == b {
      assert Slotted(s.batches[b].refs, y.slot);
    } else if Slotted(s.batches[b].refs, y.slot) {
      var k :| 0 <= k < |s.batches[b].refs| && s.batches[b].refs[k].slot == y.slot;
      assert MemberOk(s, b, k);
      Different(s, b, k, o, l);
      assert s.recs[y.slot].id != y.id;
    }
    hide PhaseOf, Ordered, MembersOk;
  }

  lemma RetireQueue(s: State, t: State, b: nat)
    requires MembersOk(s) && QueueOk(s) && Ordered(s) && RetireOf(s, t, b)
    ensures QueueOk(t)
  {
    hide RefsOf;
    var queue := RefsOf(s.pending);
    forall q | 0 <= q < |queue| ensures QueuedOk(t, queue[q]) {
      assert QueuedOk(s, queue[q]);
      if !s.f.swept {
        forall k | 0 <= k < |s.batches[b].refs| ensures s.batches[b].refs[k].slot != queue[q].slot {
          assert MemberOk(s, b, k);
        }
      }
    }
  }

  lemma RetireFlags(s: State, t: State, b: nat)
    requires FlagsOk(s) && SlotsOk(s) && MembersOk(s) && RetireOf(s, t, b)
    ensures FlagsOk(t) && SlotsOk(t)
  {
    var v := s.batches[b].(retired := true);
    forall c | 0 <= c < |t.batches|
      ensures !(t.batches[c].completed && t.batches[c].retired) && (!t.batches[c].completed ==> t.f.inflight && c == |t.batches| - 1)
    {
      var o := if v.completed then Old(b, c) else c;
      assert o != b ==> t.batches[c] == s.batches[o];
    }
    if t.f.inflight {
      var o := |s.batches| - 1;
      assert !s.batches[o].completed;
      assert t.batches[|t.batches| - 1].completed == s.batches[o].completed;
    }
    assert forall r :: 0 <= r < |s.recs| ==> (Owed(t.recs[r]) ==> Owed(s.recs[r]));
  }

  lemma MemberSlots(s: State, b: nat)
    requires MembersOk(s) && Ordered(s) && b < |s.batches| && !s.batches[b].retired
    ensures var refs := s.batches[b].refs;
      Exist(refs, |s.recs|) && DistinctSlots(refs) &&
      forall k :: 0 <= k < |refs| ==> s.recs[refs[k].slot].inUse && !s.recs[refs[k].slot].transportDone
  {
    var refs := s.batches[b].refs;
    forall k | 0 <= k < |refs| ensures refs[k].slot < |s.recs| && s.recs[refs[k].slot].inUse && !s.recs[refs[k].slot].transportDone {
      assert MemberOk(s, b, k);
    }
    forall k, l | 0 <= k < l < |refs| ensures refs[k].slot != refs[l].slot {
      assert MemberOk(s, b, k) && MemberOk(s, b, l) && Rising(refs);
    }
  }

  lemma RetireCounts(s: State, b: nat)
    requires Counts(s) && MembersOk(s) && Ordered(s) && Enabled(s, RetireBatch(b))
    ensures Counts(Next(s, RetireBatch(b)))
  {
    hide Sum, Retired, MembersOk, Ordered, Held;
    MemberSlots(s, b);
    RetiredSums(s.recs, s.batches[b].refs);
    HeldPhase(s.batches, b, s.batches[b].(retired := true));
  }

  lemma RetireChanges(s: State, b: nat)
    requires Enabled(s, RetireBatch(b))
    ensures RetireOf(s, Next(s, RetireBatch(b)), b)
  {
    hide Sum, Retired;
    var refs := s.batches[b].refs;
    forall i | 0 <= i < |s.recs|
      ensures Retired(s.recs, refs)[i] ==
        if Slotted(refs, i) then s.recs[i].(transportDone := true, inUse := s.recs[i].inUse && !s.recs[i].appDone) else s.recs[i]
    {
      RetiredAt(s.recs, refs, i);
    }
  }

  lemma RetireNext(s: State, b: nat)
    requires Inv(s) && Enabled(s, RetireBatch(b))
    ensures Inv(Next(s, RetireBatch(b)))
  {
    var t := Next(s, RetireBatch(b));
    hide Next, Enabled, Sum, RefsOf;
    RetireCounts(s, b);
    RetireChanges(s, b);
    OwedTold(s, t);
    RetireMembers(s, t, b);
    RetireQueue(s, t, b);
    PhaseOrdered(s, t, b, s.batches[b].(retired := true));
    RetireFlags(s, t, b);
  }

  // ---------------------------------------------------------------- the sweep

  lemma {:induction false} OwedCount(recs: seq<Rec>)
    ensures |OwedIds(recs)| == Sum(recs, PendingOf)
  {
    if recs != [] {
      OwedCount(recs[..|recs| - 1]);
    }
  }

  /** The ids that are owed are those of the slots that are owed. */
  lemma {:induction false} OwedAre(recs: seq<Rec>, id: nat)
    ensures id in OwedIds(recs) <==> exists r :: 0 <= r < |recs| && Owed(recs[r]) && recs[r].id == id
  {
    if recs != [] {
      var n := |recs| - 1;
      OwedAre(recs[..n], id);
      if r :| 0 <= r < n && Owed(recs[..n][r]) && recs[..n][r].id == id {
        assert recs[..n][r] == recs[r];
      }
      if r :| 0 <= r < |recs| && Owed(recs[r]) && recs[r].id == id {
        assert r < n ==> recs[..n][r] == recs[r];
      }
    }
  }

  lemma {:induction false} OwedDistinct(recs: seq<Rec>)
    requires forall q, r :: 0 <= q < r < |recs| && Owed(recs[q]) && Owed(recs[r]) ==> recs[q].id != recs[r].id
    ensures forall i, j :: 0 <= i < j < |OwedIds(recs)| ==> OwedIds(recs)[i] != OwedIds(recs)[j]
  {
    if recs != [] {
      var n := |recs| - 1;
      OwedDistinct(recs[..n]);
      if Owed(recs[n]) {
        OwedAre(recs[..n], recs[n].id);
        var ids := OwedIds(recs[..n]);
        assert OwedIds(recs) == ids + [recs[n].id];
        assert forall i :: 0 <= i < |ids| ==> ids[i] in ids;
      }
    }
  }

  lemma {:induction false} SweptSums(recs: seq<Rec>)
    ensures Sum(SweptAll(recs), PendingOf) == 0 && Sum(SweptAll(recs), BytesOf) == 0
    ensures Sum(SweptAll(recs), UnretiredOf) == Sum(recs, UnretiredOf)
  {
    SumZero(SweptAll(recs), PendingOf);
    SumZero(SweptAll(recs), BytesOf);
    if recs != [] {
      var n := |recs| - 1;
      SweptSums(recs[..n]);
      assert SweptAll(recs)[..n] == SweptAll(recs[..n]);
    }
  }

  /** Everything owed is delivered, and the stream goes down. */
  predicate SweepOf(s: State, t: State) {
    t.recs == SweptAll(s.recs) && t.told == s.told + OwedIds(s.recs) && t.accepted == s.accepted &&
    t.batches == s.batches && t.fan == s.fan && s.fan.NoFan? && (t.pending == s.pending || t.pending == []) &&
    t.f.swept && Down(t) && t.f.inflight == s.f.inflight && (t.f.failedSeen ==> t.pending == []) && (t.f.terminal ==> t.f.failedSeen) &&
    t.c == s.c.(appPending := s.c.appPending - |OwedIds(s.recs)|, bytes := s.c.bytes - Sum(s.recs, BytesOf))
  }

  /** Distinct lists without common elements make a distinct list. */
  lemma JoinDistinct(a: seq<nat>, b: seq<nat>)
    requires (forall i, j :: 0 <= i < j < |a| ==> a[i] != a[j]) && (forall i, j :: 0 <= i < j < |b| ==> b[i] != b[j])
    requires forall j :: 0 <= j < |b| ==> b[j] !in a
    ensures forall i, j :: 0 <= i < j < |a + b| ==> (a + b)[i] != (a + b)[j]
  {
    forall i, j | 0 <= i < j < |a + b| ensures (a + b)[i] != (a + b)[j] {
      if i < |a| <= j {
        assert b[j - |a|] !in a;
      }
    }
  }

  lemma SweepTold(s: State, t: State)
    requires ToldOk(s) && SweepOf(s, t)
    ensures ToldOk(t)
  {
    hide OwedIds, Sum;
    OwedDistinct(s.recs);
    var ids := OwedIds(s.recs);
    forall j | 0 <= j < |ids| ensures ids[j] < s.accepted && ids[j] !in s.told {
      assert ids[j] in ids;
      OwedAre(s.recs, ids[j]);
    }
    JoinDistinct(s.told, ids);
    forall id: nat | id < t.accepted ensures id in t.told {
      OwedAre(s.recs, id);
    }
  }

  lemma SweepCounts(s: State, t: State)
    requires Counts(s) && SweepOf(s, t)
    ensures Counts(t)
  {
    hide Sum, OwedIds;
    OwedCount(s.recs);
    SweptSums(s.recs);
  }

  lemma SweepMembers(s: State, t: State)
    requires MembersOk(s) && SweepOf(s, t)
    ensures MembersOk(t)
  {
    hide OwedIds, Sum;
    forall c, l | 0 <= c < |t.batches| && 0 <= l < |t.batches[c].refs| ensures MemberOk(t, c, l) {
      assert MemberOk(s, c, l);
    }
  }

  lemma SweepRest(s: State, t: State)
    requires QueueOk(s) && Ordered(s) && FlagsOk(s) && SlotsOk(s) && SweepOf(s, t)
    ensures QueueOk(t) && Ordered(t) && FlagsOk(t) && SlotsOk(t)
  {
    hide OwedIds, Sum;
    assert RefsOf([]) == [];
    hide RefsOf;
    var queue := RefsOf(t.pending);
    forall q | 0 <= q < |queue| ensures QueuedOk(t, queue[q]) {
      assert QueuedOk(s, queue[q]);
    }
  }

  lemma SweepKeeps(s: State, t: State)
    requires Inv(s) && SweepOf(s, t)
    ensures Inv(t)
  {
    hide OwedIds, Sum, SweepOf;
    SweepTold(s, t);
    SweepCounts(s, t);
    SweepMembers(s, t);
    SweepRest(s, t);
  }

  /** A flag changes that no obligation depends on. */
  lemma FlagKeeps(s: State, t: State)
    requires Inv(s) && t == s.(f := t.f) && t.f.swept == s.f.swept && t.f.inflight == s.f.inflight && t.f.failedSeen == s.f.failedSeen
    requires (Down(s) ==> Down(t)) && (t.f.terminal ==> t.f.failedSeen)
    ensures Inv(t)
  {
    hide Sum, Held;
    QuietTold(s, t);
    QuietQueue(s, t);
    forall c, l | 0 <= c < |t.batches| && 0 <= l < |t.batches[c].refs| ensures MemberOk(t, c, l) {
      assert MemberOk(s, c, l);
    }
  }

  // ---------------------------------------------------------------- every step, every run

  lemma SendNext(s: State, ev: Event)
    requires Inv(s) && Enabled(s, ev) && (ev.SendGather? || ev.SendPlain? || ev.PumpTurn? || ev.EndComplete?)
    ensures Inv(Next(s, ev))
  {
    hide Inv, Pump;
    match ev
    case SendGather(bytes, answer, concatFails) =>
      GatherKeeps(s, bytes, answer);
      var t := AfterGather(s, bytes, answer);
      if t.accepted != s.accepted {
        QueueInRange(s, FindSlot(s.recs, 0).slot, s.accepted);
        PumpKeeps(t, concatFails);
      }
    case SendPlain(ok, concatFails) =>
      if !Down(s) && ok {
        PlainKeeps(s);
        QueueInRange(s, 0, 0);
        PumpKeeps(s.(pending := s.pending + [Plain]), concatFails);
      }
    case PumpTurn(concatFails) => PumpKeeps(s, concatFails);
    case EndComplete(concatFails) =>
      EndKeeps(s);
      var t := PhaseDone(s.(fan := NoFan), s.fan.b, s.batches[s.fan.b].(completed := true));
      EndInRange(t);
      PumpKeeps(t, concatFails);
  }

  lemma DownNext(s: State, ev: Event)
    requires Inv(s) && Enabled(s, ev) && (ev.Ready? || ev.Cancel? || ev.Failed? || ev.Cancelled? || ev.GroupTerminal?)
    ensures Inv(Next(s, ev))
  {
    var t := Next(s, ev);
    assert FlagsOk(s);
    hide Inv, FlagsOk;
    match ev
    case Ready => FlagKeeps(s, t);
    case Cancel(dropQueue) =>
      if dropQueue {
        DropKeeps(s, t);
      } else {
        FlagKeeps(s, t);
      }
    case Failed => SweepKeeps(s, t);
    case Cancelled =>
      if s.f.failedSeen {
        FlagKeeps(s, t);
      } else {
        SweepKeeps(s, t);
      }
    case GroupTerminal => SweepNext(s);
  }

  lemma SweepNext(s: State)
    requires Inv(s) && s.fan.NoFan?
    ensures Inv(Sweep(s.(f := s.f.(cancelIssued := true))))
  {
    var t := Sweep(s.(f := s.f.(cancelIssued := true)));
    assert FlagsOk(s);
    assert SweepOf(s, t);
    hide Inv;
    SweepKeeps(s, t);
  }

  lemma StepKeeps(s: State, ev: Event)
    requires Inv(s) && Enabled(s, ev)
    ensures Inv(Next(s, ev))
  {
    hide Inv, Next;
    match ev
    case BeginComplete(b) => BeginNext(s, b);
    case TellOne => TellNext(s);
    case ClearOne => ClearNext(s);
    case RetireBatch(b) => RetireNext(s, b);
    case _ =>
      if ev.SendGather? || ev.SendPlain? || ev.PumpTurn? || ev.EndComplete? {
        SendNext(s, ev);
      } else {
        DownNext(s, ev);
      }
  }

  lemma InitOk()
    ensures Inv(Init())
  {
    var s := Init();
    SumZero(s.recs, PendingOf);
    SumZero(s.recs, BytesOf);
    SumZero(s.recs, UnretiredOf);
    assert RefsOf([]) == [];
  }

  lemma {:induction false} RunKeeps(es: seq<Event>, ss: seq<State>, n: nat)
    requires Run(es, ss) && n <= |es|
    ensures Inv(ss[n])
  {
    hide Inv;
    if n == 0 {
      InitOk();
    } else {
      RunKeeps(es, ss, n - 1);
      hide Next, Enabled;
      StepKeeps(ss[n - 1], es[n - 1]);
    }
  }

  // ---------------------------------------------------------------- what the application may rely on

  /** No accepted gather is told of twice; one that is not told of is owed by exactly one slot. */
  lemma ExactlyOnce(es: seq<Event>, ss: seq<State>, n: nat, id: nat)
    requires Run(es, ss) && n <= |es| && id < ss[n].accepted
    ensures forall i, j :: 0 <= i < j < |ss[n].told| ==> ss[n].told[i] != ss[n].told[j]
    ensures id in ss[n].told <==> !(exists r :: 0 <= r < |ss[n].recs| && Owed(ss[n].recs[r]) && ss[n].recs[r].id == id)
    ensures forall q, r :: 0 <= q < r < |ss[n].recs| && Owed(ss[n].recs[q]) && Owed(ss[n].recs[r]) ==>
      ss[n].recs[q].id != ss[n].recs[r].id
    ensures |ss[n].told| + ss[n].c.appPending == ss[n].accepted
  {
    RunKeeps(es, ss, n);
  }

  /** The counters equal what they are said to count, and the window is never exceeded. */
  lemma CountersExact(es: seq<Event>, ss: seq<State>, n: nat)
    requires Run(es, ss) && n <= |es|
    ensures var s := ss[n];
      s.c.appPending == Sum(s.recs, PendingOf) && s.c.unretired == Sum(s.recs, UnretiredOf) &&
      s.c.batchesLive == |s.batches| && s.c.bytes == Sum(s.recs, BytesOf) <= MaxBytes
  {
    RunKeeps(es, ss, n);
  }

  /** A gather takes a slot only when neither queue nor batch still has business with it. */
  lemma SlotReusedAfterBothPhases(es: seq<Event>, ss: seq<State>, n: nat, slot: nat)
    requires Run(es, ss) && n <= |es| && !Down(ss[n]) && FindSlot(ss[n].recs, 0) == Free(slot)
    ensures var s := ss[n];
      (forall q :: 0 <= q < |RefsOf(s.pending)| ==> RefsOf(s.pending)[q].slot != slot) &&
      (forall b :: 0 <= b < |s.batches| ==> forall k :: 0 <= k < |s.batches[b].refs| && s.batches[b].refs[k].slot == slot ==>
        s.batches[b].retired && Finished(s, b, k))
  {
    RunKeeps(es, ss, n);
    FreeIsUnnamed(ss[n], slot);
  }

  /** At most one send is in the hands of the transport and not yet completed. */
  lemma OneInFlight(es: seq<Event>, ss: seq<State>, n: nat, b: nat, c: nat)
    requires Run(es, ss) && n <= |es| && ss[n].fan.NoFan? && b < c < |ss[n].batches|
    ensures ss[n].batches[b].completed || ss[n].batches[c].completed
  {
    RunKeeps(es, ss, n);
  }

  /**
   What the backend checks before it frees the stream; a receive that is outstanding and a queued
   metadata recheck, which are no business of the send chain, both pin it.
   */
  predicate ReapEligible(s: State, receiving: bool, rechecking: bool) {
    s.f.terminal && !receiving && !rechecking && s.c.unretired == 0 && s.c.appPending == 0 && s.c.batchesLive == 0
  }

  /** A stream is freed only when nothing refers to it and every accepted gather was told of. */
  lemma ReapSafe(es: seq<Event>, ss: seq<State>, n: nat, receiving: bool, rechecking: bool)
    requires Run(es, ss) && n <= |es| && ReapEligible(ss[n], receiving, rechecking)
    ensures ss[n].pending == [] && ss[n].batches == [] && ss[n].fan.NoFan? && |ss[n].told| == ss[n].accepted
    ensures forall r :: 0 <= r < |ss[n].recs| ==> !ss[n].recs[r].inUse
  {
    RunKeeps(es, ss, n);
    var s := ss[n];
    forall r | 0 <= r < |s.recs| ensures !s.recs[r].inUse {
      SumAtLeast(s.recs, r, UnretiredOf);
      SumAtLeast(s.recs, r, PendingOf);
    }
  }

  /**
   Sending never holds a stream back for long: once it is over, it is eligible exactly when its
   last batch has gone and neither of the two pins is left.
   */
  lemma ReapComes(es: seq<Event>, ss: seq<State>, n: nat, receiving: bool, rechecking: bool)
    requires Run(es, ss) && n <= |es| && ss[n].f.terminal
    ensures ReapEligible(ss[n], receiving, rechecking) <==> ss[n].batches == [] && !receiving && !rechecking
  {
    RunKeeps(es, ss, n);
    if ss[n].batches == [] {
      SumZero(ss[n].recs, PendingOf);
    }
  }

  /** Once the stream has failed, every gather it ever accepted has been told of. */
  lemma FailureTellsAll(es: seq<Event>, ss: seq<State>, n: nat, id: nat)
    requires Run(es, ss) && n <= |es| && ss[n].f.failedSeen && id < ss[n].accepted
    ensures id in ss[n].told
  {
    RunKeeps(es, ss, n);
  }
}
