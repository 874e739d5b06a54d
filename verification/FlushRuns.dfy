/**
 Every run of the MsQuic backend's output ledger.

 A `World` is the connection together with every native stream it ever had. Each stream
 carries, beside the fields of its record, what the transport holds for it (`recs`) and the
 fate of every reliable output it ever accepted (`outs`). The fates are written by the
 transport's events alone and never read by the ledger, so they are an independent account
 of what the probe's answer has to mean.

 What the transport is trusted for, in `Enabled`: it completes only records it holds,
 accepts nothing on a stream after that stream's final event, and reports nothing after the
 connection's final event. A refused submission runs no nested callback, so it is one step;
 an accepted one may, so nested events are simply later steps.
 */
module FlushRuns {
  import opened FlushLedger

  /** Whether the engine's stream object is attached to the native record. */
  datatype Link = Never | Attached | Detached

  datatype Native = Native(
    isLocal: bool,
    isBidi: bool,
    localCritical: bool,
    pooled: bool,
    handle: bool,
    link: Link,
    wtData: bool,
    shutdownComplete: bool,
    shutdownPending: bool,
    shutdownGraceful: bool)

  /** `checks` counts completions whose writable check has not run yet. */
  datatype Budget = Budget(inflight: int, ideal: nat, blocked: bool, checks: nat)

  /** A record the transport holds. `out` and `finOut` index the outputs it carries. */
  datatype Rec = Rec(h: Header, gather: bool, len: nat, out: nat, finOut: nat)

  /** One accepted byte submission or FIN, and what became of it. */
  datatype Output = Output(
    fin: bool,
    epoch: nat,
    acked: bool,
    returned: bool,
    superseded: bool,
    canceled: bool)

  datatype Track = Track(
    owed: Owed,
    native: Native,
    budget: Budget,
    live: bool,
    recs: seq<Rec>,
    outs: seq<Output>,
    shutdownSeen: bool)

  datatype World = World(conn: Conn, tracks: seq<Track>)

  datatype StreamEvent =
    | ColdSend(len: nat, fin: bool, accepted: bool)
    | GatherSend(total: nat, fin: bool, accepted: bool)
    | GatherReturned
    | SendComplete(index: nat, canceled: bool)
    | WritableCheck
    | IdealSize(size: nat)
    | SendDirectionOver(graceful: bool)
    | PeerStop(engineSays: bool)
    | EnterShutdown(appCancel: bool, engineSays: bool)
    | LeaveShutdown(ok: bool, sendAccepted: bool)
    | LeaveOtherShutdown(sendAccepted: bool)
    | StartFailed
    | StreamOver(appClose: bool)
    | LinkEngine
    | DetachEngine(engineSays: bool)
    | ReportShutdown
    | Collect

  datatype ConnEvent =
    | ShutdownCall
    | FatalInput
    | StartDiverged
    | AwaitSends
    | SendsDrained
    | ConnOver

  datatype Event =
    | Opened(isLocal: bool, isBidi: bool, critical: bool, pooled: bool, link: Link)
    | OnStream(g: nat, e: StreamEvent)
    | OnConn(ce: ConnEvent)

  datatype Outcome = Outcome(conn: Conn, track: Track)

  // ---------------------------------------------------------------- the steps

  const EmptyOwed := Owed(0, 0, false, 0, 0, false, false, false, [])

  function Init(): World {
    World(Conn(Counts(0, 0, 0, 0, 0), false, false, false, true, false), [])
  }

  function NewTrack(isLocal: bool, isBidi: bool, critical: bool, pooled: bool, link: Link): Track {
    Track(EmptyOwed,
          Native(isLocal, isBidi, critical, pooled, true, link, false, false, false, false),
          Budget(0, 0, false, 0), true, [], [], false)
  }

  predicate Live(c: Conn, t: Track) {
    c.session && t.native.link == Attached && t.native.handle
  }

  predicate IsWt(n: Native, engineSays: bool) {
    !n.localCritical && (n.isLocal || n.isBidi) && (n.wtData || (n.link == Attached && engineSays))
  }

  function Ceiling(b: Budget): nat {
    if b.ideal > SEND_BUDGET_MIN then b.ideal else SEND_BUDGET_MIN
  }

  /** Whether a gather of `total` bytes exceeds the stream's in-flight budget. */
  predicate OverBudget(b: Budget, total: nat) {
    total != 0 && b.inflight != 0 &&
    (b.inflight >= Ceiling(b) || total > Ceiling(b) - b.inflight)
  }

  /** The outputs that a submission accepted at `epoch` adds. */
  function Accepted(bytes: bool, fin: bool, epoch: nat): seq<Output> {
    (if bytes then [Output(false, epoch, false, false, false, false)] else []) +
    (if fin then [Output(true, epoch, false, false, false, false)] else [])
  }

  function Supersede(outs: seq<Output>): (r: seq<Output>)
    ensures |r| == |outs|
    ensures forall k :: 0 <= k < |outs| ==> r[k] == outs[k].(superseded := true)
  {
    seq(|outs|, k requires 0 <= k < |outs| => outs[k].(superseded := true))
  }

  function AckFins(outs: seq<Output>): (r: seq<Output>)
    ensures |r| == |outs|
    ensures forall k :: 0 <= k < |outs| ==>
      r[k] == if outs[k].fin then outs[k].(acked := true) else outs[k]
  {
    seq(|outs|, k requires 0 <= k < |outs| =>
      if outs[k].fin then outs[k].(acked := true) else outs[k])
  }

  /** The fates after record `r` came back. */
  function Fates(outs: seq<Output>, r: Rec, canceled: bool): (s: seq<Output>)
    ensures |s| == |outs|
    ensures forall k :: 0 <= k < |outs| ==>
      s[k] == if r.h.bytes && k == r.out
              then outs[k].(returned := true, acked := outs[k].acked || !canceled,
                            canceled := outs[k].canceled || canceled)
              else if r.h.fin && k == r.finOut
              then outs[k].(canceled := outs[k].canceled || canceled)
              else outs[k]
  {
    seq(|outs|, k requires 0 <= k < |outs| =>
      if r.h.bytes && k == r.out
      then outs[k].(returned := true, acked := outs[k].acked || !canceled,
                    canceled := outs[k].canceled || canceled)
      else if r.h.fin && k == r.finOut
      then outs[k].(canceled := outs[k].canceled || canceled)
      else outs[k])
  }

  function Without<T>(s: seq<T>, i: nat): seq<T>
    requires i < |s|
  {
    s[..i] + s[i + 1..]
  }

  function With(l: Ledger, t: Track): Outcome {
    Outcome(l.conn, t.(owed := l.owed))
  }

  /** An accepted submission: a record for its bytes, or none for a bare cold FIN. */
  function Submit(c: Conn, t: Track, gather: bool, len: nat, fin: bool): Outcome {
    var bytes := len != 0;
    var record := bytes || gather;
    var l := Begin(Ledger(c, t.owed), bytes, fin);
    var counts := l.conn.counts;
    var rec := Rec(Header(bytes, fin, t.owed.epoch), gather, len, |t.outs|, |t.outs| + One(bytes));
    Outcome(
      l.conn.(counts := counts.(refs := counts.refs + One(record))),
      t.(owed := l.owed.(sendRefs := l.owed.sendRefs + One(record)),
         budget := t.budget.(inflight := t.budget.inflight + if gather then len else 0),
         recs := if record then t.recs + [rec] else t.recs,
         outs := t.outs + Accepted(bytes, fin, t.owed.epoch)))
  }

  /** A record is off the transport's hands: one reference fewer on the stream and the connection. */
  function Unref(l: Ledger): Ledger {
    var c := l.conn.counts;
    Ledger(l.conn.(counts := c.(refs := c.refs - 1)), l.owed.(sendRefs := l.owed.sendRefs - 1))
  }

  function Returned(t: Track, i: nat, canceled: bool): Track
    requires i < |t.recs|
  {
    var r := t.recs[i];
    t.(budget := t.budget.(inflight := t.budget.inflight - Load(r), checks := t.budget.checks + One(r.gather)),
       recs := Without(t.recs, i),
       outs := Fates(t.outs, r, canceled))
  }

  function Return(c: Conn, t: Track, i: nat, canceled: bool): Outcome
    requires i < |t.recs|
  {
    var l := Unref(Complete(Ledger(c, t.owed), t.recs[i].h, canceled));
    With(Settle(l), Returned(t, i, canceled))
  }

  /** Deliver the writable edge if the stream is armed and someone can still hear it. */
  function Check(c: Conn, t: Track): Track {
    t.(budget := t.budget.(blocked := t.budget.blocked && !Live(c, t)))
  }

  function CollectTrack(c: Conn, t: Track): Outcome {
    var counts := c.counts;
    if t.owed.settling
    then Outcome(Fail(c).(counts := counts.(settlements := counts.settlements - 1)),
                 t.(owed := t.owed.(settling := false), live := false))
    else Outcome(c, t.(live := false))
  }

  /** What the transport and the C stack allow. */
  predicate Enabled(c: Conn, t: Track, e: StreamEvent) {
    c.session && t.live &&
    match e
    case ColdSend(_, _, accepted) => accepted ==> !t.native.shutdownComplete
    case GatherSend(total, _, accepted) =>
      t.native.link == Attached && total <= U32_MAX * U32_MAX &&
      (accepted ==> !t.native.shutdownComplete)
    case GatherReturned => true
    case SendComplete(i, _) => i < |t.recs|
    case WritableCheck => t.budget.checks > 0
    case IdealSize(n) => n <= U64_MAX
    case SendDirectionOver(_) => true
    case PeerStop(_) => true
    case EnterShutdown(_, _) => true
    case LeaveShutdown(ok, sendAccepted) => t.owed.decisions != [] && (ok ==> sendAccepted)
    case LeaveOtherShutdown(_) => true
    case StartFailed => true
    case StreamOver(_) => true
    case LinkEngine => t.native.link == Never
    case DetachEngine(_) => t.native.link == Attached
    case ReportShutdown => t.native.shutdownPending && t.owed.decisions == []
    case Collect =>
      t.native.shutdownComplete && t.native.link != Attached && t.owed.sendRefs == 0 &&
      t.owed.decisions == [] && !t.native.shutdownPending
  }

  function StreamStep(c: Conn, t: Track, e: StreamEvent): Outcome
    requires Enabled(c, t, e)
  {
    var l := Ledger(c, t.owed);
    match e
    case ColdSend(len, fin, accepted) =>
      if c.shutdownStarted || !t.native.handle || (len == 0 && !fin) || !accepted
      then Outcome(c, t)
      else Submit(c, t, false, len, fin)
    case GatherSend(total, fin, accepted) =>
      if c.shutdownStarted || !t.native.handle then Outcome(c, t)
      else if OverBudget(t.budget, total)
      then Outcome(c, t.(budget := t.budget.(blocked := true)))
      else if !accepted then Outcome(c, t)
      else Submit(c, t, true, total, fin)
    case GatherReturned => Outcome(c, t.(budget := t.budget.(blocked := false)))
    case SendComplete(i, canceled) => Return(c, t, i, canceled)
    case WritableCheck =>
      Outcome(c, Check(c, t.(budget := t.budget.(checks := t.budget.checks - 1))))
    case IdealSize(n) =>
      var t' := t.(budget := t.budget.(ideal := n));
      Outcome(c, if n > t.budget.ideal then Check(c, t') else t')
    case SendDirectionOver(graceful) =>
      var o := With(SendShutdown(l, graceful), t);
      var deferred := t.owed.decisions != [];
      o.(track := o.track.(
        outs := if graceful then AckFins(t.outs) else t.outs,
        shutdownSeen := true,
        native := if deferred
                  then t.native.(shutdownPending := true, shutdownGraceful := graceful)
                  else t.native))
    case PeerStop(engineSays) =>
      if IsWt(t.native, engineSays)
      then var o := With(Withdraw(l), t); o.(track := o.track.(outs := Supersede(t.outs)))
      else With(Discard(l), t)
    case EnterShutdown(appCancel, engineSays) =>
      if c.shutdownStarted || !t.native.handle then Outcome(c, t)
      else if appCancel && IsWt(t.native, engineSays) then With(EnterDecision(l), t)
      else Outcome(c, t)
    case LeaveShutdown(ok, sendAccepted) =>
      var o := With(LeaveDecision(l, ok, sendAccepted), t);
      if ok then o.(track := o.track.(outs := Supersede(t.outs))) else o
    case LeaveOtherShutdown(sendAccepted) => With(LeavePlainShutdown(l, sendAccepted), t)
    case StartFailed => With(Discard(l), t)
    case StreamOver(appClose) =>
      var o := With(Discard(l), t);
      o.(track := o.track.(native := t.native.(
        shutdownComplete := true,
        handle := t.native.handle && t.native.pooled && !appClose)))
    case LinkEngine => Outcome(c, t.(native := t.native.(link := Attached)))
    case DetachEngine(engineSays) =>
      Outcome(c, t.(native := t.native.(link := Detached, wtData := engineSays)))
    case ReportShutdown => Outcome(c, t.(native := t.native.(shutdownPending := false)))
    case Collect => CollectTrack(c, t)
  }

  predicate ConnEnabled(c: Conn, e: ConnEvent) {
    c.session && (e.SendsDrained? ==> c.counts.refs == 0)
  }

  function ConnStep(c: Conn, e: ConnEvent): Conn {
    match e
    case ShutdownCall =>
      if c.shutdownStarted then c else FailIfPending(c).(shutdownStarted := true)
    case FatalInput => FailIfPending(c)
    case StartDiverged => FailIfPending(c).(shutdownStarted := true)
    case AwaitSends => c.(shutdownWhenFlushed := true)
    case SendsDrained =>
      if c.shutdownWhenFlushed then c.(shutdownStarted := true) else c
    case ConnOver => FailIfPending(c).(session := false)
  }

  predicate WorldEnabled(w: World, e: Event) {
    match e
    case Opened(_, _, _, _, link) => w.conn.session && link != Detached
    case OnStream(g, se) => g < |w.tracks| && Enabled(w.conn, w.tracks[g], se)
    case OnConn(ce) => ConnEnabled(w.conn, ce)
  }

  function Step(w: World, e: Event): World
    requires WorldEnabled(w, e)
  {
    match e
    case Opened(isLocal, isBidi, critical, pooled, link) =>
      w.(tracks := w.tracks + [NewTrack(isLocal, isBidi, critical, pooled, link)])
    case OnStream(g, se) =>
      var o := StreamStep(w.conn, w.tracks[g], se);
      World(o.conn, w.tracks[g := o.track])
    case OnConn(ce) => w.(conn := ConnStep(w.conn, ce))
  }

  /** `ws` are the successive worlds of a fresh connection that undergoes the events `es`. */
  predicate Run(es: seq<Event>, ws: seq<World>) {
    |ws| == |es| + 1 && ws[0] == Init() &&
    forall i :: 0 <= i < |es| ==> WorldEnabled(ws[i], es[i]) && ws[i + 1] == Step(ws[i], es[i])
  }

  // ---------------------------------------------------------------- what a stream keeps

  function Load(r: Rec): nat {
    if r.gather then r.len else 0
  }

  function ByteCount(rs: seq<Rec>): nat {
    if rs == [] then 0 else ByteCount(rs[..|rs| - 1]) + One(rs[|rs| - 1].h.bytes)
  }

  function CurrentCount(rs: seq<Rec>, epoch: nat): nat {
    if rs == [] then 0
    else CurrentCount(rs[..|rs| - 1], epoch) + One(rs[|rs| - 1].h.bytes && rs[|rs| - 1].h.epoch == epoch)
  }

  function LoadSum(rs: seq<Rec>): nat {
    if rs == [] then 0 else LoadSum(rs[..|rs| - 1]) + Load(rs[|rs| - 1])
  }

  predicate LossPending(ds: seq<Decision>) {
    exists i :: 0 <= i < |ds| && ds[i].loss
  }

  predicate InFlight(rs: seq<Rec>, k: nat) {
    exists i :: 0 <= i < |rs| && rs[i].h.bytes && rs[i].out == k
  }

  /** The stream's counters are the sizes of what the transport holds. */
  predicate CountsOk(t: Track) {
    t.owed.sendRefs == |t.recs| &&
    t.owed.sends == ByteCount(t.recs) &&
    t.owed.required == CurrentCount(t.recs, t.owed.epoch) &&
    t.budget.inflight == LoadSum(t.recs)
  }

  /** Records name the outputs they carry and never come from a later epoch. */
  predicate RecsOk(t: Track) {
    (forall i :: 0 <= i < |t.recs| ==> RecOk(t, t.recs[i])) &&
    (!t.owed.settling ==> forall i :: 0 <= i < |t.recs| ==> t.recs[i].h.epoch == t.owed.epoch)
  }

  predicate RecOk(t: Track, r: Rec) {
    r.h.epoch <= t.owed.epoch &&
    (r.h.bytes ==> r.out < |t.outs| && !t.outs[r.out].fin && t.outs[r.out].epoch == r.h.epoch) &&
    (r.h.fin ==> r.finOut < |t.outs| && t.outs[r.finOut].fin && t.outs[r.finOut].epoch == r.h.epoch)
  }

  /** An output is acknowledged, superseded, still owed, or its loss awaits a shutdown call. */
  predicate OutOk(t: Track, o: Output) {
    (o.superseded <==> o.epoch < t.owed.epoch) &&
    (o.acked || o.superseded || (if o.fin then t.owed.fin else !o.returned) || LossPending(t.owed.decisions)) &&
    (o.canceled ==> o.superseded || LossPending(t.owed.decisions))
  }

  predicate OutsOk(t: Track, failed: bool) {
    (forall k :: 0 <= k < |t.outs| ==> t.outs[k].epoch <= t.owed.epoch) &&
    (forall k :: 0 <= k < |t.outs| ==> !t.outs[k].fin && !t.outs[k].returned ==> InFlight(t.recs, k)) &&
    (forall k :: 0 <= k < |t.outs| ==> t.outs[k].canceled ==> t.owed.canceled) &&
    (!failed ==> forall k :: 0 <= k < |t.outs| ==> OutOk(t, t.outs[k]))
  }

  predicate SettleOk(t: Track, failed: bool) {
    (t.owed.epoch > 0 && !failed ==> t.owed.settling || t.owed.abortComplete) &&
    (t.owed.abortComplete ==> t.shutdownSeen) &&
    (forall i :: 0 <= i < |t.owed.decisions| ==> t.owed.decisions[i].shutdownComplete ==> t.shutdownSeen) &&
    (t.native.shutdownComplete ==> !t.owed.fin) &&
    (!t.live ==> t.recs == [] && !t.owed.fin && !t.owed.settling && t.owed.decisions == [])
  }

  predicate BudgetOk(c: Conn, t: Track) {
    t.budget.inflight <= U64_MAX && t.budget.ideal <= U64_MAX &&
    (t.native.link == Never ==> !t.budget.blocked) &&
    (t.budget.blocked && Live(c, t) ==> t.budget.inflight > 0 || t.budget.checks > 0)
  }

  predicate TrackOk(c: Conn, t: Track) {
    CountsOk(t) && RecsOk(t) && OutsOk(t, c.failed) && SettleOk(t, c.failed) && BudgetOk(c, t)
  }

  // ---------------------------------------------------------------- totals

  function Add(a: Counts, b: Counts): Counts {
    Counts(a.refs + b.refs, a.sends + b.sends, a.fins + b.fins,
           a.settlements + b.settlements, a.decisions + b.decisions)
  }

  function Share(t: Track): Counts {
    Counts(t.owed.sendRefs, t.owed.sends, One(t.owed.fin), One(t.owed.settling), |t.owed.decisions|)
  }

  function Total(ts: seq<Track>): Counts {
    if ts == [] then Counts(0, 0, 0, 0, 0)
    else Add(Total(ts[..|ts| - 1]), Share(ts[|ts| - 1]))
  }

  lemma {:induction false} TotalUpdate(ts: seq<Track>, g: nat, t: Track)
    requires g < |ts|
    ensures Add(Total(ts[g := t]), Share(ts[g])) == Add(Total(ts), Share(t))
  {
    var n := |ts| - 1;
    if g == n {
      assert ts[g := t][..n] == ts[..n];
    } else {
      TotalUpdate(ts[..n], g, t);
      assert ts[g := t][..n] == ts[..n][g := t];
    }
  }

  predicate WorldOk(w: World) {
    w.conn.counts == Total(w.tracks) &&
    (forall g :: 0 <= g < |w.tracks| ==> TrackOk(w.conn, w.tracks[g])) &&
    w.conn.sessionFailed == w.conn.failed &&
    (!w.conn.session && !w.conn.failed ==> !Pending(w.conn))
  }

  // ---------------------------------------------------------------- counting lemmas

  lemma {:induction false} CountsAppend(rs: seq<Rec>, r: Rec, epoch: nat)
    ensures ByteCount(rs + [r]) == ByteCount(rs) + One(r.h.bytes)
    ensures CurrentCount(rs + [r], epoch) == CurrentCount(rs, epoch) + One(r.h.bytes && r.h.epoch == epoch)
    ensures LoadSum(rs + [r]) == LoadSum(rs) + Load(r)
  {
    assert (rs + [r])[..|rs|] == rs;
  }

  lemma {:induction false} CountsWithout(rs: seq<Rec>, i: nat, epoch: nat)
    requires i < |rs|
    ensures ByteCount(Without(rs, i)) == ByteCount(rs) - One(rs[i].h.bytes)
    ensures CurrentCount(Without(rs, i), epoch) == CurrentCount(rs, epoch) - One(rs[i].h.bytes && rs[i].h.epoch == epoch)
    ensures LoadSum(Without(rs, i)) == LoadSum(rs) - Load(rs[i])
  {
    var n := |rs| - 1;
    if i == n {
      assert Without(rs, i) == rs[..n];
    } else {
      CountsWithout(rs[..n], i, epoch);
      CountsAppend(Without(rs[..n], i), rs[n], epoch);
      assert Without(rs, i) == Without(rs[..n], i) + [rs[n]];
    }
  }

  lemma {:induction false} NoneCurrent(rs: seq<Rec>, epoch: nat)
    requires forall i :: 0 <= i < |rs| ==> rs[i].h.epoch < epoch
    ensures CurrentCount(rs, epoch) == 0
  {
    if rs != [] {
      NoneCurrent(rs[..|rs| - 1], epoch);
    }
  }

  lemma {:induction false} ByteRecordsCount(rs: seq<Rec>, i: nat)
    requires i < |rs| && rs[i].h.bytes
    ensures ByteCount(rs) > 0
  {
    if i < |rs| - 1 {
      ByteRecordsCount(rs[..|rs| - 1], i);
    }
  }

  // ---------------------------------------------------------------- one step of one stream

  predicate Moved(c: Counts, o: Owed, c': Counts, o': Owed) {
    c'.refs - c.refs == o'.sendRefs - o.sendRefs &&
    c'.sends - c.sends == o'.sends - o.sends &&
    c'.fins - c.fins == One(o'.fin) - One(o.fin) &&
    c'.settlements - c.settlements == One(o'.settling) - One(o.settling) &&
    c'.decisions - c.decisions == |o'.decisions| - |o.decisions|
  }

  /** The connection's totals move exactly as this stream's share does, and loss is sticky. */
  predicate Balanced(c: Conn, t: Track, o: Outcome) {
    Moved(c.counts, t.owed, o.conn.counts, o.track.owed) &&
    (c.failed ==> o.conn.failed) && o.conn.session == c.session &&
    (c.sessionFailed == c.failed ==> o.conn.sessionFailed == o.conn.failed)
  }

  lemma SubmitCounts(c: Conn, t: Track, gather: bool, len: nat, fin: bool)
    requires CountsOk(t)
    ensures CountsOk(Submit(c, t, gather, len, fin).track)
  {
    hide Accepted, ByteCount, CurrentCount, LoadSum;
    var rec := Rec(Header(len != 0, fin, t.owed.epoch), gather, len, |t.outs|, |t.outs| + One(len != 0));
    CountsAppend(t.recs, rec, t.owed.epoch);
  }

  lemma SubmitBalanced(c: Conn, t: Track, gather: bool, len: nat, fin: bool)
    ensures Balanced(c, t, Submit(c, t, gather, len, fin))
  {
  }

  lemma SubmitRecs(c: Conn, t: Track, gather: bool, len: nat, fin: bool)
    requires RecsOk(t)
    ensures RecsOk(Submit(c, t, gather, len, fin).track)
  {
    var t' := Submit(c, t, gather, len, fin).track;
    forall i | 0 <= i < |t'.recs| ensures RecOk(t', t'.recs[i]) {
      if i < |t.recs| {
        assert RecOk(t, t.recs[i]);
      }
    }
  }

  lemma SubmitOuts(c: Conn, t: Track, gather: bool, len: nat, fin: bool)
    requires OutsOk(t, c.failed) && (gather || len != 0 || fin)
    ensures var o := Submit(c, t, gather, len, fin); OutsOk(o.track, o.conn.failed)
  {
    hide LossPending;
    var t' := Submit(c, t, gather, len, fin).track;
    assert t'.outs[..|t.outs|] == t.outs;
    forall k | 0 <= k < |t'.outs| && !t'.outs[k].fin && !t'.outs[k].returned
      ensures InFlight(t'.recs, k)
    {
      if k < |t.outs| {
        assert !t.outs[k].fin && !t.outs[k].returned;
        var i :| 0 <= i < |t.recs| && t.recs[i].h.bytes && t.recs[i].out == k;
        assert t'.recs[i] == t.recs[i];
      } else {
        assert t'.recs[|t.recs|].out == k;
      }
    }
    if !c.failed {
      forall k | 0 <= k < |t'.outs| ensures OutOk(t', t'.outs[k]) {
        if k < |t.outs| {
          assert OutOk(t, t.outs[k]);
        }
      }
    }
  }

  lemma SubmitKeeps(c: Conn, t: Track, gather: bool, len: nat, fin: bool)
    requires t.live && TrackOk(c, t) && !t.native.shutdownComplete
    requires gather || len != 0 || fin
    requires gather ==> t.budget.inflight + len <= U64_MAX
    ensures var o := Submit(c, t, gather, len, fin); TrackOk(o.conn, o.track) && Balanced(c, t, o)
  {
    SubmitCounts(c, t, gather, len, fin);
    SubmitBalanced(c, t, gather, len, fin);
    SubmitRecs(c, t, gather, len, fin);
    SubmitOuts(c, t, gather, len, fin);
  }

  // ---------------------------------------------------------------- ledger moves without a record

  /** The ledger-level form of `Balanced`, together with what moves without a record leave alone. */
  predicate Even(l: Ledger, r: Ledger) {
    Moved(l.conn.counts, l.owed, r.conn.counts, r.owed) &&
    (l.conn.failed ==> r.conn.failed) && r.conn.session == l.conn.session &&
    (l.conn.sessionFailed == l.conn.failed ==> l.conn.session ==> r.conn.sessionFailed == r.conn.failed) &&
    r.owed.sendRefs == l.owed.sendRefs && r.owed.sends == l.owed.sends && (l.owed.canceled ==> r.owed.canceled) &&
    (r.owed.fin ==> l.owed.fin)
  }

  lemma EvenChain(l: Ledger, m: Ledger, r: Ledger)
    requires Even(l, m) && Even(m, r)
    ensures Even(l, r)
  {
  }

  lemma DropFinEven(l: Ledger)
    ensures Even(l, DropFin(l)) && DropFin(l).conn.failed == l.conn.failed
    ensures DropFin(l).owed == l.owed.(fin := false)
  {
  }

  lemma DiscardEven(l: Ledger)
    ensures Even(l, Discard(l))
    ensures !Discard(l).owed.fin && (!Discard(l).conn.failed ==> Discard(l) == l)
  {
    DropFinEven(l.(conn := Fail(l.conn)));
  }

  lemma SettleEven(l: Ledger)
    ensures Even(l, Settle(l))
    ensures Settle(l).owed == l.owed ||
            (l.owed.settling && l.owed.abortComplete && l.owed.sendRefs == 0 && l.owed.decisions == [] &&
             Settle(l).owed == l.owed.(settling := false))
    ensures Settle(l).conn.failed == l.conn.failed
  {
  }

  /** The same shutdown calls, with the losses of `a` and possibly more. */
  predicate SameCalls(a: seq<Decision>, b: seq<Decision>) {
    |a| == |b| &&
    forall i :: 0 <= i < |a| ==> b[i].shutdownComplete == a[i].shutdownComplete && (a[i].loss ==> b[i].loss)
  }

  lemma CancelLossEven(l: Ledger)
    ensures Even(l, CancelLoss(l)) && CancelLoss(l).owed == l.owed.(decisions := CancelLoss(l).owed.decisions)
    ensures SameCalls(l.owed.decisions, CancelLoss(l).owed.decisions)
    ensures CancelLoss(l).conn.failed || LossPending(CancelLoss(l).owed.decisions)
  {
    var ds := l.owed.decisions;
    if ds != [] {
      var es := CancelLoss(l).owed.decisions;
      assert es[|ds| - 1].loss;
    }
  }

  lemma LossStays(a: seq<Decision>, b: seq<Decision>)
    requires |a| <= |b| && SameCalls(a, b[..|a|])
    ensures LossPending(a) ==> LossPending(b)
  {
    if i :| 0 <= i < |a| && a[i].loss {
      assert b[..|a|][i].loss;
      assert b[i].loss;
    }
  }

  lemma WithdrawEven(l: Ledger)
    ensures Even(l, Withdraw(l))
    ensures l.owed.epoch == U64_MAX ==> Withdraw(l) == l.(conn := Fail(l.conn))
    ensures l.owed.epoch != U64_MAX ==>
      var r := Withdraw(l);
      r.owed.epoch == l.owed.epoch + 1 && r.owed.required == 0 && !r.owed.fin &&
      r.conn.failed == l.conn.failed && r.owed.decisions == l.owed.decisions &&
      r.owed.abortComplete == l.owed.abortComplete &&
      (r.owed.settling || (r.owed.abortComplete && r.owed.sendRefs == 0 && r.owed.decisions == []))
  {
    if l.owed.epoch != U64_MAX {
      DropFinEven(l);
      var m := NewEpoch(DropFin(l));
      assert Even(DropFin(l), m);
      SettleEven(m);
    }
  }

  /** The outputs keep their kind, epoch, return and cancellation; superseding all of them may follow. */
  predicate SameOutputs(a: seq<Output>, b: seq<Output>) {
    |a| == |b| &&
    forall k :: 0 <= k < |a| ==>
      b[k].fin == a[k].fin && b[k].epoch == a[k].epoch && b[k].returned == a[k].returned &&
      b[k].canceled == a[k].canceled
  }

  /** A move that touches no record: what is left to show is about outputs and settlement only. */
  lemma MoveKeeps(c: Conn, t: Track, o: Outcome)
    requires t.live && TrackOk(c, t)
    requires o.track.recs == t.recs && o.track.budget == t.budget && o.track.live
    requires o.track.native.link == t.native.link && (o.track.native.handle ==> t.native.handle)
    requires Even(Ledger(c, t.owed), Ledger(o.conn, o.track.owed))
    requires c.session
    requires (o.track.owed.epoch == t.owed.epoch && o.track.owed.required == t.owed.required) ||
             (o.track.owed.epoch == t.owed.epoch + 1 && o.track.owed.required == 0)
    requires !o.track.owed.settling ==>
               t.owed.sendRefs == 0 || (!t.owed.settling && o.track.owed.epoch == t.owed.epoch)
    requires SameOutputs(t.outs, o.track.outs)
    requires !o.conn.failed ==> forall k :: 0 <= k < |t.outs| ==> OutOk(o.track, o.track.outs[k])
    requires SettleOk(o.track, o.conn.failed)
    ensures TrackOk(o.conn, o.track) && Balanced(c, t, o)
  {
    var t' := o.track;
    if t'.owed.epoch != t.owed.epoch {
      forall i | 0 <= i < |t.recs| ensures t.recs[i].h.epoch < t'.owed.epoch {
        assert RecOk(t, t.recs[i]);
      }
      NoneCurrent(t.recs, t'.owed.epoch);
    }
    assert RecsOk(t') by {
      forall i | 0 <= i < |t'.recs| ensures RecOk(t', t'.recs[i]) {
        assert RecOk(t, t.recs[i]);
      }
    }
  }

  lemma DiscardKeeps(c: Conn, t: Track, over: Native)
    requires c.session && t.live && TrackOk(c, t)
    requires over.link == t.native.link && (over.handle ==> t.native.handle)
    ensures var o := With(Discard(Ledger(c, t.owed)), t.(native := over));
            TrackOk(o.conn, o.track) && Balanced(c, t, o)
  {
    var o := With(Discard(Ledger(c, t.owed)), t.(native := over));
    DiscardEven(Ledger(c, t.owed));
    assert !o.conn.failed ==> forall k :: 0 <= k < |t.outs| ==> OutOk(t, t.outs[k]);
    MoveKeeps(c, t, o);
  }

  lemma WithdrawKeeps(c: Conn, t: Track)
    requires c.session && t.live && TrackOk(c, t)
    ensures var o := With(Withdraw(Ledger(c, t.owed)), t.(outs := Supersede(t.outs)));
            TrackOk(o.conn, o.track) && Balanced(c, t, o)
  {
    var o := With(Withdraw(Ledger(c, t.owed)), t.(outs := Supersede(t.outs)));
    WithdrawEven(Ledger(c, t.owed));
    MoveKeeps(c, t, o);
  }

  lemma SettleKeeps(c: Conn, t: Track)
    requires c.session && t.live && TrackOk(c, t)
    ensures var o := With(Settle(Ledger(c, t.owed)), t); TrackOk(o.conn, o.track) && Balanced(c, t, o)
  {
    var o := With(Settle(Ledger(c, t.owed)), t);
    SettleEven(Ledger(c, t.owed));
    assert !c.failed ==> forall k :: 0 <= k < |t.outs| ==> OutOk(t, t.outs[k]);
    MoveKeeps(c, t, o);
  }

  lemma EnterKeeps(c: Conn, t: Track)
    requires c.session && t.live && TrackOk(c, t)
    ensures var o := With(EnterDecision(Ledger(c, t.owed)), t); TrackOk(o.conn, o.track) && Balanced(c, t, o)
  {
    var o := With(EnterDecision(Ledger(c, t.owed)), t);
    var ds := t.owed.decisions;
    assert o.track.owed.decisions[..|ds|] == ds;
    if !c.failed {
      forall k | 0 <= k < |t.outs| ensures OutOk(o.track, t.outs[k]) {
        assert OutOk(t, t.outs[k]);
        if LossPending(ds) {
          var i :| 0 <= i < |ds| && ds[i].loss;
          assert o.track.owed.decisions[i].loss;
        }
      }
    }
    MoveKeeps(c, t, o);
  }

  lemma ThenSettle(c: Conn, t: Track, l: Ledger, m: Track)
    requires c.session && t.live && m.live && Balanced(c, t, Outcome(l.conn, m))
    requires m.owed == l.owed && TrackOk(l.conn, m)
    ensures var o := With(Settle(l), m); TrackOk(o.conn, o.track) && Balanced(c, t, o)
  {
    SettleKeeps(l.conn, m);
  }

  lemma PopEven(l: Ledger)
    requires l.owed.decisions != []
    ensures Even(l, PopDecision(l))
  {
  }

  lemma AcceptEven(l: Ledger)
    requires l.owed.decisions != []
    ensures Even(l, AcceptDecision(l))
    ensures l.owed.epoch == U64_MAX ==>
      var r := AcceptDecision(l);
      r.conn.failed && r.owed.epoch == U64_MAX && r.owed.required == l.owed.required && r.owed.settling == l.owed.settling
    ensures l.owed.epoch != U64_MAX ==>
      var r := AcceptDecision(l);
      r.owed.epoch == l.owed.epoch + 1 && r.owed.required == 0 && !r.owed.fin &&
      (r.owed.settling || (r.owed.abortComplete && r.owed.sendRefs == 0))
    ensures var r, n := AcceptDecision(l), |l.owed.decisions| - 1;
      r.owed.decisions == l.owed.decisions[..n] &&
      r.owed.abortComplete == (l.owed.abortComplete || l.owed.decisions[n].shutdownComplete)
  {
    var d := l.owed.decisions[|l.owed.decisions| - 1];
    var p := PopDecision(l);
    PopEven(l);
    var q := p.(owed := p.owed.(abortComplete := p.owed.abortComplete || d.shutdownComplete));
    WithdrawEven(q);
    assert Even(l, q);
    EvenChain(l, q, Withdraw(q));
  }

  lemma AcceptKeeps(c: Conn, t: Track)
    requires c.session && t.live && TrackOk(c, t) && t.owed.decisions != []
    ensures var o := With(AcceptDecision(Ledger(c, t.owed)), t.(outs := Supersede(t.outs)));
            TrackOk(o.conn, o.track) && Balanced(c, t, o)
  {
    var o := With(AcceptDecision(Ledger(c, t.owed)), t.(outs := Supersede(t.outs)));
    AcceptEven(Ledger(c, t.owed));
    MoveKeeps(c, t, o);
  }

  lemma RefuseEven(l: Ledger, sendAccepted: bool)
    requires l.owed.decisions != []
    ensures var r := RefuseDecision(l, sendAccepted);
            Even(l, r) && (r.conn.failed || (LossPending(l.owed.decisions) ==> LossPending(r.owed.decisions)))
    ensures var r, n := RefuseDecision(l, sendAccepted), |l.owed.decisions| - 1;
            r.owed == l.owed.(decisions := r.owed.decisions) && SameCalls(l.owed.decisions[..n], r.owed.decisions)
  {
    var p, r := PopDecision(l), RefuseDecision(l, sendAccepted);
    var ds := l.owed.decisions;
    PopEven(l);
    if !sendAccepted && ds[|ds| - 1].loss {
      CancelLossEven(p);
      EvenChain(l, p, r);
    } else if !sendAccepted {
      assert ds == ds[..|ds| - 1] + [ds[|ds| - 1]];
    }
  }

  lemma RefuseKeeps(c: Conn, t: Track, sendAccepted: bool)
    requires c.session && t.live && TrackOk(c, t) && t.owed.decisions != []
    ensures var o := With(RefuseDecision(Ledger(c, t.owed), sendAccepted), t);
            TrackOk(o.conn, o.track) && Balanced(c, t, o)
  {
    var o := With(RefuseDecision(Ledger(c, t.owed), sendAccepted), t);
    RefuseEven(Ledger(c, t.owed), sendAccepted);
    if !o.conn.failed {
      forall k | 0 <= k < |t.outs| ensures OutOk(o.track, t.outs[k]) {
        assert OutOk(t, t.outs[k]);
      }
    }
    MoveKeeps(c, t, o);
  }

  lemma LeaveKeeps(c: Conn, t: Track, ok: bool, sendAccepted: bool)
    requires Enabled(c, t, LeaveShutdown(ok, sendAccepted)) && TrackOk(c, t)
    ensures var o := StreamStep(c, t, LeaveShutdown(ok, sendAccepted));
            TrackOk(o.conn, o.track) && Balanced(c, t, o)
  {
    var l := Ledger(c, t.owed);
    if ok {
      AcceptKeeps(c, t);
      ThenSettle(c, t, AcceptDecision(l), t.(outs := Supersede(t.outs), owed := AcceptDecision(l).owed));
    } else {
      RefuseKeeps(c, t, sendAccepted);
      ThenSettle(c, t, RefuseDecision(l, sendAccepted), t.(owed := RefuseDecision(l, sendAccepted).owed));
    }
  }

  lemma LeavePlainKeeps(c: Conn, t: Track, sendAccepted: bool)
    requires Enabled(c, t, LeaveOtherShutdown(sendAccepted)) && TrackOk(c, t)
    ensures var o := StreamStep(c, t, LeaveOtherShutdown(sendAccepted));
            TrackOk(o.conn, o.track) && Balanced(c, t, o)
  {
    if sendAccepted {
      DiscardKeeps(c, t, t.native);
      var l := Discard(Ledger(c, t.owed));
      ThenSettle(c, t, l, t.(owed := l.owed));
    } else {
      SettleKeeps(c, t);
    }
  }

  lemma EndOutputEven(l: Ledger, graceful: bool)
    ensures var r := EndOutput(l, graceful);
            Even(l, r) && SameCalls(l.owed.decisions, r.owed.decisions) &&
            r.owed == l.owed.(fin := false, decisions := r.owed.decisions) &&
            (!graceful && l.owed.fin ==> r.conn.failed || LossPending(r.owed.decisions))
  {
    if graceful {
      DropFinEven(l);
    } else if l.owed.required != 0 || l.owed.fin {
      CancelLossEven(l);
      DropFinEven(CancelLoss(l));
      EvenChain(l, CancelLoss(l), DropFin(CancelLoss(l)));
    }
  }

  /** The send shutdown up to its final settlement. */
  function Evidence(e: Ledger): Ledger {
    e.(owed := e.owed.(decisions := MarkComplete(e.owed.decisions),
                       abortComplete := e.owed.abortComplete || e.owed.settling))
  }

  lemma EvidenceEven(e: Ledger)
    ensures Even(e, Evidence(e))
    ensures LossPending(e.owed.decisions) ==> LossPending(Evidence(e).owed.decisions)
  {
    var ds := e.owed.decisions;
    if i :| 0 <= i < |ds| && ds[i].loss {
      assert MarkComplete(ds)[i].loss;
    }
  }

  lemma EvidenceKeeps(c: Conn, t: Track, graceful: bool, native: Native)
    requires c.session && t.live && TrackOk(c, t)
    requires native.link == t.native.link && native.handle == t.native.handle
    requires native.shutdownComplete == t.native.shutdownComplete
    ensures var m := Evidence(EndOutput(Ledger(c, t.owed), graceful));
            var q := t.(owed := m.owed, outs := if graceful then AckFins(t.outs) else t.outs,
                        shutdownSeen := true, native := native);
            TrackOk(m.conn, q) && Balanced(c, t, Outcome(m.conn, q))
  {
    hide EndOutput, CancelLoss, DropFin, Fail, CountsOk, RecsOk, LossPending;
    var l := Ledger(c, t.owed);
    var e := EndOutput(l, graceful);
    var m := Evidence(e);
    var q := t.(owed := m.owed, outs := if graceful then AckFins(t.outs) else t.outs,
                shutdownSeen := true, native := native);
    EndOutputEven(l, graceful);
    EvidenceEven(e);
    EvenChain(l, e, m);
    LossStays(t.owed.decisions, e.owed.decisions);
    if !m.conn.failed {
      forall k | 0 <= k < |t.outs| ensures OutOk(q, q.outs[k]) {
        assert OutOk(t, t.outs[k]);
      }
    }
    MoveKeeps(c, t, Outcome(m.conn, q));
  }

  lemma SendShutdownKeeps(c: Conn, t: Track, graceful: bool)
    requires Enabled(c, t, SendDirectionOver(graceful)) && TrackOk(c, t)
    ensures var o := StreamStep(c, t, SendDirectionOver(graceful));
            TrackOk(o.conn, o.track) && Balanced(c, t, o)
  {
    var o := StreamStep(c, t, SendDirectionOver(graceful));
    var m := Evidence(EndOutput(Ledger(c, t.owed), graceful));
    EvidenceKeeps(c, t, graceful, o.track.native);
    if m.owed.settling {
      ThenSettle(c, t, m, o.track.(owed := m.owed));
    }
  }

  lemma ChargeFacts(l: Ledger, h: Header, canceled: bool)
    ensures var r := Charge(l, h, canceled);
            Even(l, r) && SameCalls(l.owed.decisions, r.owed.decisions) &&
            (canceled && (h.bytes || h.fin) ==> r.owed.canceled)
    ensures var r := Charge(l, h, canceled);
            r.owed == l.owed.(canceled := r.owed.canceled, fin := r.owed.fin, decisions := r.owed.decisions)
    ensures var r := Charge(l, h, canceled);
            (l.owed.fin && !r.owed.fin) || (canceled && h.epoch == l.owed.epoch && (h.bytes || h.fin)) ==>
              r.conn.failed || LossPending(r.owed.decisions)
  {
    if canceled && (h.bytes || h.fin) {
      var m := l.(owed := l.owed.(canceled := true));
      assert Even(l, m);
      if h.epoch == l.owed.epoch {
        CancelLossEven(m);
        EvenChain(l, m, CancelLoss(m));
        if h.fin {
          DropFinEven(CancelLoss(m));
          EvenChain(l, CancelLoss(m), DropFin(CancelLoss(m)));
        }
      }
    }
  }

  lemma ReturnedCounts(t: Track, m: Owed, i: nat, canceled: bool)
    requires CountsOk(t) && i < |t.recs|
    requires m.sendRefs == t.owed.sendRefs - 1 && m.sends == t.owed.sends - One(t.recs[i].h.bytes)
    requires m.epoch == t.owed.epoch
    requires m.required == t.owed.required - One(t.recs[i].h.bytes && t.recs[i].h.epoch == t.owed.epoch)
    ensures CountsOk(Returned(t, i, canceled).(owed := m))
    ensures t.budget.inflight >= Returned(t, i, canceled).budget.inflight >= 0
  {
    CountsWithout(t.recs, i, t.owed.epoch);
  }

  lemma ReturnedRecs(t: Track, m: Owed, i: nat, canceled: bool)
    requires RecsOk(t) && i < |t.recs|
    requires m.epoch == t.owed.epoch && m.settling == t.owed.settling
    ensures RecsOk(Returned(t, i, canceled).(owed := m))
  {
    var q := Returned(t, i, canceled).(owed := m);
    forall j | 0 <= j < |q.recs|
      ensures RecOk(q, q.recs[j]) && (!m.settling ==> q.recs[j].h.epoch == m.epoch)
    {
      var from := if j < i then j else j + 1;
      assert q.recs[j] == t.recs[from];
      assert RecOk(t, t.recs[from]);
    }
  }

  lemma ReturnedInFlight(t: Track, i: nat, canceled: bool, k: nat)
    requires i < |t.recs| && k < |t.outs|
    requires !t.outs[k].fin && !t.outs[k].returned ==> InFlight(t.recs, k)
    ensures var q := Returned(t, i, canceled);
            !q.outs[k].fin && !q.outs[k].returned ==> InFlight(q.recs, k)
  {
    var q := Returned(t, i, canceled);
    if !q.outs[k].fin && !q.outs[k].returned {
      var j :| 0 <= j < |t.recs| && t.recs[j].h.bytes && t.recs[j].out == k;
      assert j != i;
      assert q.recs[if j < i then j else j - 1] == t.recs[j];
    }
  }

  lemma ReturnedOut(t: Track, l: Ledger, i: nat, canceled: bool, k: nat)
    requires i < |t.recs| && k < |t.outs| && OutOk(t, t.outs[k]) && RecOk(t, t.recs[i])
    requires l.owed.epoch == t.owed.epoch
    requires LossPending(t.owed.decisions) ==> LossPending(l.owed.decisions)
    requires t.owed.fin && !l.owed.fin ==> LossPending(l.owed.decisions)
    requires var h := t.recs[i].h;
             canceled && h.epoch == t.owed.epoch && (h.bytes || h.fin) ==> LossPending(l.owed.decisions)
    ensures OutOk(Returned(t, i, canceled).(owed := l.owed), Returned(t, i, canceled).outs[k])
  {
  }

  lemma ReturnedOuts(c: Conn, t: Track, l: Ledger, i: nat, canceled: bool)
    requires OutsOk(t, c.failed) && RecsOk(t) && i < |t.recs| && (c.failed ==> l.conn.failed)
    requires l.owed.epoch == t.owed.epoch && SameCalls(t.owed.decisions, l.owed.decisions)
    requires t.owed.canceled || (canceled && (t.recs[i].h.bytes || t.recs[i].h.fin)) ==> l.owed.canceled
    requires var h := t.recs[i].h;
             (t.owed.fin && !l.owed.fin) || (canceled && h.epoch == t.owed.epoch && (h.bytes || h.fin)) ==>
               l.conn.failed || LossPending(l.owed.decisions)
    ensures OutsOk(Returned(t, i, canceled).(owed := l.owed), l.conn.failed)
  {
    var q := Returned(t, i, canceled).(owed := l.owed);
    LossStays(t.owed.decisions, l.owed.decisions);
    assert RecOk(t, t.recs[i]);
    forall k | 0 <= k < |q.outs|
      ensures !q.outs[k].fin && !q.outs[k].returned ==> InFlight(q.recs, k)
      ensures !l.conn.failed ==> OutOk(q, q.outs[k])
    {
      ReturnedInFlight(t, i, canceled, k);
      if !l.conn.failed {
        ReturnedOut(t, l, i, canceled, k);
      }
    }
  }

  lemma ReturnKeeps(c: Conn, t: Track, i: nat, canceled: bool)
    requires Enabled(c, t, SendComplete(i, canceled)) && TrackOk(c, t)
    ensures var o := StreamStep(c, t, SendComplete(i, canceled)); TrackOk(o.conn, o.track) && Balanced(c, t, o)
  {
    hide Charge, CancelLoss, DropFin, Settle, CountsOk, RecsOk, OutsOk, LossPending, SameCalls;
    var h := t.recs[i].h;
    var l := Unref(Complete(Ledger(c, t.owed), h, canceled));
    var q := Returned(t, i, canceled).(owed := l.owed);
    ChargeFacts(Ledger(c, t.owed), h, canceled);
    ReturnedCounts(t, l.owed, i, canceled);
    ReturnedRecs(t, l.owed, i, canceled);
    ReturnedOuts(c, t, l, i, canceled);
    ThenSettle(c, t, l, q);
  }

  lemma GatherKeeps(c: Conn, t: Track, total: nat, fin: bool, accepted: bool)
    requires Enabled(c, t, GatherSend(total, fin, accepted)) && TrackOk(c, t)
    ensures var o := StreamStep(c, t, GatherSend(total, fin, accepted));
            TrackOk(o.conn, o.track) && Balanced(c, t, o)
  {
    if !c.shutdownStarted && t.native.handle && !OverBudget(t.budget, total) && accepted {
      assert t.budget.inflight + total <= U64_MAX;
      SubmitKeeps(c, t, true, total, fin);
    } else {
      assert forall k :: 0 <= k < |t.outs| ==> OutOk(t, t.outs[k]) || c.failed;
      BareKeeps(c, t, StreamStep(c, t, GatherSend(total, fin, accepted)).track);
    }
  }

  /** A step that only arms or disarms the writable edge, or moves the linkage. */
  lemma BareKeeps(c: Conn, t: Track, t': Track)
    requires c.session && TrackOk(c, t) && t.live
    requires t' == t.(budget := t'.budget, native := t'.native)
    requires t'.budget.inflight == t.budget.inflight && BudgetOk(c, t')
    requires t'.native.shutdownComplete ==> t.native.shutdownComplete
    ensures TrackOk(c, t') && Balanced(c, t, Outcome(c, t'))
  {
    assert RecsOk(t') by {
      assert forall i :: 0 <= i < |t.recs| ==> RecOk(t, t.recs[i]) ==> RecOk(t', t'.recs[i]);
    }
    assert OutsOk(t', c.failed) by {
      assert forall k :: 0 <= k < |t.outs| ==> OutOk(t, t.outs[k]) ==> OutOk(t', t'.outs[k]);
    }
  }

  lemma CollectKeeps(c: Conn, t: Track)
    requires Enabled(c, t, Collect) && TrackOk(c, t)
    ensures var o := StreamStep(c, t, Collect); TrackOk(o.conn, o.track) && Balanced(c, t, o)
  {
    var o := CollectTrack(c, t);
    assert t.recs == [];
    assert OutsOk(o.track, o.conn.failed) by {
      assert forall k :: 0 <= k < |t.outs| ==> OutOk(t, t.outs[k]) ==> OutOk(o.track, o.track.outs[k]) || o.conn.failed;
    }
  }

  lemma PeerStopKeeps(c: Conn, t: Track, engineSays: bool)
    requires Enabled(c, t, PeerStop(engineSays)) && TrackOk(c, t)
    ensures var o := StreamStep(c, t, PeerStop(engineSays)); TrackOk(o.conn, o.track) && Balanced(c, t, o)
  {
    if IsWt(t.native, engineSays) {
      WithdrawKeeps(c, t);
    } else {
      DiscardKeeps(c, t, t.native);
    }
  }

  lemma ColdSendKeeps(c: Conn, t: Track, len: nat, fin: bool, accepted: bool)
    requires Enabled(c, t, ColdSend(len, fin, accepted)) && TrackOk(c, t)
    ensures var o := StreamStep(c, t, ColdSend(len, fin, accepted)); TrackOk(o.conn, o.track) && Balanced(c, t, o)
  {
    if !(c.shutdownStarted || !t.native.handle || (len == 0 && !fin) || !accepted) {
      SubmitKeeps(c, t, false, len, fin);
    }
  }

  predicate IsBare(e: StreamEvent) {
    e.GatherReturned? || e.WritableCheck? || e.IdealSize? || e.LinkEngine? || e.DetachEngine? || e.ReportShutdown?
  }

  lemma BareStepKeeps(c: Conn, t: Track, e: StreamEvent)
    requires Enabled(c, t, e) && TrackOk(c, t) && IsBare(e)
    ensures var o := StreamStep(c, t, e); TrackOk(o.conn, o.track) && Balanced(c, t, o)
  {
    var t' := StreamStep(c, t, e).track;
    assert BudgetOk(c, t');
    BareKeeps(c, t, t');
  }

  predicate IsDiscard(e: StreamEvent) {
    e.StartFailed? || e.StreamOver?
  }

  lemma DiscardStepKeeps(c: Conn, t: Track, e: StreamEvent)
    requires Enabled(c, t, e) && TrackOk(c, t) && IsDiscard(e)
    ensures var o := StreamStep(c, t, e); TrackOk(o.conn, o.track) && Balanced(c, t, o)
  {
    DiscardKeeps(c, t, StreamStep(c, t, e).track.native);
  }

  lemma EnterStepKeeps(c: Conn, t: Track, appCancel: bool, engineSays: bool)
    requires Enabled(c, t, EnterShutdown(appCancel, engineSays)) && TrackOk(c, t)
    ensures var o := StreamStep(c, t, EnterShutdown(appCancel, engineSays));
            TrackOk(o.conn, o.track) && Balanced(c, t, o)
  {
    EnterKeeps(c, t);
  }

  lemma StepKeeps(c: Conn, t: Track, e: StreamEvent)
    requires Enabled(c, t, e) && TrackOk(c, t)
    ensures TrackOk(StreamStep(c, t, e).conn, StreamStep(c, t, e).track)
    ensures Balanced(c, t, StreamStep(c, t, e))
  {
    hide StreamStep, TrackOk, Balanced;
    match e
    case ColdSend(len, fin, accepted) => ColdSendKeeps(c, t, len, fin, accepted);
    case GatherSend(total, fin, accepted) => GatherKeeps(c, t, total, fin, accepted);
    case SendComplete(i, canceled) => ReturnKeeps(c, t, i, canceled);
    case SendDirectionOver(graceful) => SendShutdownKeeps(c, t, graceful);
    case PeerStop(engineSays) => PeerStopKeeps(c, t, engineSays);
    case EnterShutdown(appCancel, engineSays) => EnterStepKeeps(c, t, appCancel, engineSays);
    case LeaveShutdown(ok, sendAccepted) => LeaveKeeps(c, t, ok, sendAccepted);
    case LeaveOtherShutdown(sendAccepted) => LeavePlainKeeps(c, t, sendAccepted);
    case StartFailed => DiscardStepKeeps(c, t, e);
    case StreamOver(_) => DiscardStepKeeps(c, t, e);
    case Collect => CollectKeeps(c, t);
    case GatherReturned => BareStepKeeps(c, t, e);
    case WritableCheck => BareStepKeeps(c, t, e);
    case IdealSize(_) => BareStepKeeps(c, t, e);
    case LinkEngine => BareStepKeeps(c, t, e);
    case DetachEngine(_) => BareStepKeeps(c, t, e);
    case ReportShutdown => BareStepKeeps(c, t, e);
  }

  // ---------------------------------------------------------------- every run

  /** A failure elsewhere, or the loss of the session, does not disturb another stream. */
  lemma OthersKeep(c: Conn, c': Conn, t: Track)
    requires TrackOk(c, t) && (c.failed ==> c'.failed) && (c'.session ==> c.session)
    ensures TrackOk(c', t)
  {
  }

  lemma TotalMoves(w: World, g: nat, o: Outcome)
    requires g < |w.tracks| && w.conn.counts == Total(w.tracks)
    requires Moved(w.conn.counts, w.tracks[g].owed, o.conn.counts, o.track.owed)
    ensures o.conn.counts == Total(w.tracks[g := o.track])
  {
    TotalUpdate(w.tracks, g, o.track);
  }

  lemma StreamKeeps(w: World, g: nat, se: StreamEvent)
    requires WorldOk(w) && g < |w.tracks| && Enabled(w.conn, w.tracks[g], se)
    ensures var o := StreamStep(w.conn, w.tracks[g], se); WorldOk(World(o.conn, w.tracks[g := o.track]))
  {
    var o := StreamStep(w.conn, w.tracks[g], se);
    StepKeeps(w.conn, w.tracks[g], se);
    TotalMoves(w, g, o);
    OutcomeKeeps(w, g, o);
  }

  lemma OutcomeKeeps(w: World, g: nat, o: Outcome)
    requires WorldOk(w) && g < |w.tracks| && w.conn.session
    requires TrackOk(o.conn, o.track) && Balanced(w.conn, w.tracks[g], o)
    requires o.conn.counts == Total(w.tracks[g := o.track])
    ensures WorldOk(World(o.conn, w.tracks[g := o.track]))
  {
    var ts := w.tracks[g := o.track];
    forall h | 0 <= h < |ts| ensures TrackOk(o.conn, ts[h]) {
      if h != g {
        OthersKeep(w.conn, o.conn, w.tracks[h]);
      }
    }
  }

  lemma OpenKeeps(w: World, t: Track)
    requires WorldOk(w) && w.conn.session
    requires t.owed == EmptyOwed && t.recs == [] && t.outs == [] && t.live && !t.native.shutdownComplete
    requires t.budget == Budget(0, 0, false, 0)
    ensures WorldOk(w.(tracks := w.tracks + [t]))
  {
    hide TrackOk, Pending, Total, Share, Add;
    FreshKeeps(w.conn, t);
    FreshShare(w.tracks, t);
  }

  lemma FreshShare(ts: seq<Track>, t: Track)
    requires t.owed == EmptyOwed
    ensures Total(ts + [t]) == Total(ts)
  {
    hide Total;
    TotalGrows(ts, t);
  }

  lemma TotalGrows(ts: seq<Track>, t: Track)
    ensures Total(ts + [t]) == Add(Total(ts), Share(t))
  {
    hide Add, Share;
    assert (ts + [t])[..|ts|] == ts;
  }

  lemma FreshKeeps(c: Conn, t: Track)
    requires t.owed == EmptyOwed && t.recs == [] && t.outs == [] && t.live && !t.native.shutdownComplete
    requires t.budget == Budget(0, 0, false, 0)
    ensures TrackOk(c, t)
  {
  }

  lemma ConnKeeps(w: World, ce: ConnEvent)
    requires WorldOk(w) && ConnEnabled(w.conn, ce)
    ensures WorldOk(w.(conn := ConnStep(w.conn, ce)))
  {
    forall h | 0 <= h < |w.tracks| ensures TrackOk(ConnStep(w.conn, ce), w.tracks[h]) {
      OthersKeep(w.conn, ConnStep(w.conn, ce), w.tracks[h]);
    }
  }

  lemma WorldKeeps(w: World, e: Event)
    requires WorldOk(w) && WorldEnabled(w, e)
    ensures WorldOk(Step(w, e))
  {
    match e
    case Opened(isLocal, isBidi, critical, pooled, link) =>
      OpenKeeps(w, NewTrack(isLocal, isBidi, critical, pooled, link));
    case OnStream(g, se) => StreamKeeps(w, g, se);
    case OnConn(ce) => ConnKeeps(w, ce);
  }

  lemma {:induction false} RunKeeps(es: seq<Event>, ws: seq<World>, n: nat)
    requires Run(es, ws) && n <= |es|
    ensures WorldOk(ws[n])
  {
    if n > 0 {
      RunKeeps(es, ws, n - 1);
      WorldKeeps(ws[n - 1], es[n - 1]);
    }
  }

  /** What the stream still owes: a byte record, a FIN, a settlement or an open shutdown call. */
  predicate Owes(t: Track) {
    (exists i :: 0 <= i < |t.recs| && t.recs[i].h.bytes) || t.owed.fin || t.owed.settling || t.owed.decisions != []
  }

  lemma {:induction false} NoByteRecords(rs: seq<Rec>)
    requires forall i :: 0 <= i < |rs| ==> !rs[i].h.bytes
    ensures ByteCount(rs) == 0
  {
    if rs != [] {
      NoByteRecords(rs[..|rs| - 1]);
    }
  }

  lemma ShareOfOwing(t: Track)
    requires CountsOk(t)
    ensures Share(t).sends >= 0
    ensures Owes(t) <==> Share(t).sends + Share(t).fins + Share(t).settlements + Share(t).decisions > 0
  {
    if i :| 0 <= i < |t.recs| && t.recs[i].h.bytes {
      ByteRecordsCount(t.recs, i);
    } else {
      NoByteRecords(t.recs);
    }
  }

  lemma {:induction false} TotalPositive(ts: seq<Track>)
    requires forall g :: 0 <= g < |ts| ==> CountsOk(ts[g])
    ensures var c := Total(ts); c.sends >= 0 && c.fins >= 0 && c.settlements >= 0 && c.decisions >= 0
    ensures var c := Total(ts);
            c.sends + c.fins + c.settlements + c.decisions > 0 <==> exists g :: 0 <= g < |ts| && Owes(ts[g])
  {
    if ts != [] {
      var n := |ts| - 1;
      var init := ts[..n];
      TotalPositive(init);
      ShareOfOwing(ts[n]);
      if g :| 0 <= g < |ts| && Owes(ts[g]) {
        assert g < n ==> init[g] == ts[g];
      }
      if g :| 0 <= g < |init| && Owes(init[g]) {
        assert ts[g] == init[g];
      }
    }
  }

  /** What the application may conclude about one accepted output. */
  predicate Delivered(t: Track, o: Output) {
    o.acked || (o.superseded && t.shutdownSeen && (!o.fin ==> o.returned))
  }

  lemma IdleIsDelivered(c: Conn, t: Track, k: nat)
    requires TrackOk(c, t) && !c.failed && !Owes(t) && k < |t.outs|
    ensures Delivered(t, t.outs[k])
  {
    assert OutOk(t, t.outs[k]);
  }

  /** Pending is exact: the four totals are zero precisely when no stream owes anything. */
  lemma PendingIsExact(w: World)
    requires WorldOk(w)
    ensures Pending(w.conn) <==> exists g :: 0 <= g < |w.tracks| && Owes(w.tracks[g])
  {
    TotalPositive(w.tracks);
  }

  // ---------------------------------------------------------------- main results

  /**
   Flush soundness: whenever the probe answers OK, every reliable submission and FIN ever
   accepted was acknowledged, or was superseded by an accepted application cancellation or a
   peer's stop of a WebTransport stream, and then its buffer is back and the abort was confirmed.
   */
  lemma FlushSound(es: seq<Event>, ws: seq<World>, n: nat, g: nat, k: nat)
    requires Run(es, ws) && n <= |es| && Probe(ws[n].conn) == Answer.Ok
    requires g < |ws[n].tracks| && k < |ws[n].tracks[g].outs|
    ensures Delivered(ws[n].tracks[g], ws[n].tracks[g].outs[k])
  {
    RunKeeps(es, ws, n);
    PendingIsExact(ws[n]);
    IdleIsDelivered(ws[n].conn, ws[n].tracks[g], k);
  }

  /** The same holds on a terminal handle that reports no loss after the connection is over. */
  lemma TerminalSound(es: seq<Event>, ws: seq<World>, n: nat, g: nat, k: nat)
    requires Run(es, ws) && n <= |es| && !ws[n].conn.session && !ws[n].conn.sessionFailed
    requires g < |ws[n].tracks| && k < |ws[n].tracks[g].outs|
    ensures Delivered(ws[n].tracks[g], ws[n].tracks[g].outs[k])
  {
    RunKeeps(es, ws, n);
    PendingIsExact(ws[n]);
    IdleIsDelivered(ws[n].conn, ws[n].tracks[g], k);
  }

  /** The probe is exact: short of loss and shutdown it blocks if and only if some stream owes. */
  lemma ProbeExact(es: seq<Event>, ws: seq<World>, n: nat)
    requires Run(es, ws) && n <= |es| && !ws[n].conn.failed && !ws[n].conn.shutdownStarted
    ensures Probe(ws[n].conn) == WouldBlock <==>
            exists g :: 0 <= g < |ws[n].tracks| && Owes(ws[n].tracks[g])
  {
    RunKeeps(es, ws, n);
    PendingIsExact(ws[n]);
  }

  /**
   No cancelled output escapes: at every moment it is superseded, or the sticky loss bit is set,
   or a shutdown call still on the stack carries the loss and has yet to be answered.
   */
  lemma NoCancelledOutputEscapes(es: seq<Event>, ws: seq<World>, n: nat, g: nat, k: nat)
    requires Run(es, ws) && n <= |es| && g < |ws[n].tracks| && k < |ws[n].tracks[g].outs|
    ensures var t := ws[n].tracks[g];
            t.outs[k].canceled ==>
              t.outs[k].superseded || ws[n].conn.failed || LossPending(t.owed.decisions)
  {
    RunKeeps(es, ws, n);
    var t := ws[n].tracks[g];
    assert ws[n].conn.failed || OutOk(t, t.outs[k]);
  }

  /** Ledger conservation, with a retired stream owing nothing at all. */
  lemma LedgerConserved(es: seq<Event>, ws: seq<World>, n: nat)
    requires Run(es, ws) && n <= |es|
    ensures ws[n].conn.counts == Total(ws[n].tracks)
    ensures forall g :: 0 <= g < |ws[n].tracks| ==>
      var t := ws[n].tracks[g];
      CountsOk(t) && (!t.live ==> Share(t) == Counts(0, 0, 0, 0, 0))
  {
    RunKeeps(es, ws, n);
  }

  /** Once set, the loss bit stays. */
  lemma {:induction false} LossIsSticky(es: seq<Event>, ws: seq<World>, m: nat, n: nat)
    requires Run(es, ws) && m <= n <= |es|
    ensures ws[m].conn.failed ==> ws[n].conn.failed
  {
    hide StreamStep, TrackOk, Total;
    if m < n {
      LossIsSticky(es, ws, m, n - 1);
      var e, w := es[n - 1], ws[n - 1];
      assert WorldEnabled(w, e) && ws[n] == Step(w, e);
      RunKeeps(es, ws, n - 1);
      if e.OnStream? {
        StepKeeps(w.conn, w.tracks[e.g], e.e);
      }
    }
  }

  /** The events that may supersede the output of a stream. */
  predicate Authorizes(t: Track, e: StreamEvent) {
    (e.LeaveShutdown? && e.ok) || (e.PeerStop? && IsWt(t.native, e.engineSays))
  }

  /** The events that acknowledge output `k` of a stream. */
  predicate Acknowledges(t: Track, e: StreamEvent, k: nat) {
    k < |t.outs| &&
    ((e.SendDirectionOver? && e.graceful && t.outs[k].fin) ||
     (e.SendComplete? && !e.canceled && e.index < |t.recs| &&
      t.recs[e.index].h.bytes && t.recs[e.index].out == k))
  }

  /** A step adds fresh outputs at the end and changes fates only for the stated reasons. */
  lemma StepFates(c: Conn, t: Track, e: StreamEvent, k: nat)
    requires Enabled(c, t, e) && k < |StreamStep(c, t, e).track.outs|
    ensures |t.outs| <= |StreamStep(c, t, e).track.outs|
    ensures var o := StreamStep(c, t, e).track.outs[k];
            (k >= |t.outs| ==> !o.acked && !o.superseded) &&
            (k < |t.outs| && o.superseded && !t.outs[k].superseded ==> Authorizes(t, e)) &&
            (k < |t.outs| && o.acked && !t.outs[k].acked ==> Acknowledges(t, e, k))
  {
  }

  /** At some earlier step, an event of stream `g` justified the fate of its output `k`. */
  ghost predicate Justified(es: seq<Event>, ws: seq<World>, n: nat, g: nat, k: nat, ack: bool)
    requires |ws| == |es| + 1 && n <= |es|
  {
    exists m :: 0 <= m < n && Justifies(es[m], ws[m], g, k, ack)
  }

  predicate Justifies(e: Event, w: World, g: nat, k: nat, ack: bool) {
    e.OnStream? && e.g == g && g < |w.tracks| && k < |w.tracks[g].outs| &&
    if ack then Acknowledges(w.tracks[g], e.e, k) else Authorizes(w.tracks[g], e.e)
  }

  /**
   The fates are earned: a superseded output was followed by an accepted application cancel or a
   peer's stop of a WebTransport stream, an acknowledged one by the transport's acknowledgement.
   */
  lemma {:induction false} FatesAreEarned(es: seq<Event>, ws: seq<World>, n: nat, g: nat, k: nat)
    requires Run(es, ws) && n <= |es| && g < |ws[n].tracks| && k < |ws[n].tracks[g].outs|
    ensures ws[n].tracks[g].outs[k].superseded ==> Justified(es, ws, n, g, k, false)
    ensures ws[n].tracks[g].outs[k].acked ==> Justified(es, ws, n, g, k, true)
  {
    hide StreamStep, Enabled, Authorizes;
    if n > 0 {
      var e, w := es[n - 1], ws[n - 1];
      assert WorldEnabled(w, e) && ws[n] == Step(w, e);
      if e.OnStream? && e.g == g {
        StepFates(w.conn, w.tracks[g], e.e, k);
        assert Authorizes(w.tracks[g], e.e) && k < |w.tracks[g].outs| ==> Justifies(e, w, g, k, false);
        assert Acknowledges(w.tracks[g], e.e, k) ==> Justifies(e, w, g, k, true);
      }
      if g < |w.tracks| && k < |w.tracks[g].outs| {
        FatesAreEarned(es, ws, n - 1, g, k);
      }
    }
  }

  /** Output was superseded only in an earlier epoch, whatever was lost. */
  predicate Marked(t: Track) {
    t.owed.epoch > 0 || forall k :: 0 <= k < |t.outs| ==> !t.outs[k].superseded
  }

  lemma WithdrawMarks(c: Conn, t: Track, e: StreamEvent)
    requires Enabled(c, t, e) && (e.LeaveShutdown? || e.PeerStop?) && Marked(t)
    ensures Marked(StreamStep(c, t, e).track)
  {
    if e.PeerStop? {
      WithdrawEven(Ledger(c, t.owed));
    } else if e.ok {
      AcceptEven(Ledger(c, t.owed));
    } else {
      RefuseEven(Ledger(c, t.owed), e.sendAccepted);
    }
    hide Even, LossPending, Withdraw, AcceptDecision, RefuseDecision, SameCalls;
  }

  lemma ReturnMarks(c: Conn, t: Track, i: nat, canceled: bool)
    requires i < |t.recs| && Marked(t)
    ensures Marked(Return(c, t, i, canceled).track)
  {
    hide Even, LossPending, SameCalls;
    ChargeFacts(Ledger(c, t.owed), t.recs[i].h, canceled);
    hide Charge;
  }

  lemma ShutdownMarks(c: Conn, t: Track, graceful: bool)
    requires Enabled(c, t, SendDirectionOver(graceful)) && Marked(t)
    ensures Marked(StreamStep(c, t, SendDirectionOver(graceful)).track)
  {
    hide Even, LossPending, SameCalls;
    EndOutputEven(Ledger(c, t.owed), graceful);
    hide EndOutput;
  }

  lemma StepMarks(c: Conn, t: Track, e: StreamEvent)
    requires Enabled(c, t, e) && Marked(t)
    ensures Marked(StreamStep(c, t, e).track)
  {
    if e.LeaveShutdown? || e.PeerStop? {
      WithdrawMarks(c, t, e);
    } else if e.SendComplete? {
      ReturnMarks(c, t, e.index, e.canceled);
    } else if e.SendDirectionOver? {
      ShutdownMarks(c, t, e.graceful);
    }
  }

  lemma FreshIsMarked(isLocal: bool, isBidi: bool, critical: bool, pooled: bool, link: Link)
    ensures Marked(NewTrack(isLocal, isBidi, critical, pooled, link))
  {
  }

  lemma {:induction false} RunMarks(es: seq<Event>, ws: seq<World>, n: nat, g: nat)
    requires Run(es, ws) && n <= |es| && g < |ws[n].tracks|
    ensures Marked(ws[n].tracks[g])
  {
    hide StreamStep, Enabled, Marked;
    if n > 0 {
      var e, w := es[n - 1], ws[n - 1];
      assert WorldEnabled(w, e) && ws[n] == Step(w, e);
      if g < |w.tracks| {
        RunMarks(es, ws, n - 1, g);
        if e.OnStream? && e.g == g {
          StepMarks(w.conn, w.tracks[g], e.e);
        }
      } else {
        FreshIsMarked(e.isLocal, e.isBidi, e.critical, e.pooled, e.link);
      }
    }
  }

  /**
   Commitment is reported only for a stream none of whose output was cancelled or superseded,
   whatever was lost elsewhere on the connection.
   */
  lemma CommitSound(es: seq<Event>, ws: seq<World>, n: nat, g: nat, graceful: bool)
    requires Run(es, ws) && n <= |es| && g < |ws[n].tracks| && Committed(ws[n].tracks[g].owed, graceful)
    ensures forall k :: 0 <= k < |ws[n].tracks[g].outs| ==>
      !ws[n].tracks[g].outs[k].canceled && !ws[n].tracks[g].outs[k].superseded
  {
    RunKeeps(es, ws, n);
    RunMarks(es, ws, n, g);
    var t := ws[n].tracks[g];
    assert TrackOk(ws[n].conn, t);
  }

  /**
   The send budget never wraps, and an armed writable edge is never lost: a stream armed with
   live linkage has a nonempty gather in flight, once the completions under way have run their check.
   */
  lemma BudgetSafe(es: seq<Event>, ws: seq<World>, n: nat, g: nat)
    requires Run(es, ws) && n <= |es| && g < |ws[n].tracks|
    ensures var t := ws[n].tracks[g];
            0 <= t.budget.inflight <= U64_MAX &&
            (t.budget.blocked && Live(ws[n].conn, t) && t.budget.checks == 0 ==>
               exists i :: 0 <= i < |t.recs| && t.recs[i].gather && t.recs[i].len > 0)
  {
    RunKeeps(es, ws, n);
    var t := ws[n].tracks[g];
    if LoadSum(t.recs) > 0 {
      LoadedRecord(t.recs);
    }
  }

  lemma {:induction false} LoadedRecord(rs: seq<Rec>)
    requires LoadSum(rs) > 0
    ensures exists i :: 0 <= i < |rs| && rs[i].gather && rs[i].len > 0
  {
    var n := |rs| - 1;
    if Load(rs[n]) == 0 {
      LoadedRecord(rs[..n]);
      var i :| 0 <= i < n && rs[..n][i].gather && rs[..n][i].len > 0;
      assert rs[i].gather && rs[i].len > 0;
    }
  }

  // ---------------------------------------------------------------- the send window

  function Larger(a: nat, b: nat): nat {
    if a < b then b else a
  }

  /** The highest ceiling that stream `g` has had so far. */
  function Peak(ws: seq<World>, n: nat, g: nat): nat
    requires n < |ws|
  {
    var here := if g < |ws[n].tracks| then Ceiling(ws[n].tracks[g].budget) else 0;
    if n == 0 then here else Larger(here, Peak(ws, n - 1, g))
  }

  /** How many gathers with bytes are in flight. */
  function Loaded(rs: seq<Rec>): nat {
    if rs == [] then 0 else Loaded(rs[..|rs| - 1]) + One(Load(rs[|rs| - 1]) > 0)
  }

  lemma LoadedAppend(rs: seq<Rec>, r: Rec)
    ensures Loaded(rs + [r]) == Loaded(rs) + One(Load(r) > 0) && LoadSum(rs + [r]) == LoadSum(rs) + Load(r)
  {
    assert (rs + [r])[..|rs|] == rs;
  }

  lemma {:induction false} LoadedWithout(rs: seq<Rec>, i: nat)
    requires i < |rs|
    ensures Loaded(Without(rs, i)) == Loaded(rs) - One(Load(rs[i]) > 0) && LoadSum(Without(rs, i)) == LoadSum(rs) - Load(rs[i])
  {
    var n := |rs| - 1;
    if i == n {
      assert Without(rs, i) == rs[..n];
    } else {
      LoadedWithout(rs[..n], i);
      LoadedAppend(Without(rs[..n], i), rs[n]);
      assert Without(rs, i) == Without(rs[..n], i) + [rs[n]];
    }
  }

  lemma {:induction false} NothingLoaded(rs: seq<Rec>)
    ensures LoadSum(rs) == 0 <==> Loaded(rs) == 0
  {
    if rs != [] {
      NothingLoaded(rs[..|rs| - 1]);
    }
  }

  /** The bytes in flight fit under `peak`, or are those of one gather that found the stream idle. */
  predicate Fits(rs: seq<Rec>, peak: nat) {
    LoadSum(rs) <= peak || Loaded(rs) == 1
  }

  lemma StepFits(c: Conn, t: Track, e: StreamEvent, peak: nat)
    requires TrackOk(c, t) && Enabled(c, t, e) && Fits(t.recs, peak) && Ceiling(t.budget) <= peak
    ensures Fits(StreamStep(c, t, e).track.recs, peak)
  {
    hide RecsOk, OutsOk, SettleOk, LossPending, Settle, Complete, Withdraw, Discard, SendShutdown, AcceptDecision, RefuseDecision;
    match e
    case ColdSend(len, fin, _) =>
      LoadedAppend(t.recs, Rec(Header(len != 0, fin, t.owed.epoch), false, len, |t.outs|, |t.outs| + One(len != 0)));
    case GatherSend(total, fin, _) =>
      LoadedAppend(t.recs, Rec(Header(total != 0, fin, t.owed.epoch), true, total, |t.outs|, |t.outs| + One(total != 0)));
      NothingLoaded(t.recs);
    case SendComplete(i, _) =>
      LoadedWithout(t.recs, i);
      NothingLoaded(Without(t.recs, i));
    case _ =>
  }

  lemma {:induction false} RunFits(es: seq<Event>, ws: seq<World>, n: nat, g: nat)
    requires Run(es, ws) && n <= |es| && g < |ws[n].tracks|
    ensures Fits(ws[n].tracks[g].recs, Peak(ws, n, g))
  {
    hide StreamStep, Enabled, TrackOk;
    if n > 0 {
      var e, w := es[n - 1], ws[n - 1];
      assert WorldEnabled(w, e) && ws[n] == Step(w, e);
      if g < |w.tracks| {
        RunFits(es, ws, n - 1, g);
        if e.OnStream? && e.g == g {
          RunKeeps(es, ws, n - 1);
          StepFits(w.conn, w.tracks[g], e.e, Peak(ws, n - 1, g));
        }
      }
    }
  }

  predicate GathersWhileBusy(w: World, e: Event, g: nat) {
    e.OnStream? && e.g == g && e.e.GatherSend? && e.e.total > 0 && g < |w.tracks| && w.tracks[g].budget.inflight > 0
  }

  /**
   The window, over every run: the gather bytes in flight never exceed the highest ceiling the
   stream has had, except while a single gather with bytes is in flight, which an idle stream
   takes whatever its size. A busy stream accepts only what fits under the ceiling of the moment.
   */
  lemma GatherWithinCeiling(es: seq<Event>, ws: seq<World>, n: nat, g: nat)
    requires Run(es, ws) && n <= |es| && g < |ws[n].tracks|
    ensures ws[n].tracks[g].budget.inflight <= Peak(ws, n, g) || Loaded(ws[n].tracks[g].recs) == 1
    ensures n < |es| && GathersWhileBusy(ws[n], es[n], g) ==>
      ws[n + 1].tracks[g].recs == ws[n].tracks[g].recs || ws[n + 1].tracks[g].budget.inflight <= Ceiling(ws[n].tracks[g].budget)
  {
    RunKeeps(es, ws, n);
    RunFits(es, ws, n, g);
    if n < |es| {
      assert WorldEnabled(ws[n], es[n]) && ws[n + 1] == Step(ws[n], es[n]);
    }
    assert TrackOk(ws[n].conn, ws[n].tracks[g]);
  }
}
