/**
 What the flush probe's answer says about the past.

 `FlushRuns` shows that an OK answer is safe. This module shows the converse: every loss the
 backend reports, and every moment the probe blocks, has its reason in an earlier event. The
 reasons are named here by the transport's events and by what the streams hold; none of them
 mentions how the ledger computes.
 */
module FlushLoss {
  import opened FlushLedger
  import opened FlushRuns

  // ---------------------------------------------------------------- the reasons

  /** A byte record of the current epoch is still with the transport. */
  predicate BytesOwed(t: Track) {
    exists i :: 0 <= i < |t.recs| && t.recs[i].h.bytes && t.recs[i].h.epoch == t.owed.epoch
  }

  /** A native stream that carries application data: neither one of the protocol's own nor unclassified. */
  predicate AppData(n: Native, engineSays: bool) {
    !n.localCritical && (n.isLocal || n.isBidi) && (n.wtData || (n.link == Attached && engineSays))
  }

  /** The transport reports reliable output of the current epoch as lost. */
  predicate LosesOutput(t: Track, e: StreamEvent) {
    match e
    case SendComplete(i, canceled) =>
      canceled && i < |t.recs| && t.recs[i].h.epoch == t.owed.epoch && (t.recs[i].h.bytes || t.recs[i].h.fin)
    case SendDirectionOver(graceful) => !graceful && (BytesOwed(t) || t.owed.fin)
    case _ => false
  }

  /** The stream is given up. */
  predicate GivesUp(t: Track, e: StreamEvent) {
    match e
    case StartFailed => true
    case StreamOver(_) => true
    case PeerStop(engineSays) => !AppData(t.native, engineSays)
    case LeaveOtherShutdown(sendAccepted) => sendAccepted
    case _ => false
  }

  /** The stream dies while output, a FIN, a settlement or a shutdown call is open on it. */
  predicate DiesOwing(t: Track, e: StreamEvent) {
    (GivesUp(t, e) && (BytesOwed(t) || t.owed.fin || t.owed.settling || t.owed.decisions != [])) ||
    (e.Collect? && t.owed.settling)
  }

  /** The transport refuses a cancellation whose send part it has carried out. */
  predicate HalfRefused(e: StreamEvent) {
    e.LeaveShutdown? && !e.ok && e.sendAccepted
  }

  /** The application's own cancellation took effect, or the peer stopped a stream of application data. */
  predicate Cancels(t: Track, e: StreamEvent) {
    (e.LeaveShutdown? && e.ok) || (e.PeerStop? && AppData(t.native, e.engineSays))
  }

  predicate ExhaustsEpochs(t: Track, e: StreamEvent) {
    Cancels(t, e) && t.owed.epoch == U64_MAX
  }

  /** A refused cancellation hands the loss it carried to the shutdown call around it, if there is one. */
  predicate HandsLossOut(t: Track, e: StreamEvent) {
    e.LeaveShutdown? && !e.ok && !e.sendAccepted &&
    t.owed.decisions != [] && t.owed.decisions[|t.owed.decisions| - 1].loss
  }

  /** The connection ends, or is about to, while some stream owes. */
  predicate AbandonsOwing(w: World, ce: ConnEvent) {
    (exists g :: 0 <= g < |w.tracks| && Owes(w.tracks[g])) &&
    ((ce.ShutdownCall? && !w.conn.shutdownStarted) || ce.FatalInput? || ce.StartDiverged? || ce.ConnOver?)
  }

  /** Every reason for a loss, by event. */
  predicate LossCause(w: World, e: Event) {
    match e
    case Opened(_, _, _, _, _) => false
    case OnStream(g, se) =>
      g < |w.tracks| &&
      (LosesOutput(w.tracks[g], se) || DiesOwing(w.tracks[g], se) || HalfRefused(se) || ExhaustsEpochs(w.tracks[g], se))
    case OnConn(ce) => AbandonsOwing(w, ce)
  }

  /** The events that set the sticky bit: a loss that no shutdown call on the stack can take. */
  predicate LatchesStream(t: Track, e: StreamEvent) {
    (LosesOutput(t, e) && t.owed.decisions == []) || DiesOwing(t, e) || HalfRefused(e) || ExhaustsEpochs(t, e) ||
    (HandsLossOut(t, e) && |t.owed.decisions| == 1)
  }

  predicate Latches(w: World, e: Event) {
    match e
    case Opened(_, _, _, _, _) => false
    case OnStream(g, se) => g < |w.tracks| && LatchesStream(w.tracks[g], se)
    case OnConn(ce) => AbandonsOwing(w, ce)
  }

  // ---------------------------------------------------------------- one step of one stream

  lemma {:induction false} CurrentMeans(rs: seq<Rec>, epoch: nat)
    ensures CurrentCount(rs, epoch) > 0 <==>
            exists i :: 0 <= i < |rs| && rs[i].h.bytes && rs[i].h.epoch == epoch
  {
    if rs != [] {
      var n := |rs| - 1;
      CurrentMeans(rs[..n], epoch);
      if i :| 0 <= i < n && rs[..n][i].h.bytes && rs[..n][i].h.epoch == epoch {
        assert rs[i].h.bytes && rs[i].h.epoch == epoch;
      }
      if i :| 0 <= i < |rs| && rs[i].h.bytes && rs[i].h.epoch == epoch {
        assert i < n ==> rs[..n][i] == rs[i];
      }
    }
  }

  lemma RequiredMeans(t: Track)
    requires CountsOk(t)
    ensures t.owed.required != 0 <==> BytesOwed(t)
  {
    CurrentMeans(t.recs, t.owed.epoch);
  }

  /** What a step does to the loss: the sticky bit, and the marks of the shutdown calls on the stack. */
  predicate LossEffect(c: Conn, t: Track, e: StreamEvent, o: Outcome) {
    (o.conn.failed <==> c.failed || LatchesStream(t, e)) &&
    forall i :: 0 <= i < |o.track.owed.decisions| ==> (o.track.owed.decisions[i].loss <==> CarriesLoss(t, e, i))
  }

  /** The calls that carry a loss after a step: those that did, and at most one more. */
  predicate CarriesLoss(t: Track, e: StreamEvent, i: nat) {
    var ds := t.owed.decisions;
    i < |ds| && (ds[i].loss || (LosesOutput(t, e) && i == |ds| - 1) || (HandsLossOut(t, e) && i == |ds| - 2))
  }

  /** The loss moves to the innermost call of `ds`, and to the sticky bit if there is none. */
  predicate ChargedTo(l: Ledger, r: Ledger, lost: bool) {
    var ds, es := l.owed.decisions, r.owed.decisions;
    (r.conn.failed <==> l.conn.failed || (lost && ds == [])) && |es| == |ds| &&
    forall i :: 0 <= i < |ds| ==> (es[i].loss <==> ds[i].loss || (lost && i == |ds| - 1))
  }

  lemma CancelCharges(l: Ledger)
    ensures ChargedTo(l, CancelLoss(l), true)
  {
  }

  lemma DropFinCharges(l: Ledger, m: Ledger, lost: bool)
    requires ChargedTo(l, m, lost)
    ensures ChargedTo(l, DropFin(m), lost)
  {
  }

  lemma ReturnCharges(l: Ledger, h: Header, canceled: bool)
    ensures ChargedTo(l, Unref(Complete(l, h, canceled)), canceled && h.epoch == l.owed.epoch && (h.bytes || h.fin))
  {
    hide CancelLoss, DropFin;
    var m := l.(owed := l.owed.(canceled := true));
    CancelCharges(m);
    DropFinCharges(m, CancelLoss(m), true);
  }

  lemma EndCharges(l: Ledger, graceful: bool)
    ensures ChargedTo(l, EndOutput(l, graceful), !graceful && (l.owed.required != 0 || l.owed.fin))
  {
    hide CancelLoss, DropFin;
    CancelCharges(l);
    DropFinCharges(l, l, false);
    DropFinCharges(l, CancelLoss(l), true);
  }

  lemma DiscardCharges(l: Ledger)
    ensures var o := l.owed;
            Discard(l).conn.failed <==>
              l.conn.failed || o.required != 0 || o.fin || o.settling || o.decisions != []
    ensures Discard(l).owed.decisions == l.owed.decisions
  {
  }

  lemma ReturnLoss(c: Conn, t: Track, i: nat, canceled: bool)
    requires Enabled(c, t, SendComplete(i, canceled))
    ensures LossEffect(c, t, SendComplete(i, canceled), StreamStep(c, t, SendComplete(i, canceled)))
  {
    hide Complete, Unref, Settle, Returned;
    var l := Ledger(c, t.owed);
    ReturnCharges(l, t.recs[i].h, canceled);
    SettleEven(Unref(Complete(l, t.recs[i].h, canceled)));
  }

  lemma EndLoss(c: Conn, t: Track, graceful: bool)
    requires Enabled(c, t, SendDirectionOver(graceful)) && CountsOk(t)
    ensures LossEffect(c, t, SendDirectionOver(graceful), StreamStep(c, t, SendDirectionOver(graceful)))
  {
    hide EndOutput, Settle, BytesOwed, CountsOk;
    RequiredMeans(t);
    var l := Ledger(c, t.owed);
    EndCharges(l, graceful);
    SettleEven(Evidence(EndOutput(l, graceful)));
  }

  lemma LeaveLoss(c: Conn, t: Track, ok: bool, sendAccepted: bool)
    requires Enabled(c, t, LeaveShutdown(ok, sendAccepted))
    ensures LossEffect(c, t, LeaveShutdown(ok, sendAccepted), StreamStep(c, t, LeaveShutdown(ok, sendAccepted)))
  {
    hide AcceptDecision, CancelLoss, Settle, Even;
    var l := Ledger(c, t.owed);
    SettleEven(if ok then AcceptDecision(l) else RefuseDecision(l, sendAccepted));
    if ok {
      AcceptCharges(l);
    } else {
      CancelCharges(PopDecision(l));
    }
  }

  lemma AcceptCharges(l: Ledger)
    requires l.owed.decisions != []
    ensures var r, n := AcceptDecision(l), |l.owed.decisions| - 1;
            (r.conn.failed <==> l.conn.failed || l.owed.epoch == U64_MAX) &&
            r.owed.decisions == l.owed.decisions[..n]
  {
    hide Withdraw, Even;
    var d := l.owed.decisions[|l.owed.decisions| - 1];
    var p := PopDecision(l);
    WithdrawEven(p.(owed := p.owed.(abortComplete := p.owed.abortComplete || d.shutdownComplete)));
  }

  lemma GiveUpLoss(c: Conn, t: Track, e: StreamEvent)
    requires Enabled(c, t, e) && CountsOk(t)
    requires e.StartFailed? || e.StreamOver? || e.LeaveOtherShutdown? || e.Collect?
    ensures LossEffect(c, t, e, StreamStep(c, t, e))
  {
    hide Discard, Settle, BytesOwed, CountsOk, Even;
    RequiredMeans(t);
    var l := Ledger(c, t.owed);
    DiscardCharges(l);
    SettleEven(Discard(l));
    SettleEven(l);
  }

  lemma StopLoss(c: Conn, t: Track, engineSays: bool)
    requires Enabled(c, t, PeerStop(engineSays)) && CountsOk(t)
    ensures LossEffect(c, t, PeerStop(engineSays), StreamStep(c, t, PeerStop(engineSays)))
  {
    hide Discard, Withdraw, BytesOwed, CountsOk, Even;
    RequiredMeans(t);
    DiscardCharges(Ledger(c, t.owed));
    WithdrawEven(Ledger(c, t.owed));
  }

  lemma PlainLoss(c: Conn, t: Track, e: StreamEvent)
    requires Enabled(c, t, e)
    requires e.ColdSend? || e.GatherSend? || e.EnterShutdown? || IsBare(e)
    ensures LossEffect(c, t, e, StreamStep(c, t, e))
  {
    hide Accepted;
  }

  /** Exactly which steps lose output, and where the loss goes. */
  lemma StepLoses(c: Conn, t: Track, e: StreamEvent)
    requires Enabled(c, t, e) && CountsOk(t)
    ensures LossEffect(c, t, e, StreamStep(c, t, e))
  {
    hide StreamStep, LossEffect, CountsOk;
    match e {
      case SendComplete(i, canceled) => ReturnLoss(c, t, i, canceled);
      case SendDirectionOver(graceful) => EndLoss(c, t, graceful);
      case LeaveShutdown(ok, sendAccepted) => LeaveLoss(c, t, ok, sendAccepted);
      case PeerStop(engineSays) => StopLoss(c, t, engineSays);
      case StartFailed => GiveUpLoss(c, t, e);
      case StreamOver(_) => GiveUpLoss(c, t, e);
      case LeaveOtherShutdown(_) => GiveUpLoss(c, t, e);
      case Collect => GiveUpLoss(c, t, e);
      case _ => PlainLoss(c, t, e);
    }
  }

  // ---------------------------------------------------------------- one step of the connection

  lemma WorldLoses(w: World, e: Event)
    requires WorldOk(w) && WorldEnabled(w, e)
    ensures Step(w, e).conn.failed <==> w.conn.failed || Latches(w, e)
  {
    hide StreamStep, Enabled, LatchesStream, Owes, Pending, Total, TrackOk;
    PendingIsExact(w);
    if e.OnStream? {
      CountsHold(w, e.g);
      StepLoses(w.conn, w.tracks[e.g], e.e);
    }
  }

  lemma CountsHold(w: World, g: nat)
    requires WorldOk(w) && g < |w.tracks|
    ensures CountsOk(w.tracks[g])
  {
    assert TrackOk(w.conn, w.tracks[g]);
  }

  // ---------------------------------------------------------------- every run

  ghost predicate LossLatched(es: seq<Event>, ws: seq<World>, n: nat)
    requires |ws| == |es| + 1 && n <= |es|
  {
    exists m :: 0 <= m < n && Latches(ws[m], es[m])
  }

  ghost predicate LossCaused(es: seq<Event>, ws: seq<World>, n: nat)
    requires |ws| == |es| + 1 && n <= |es|
  {
    exists m :: 0 <= m < n && LossCause(ws[m], es[m])
  }

  /** The sticky bit is history: it is set if and only if one of the latching events has happened. */
  lemma {:induction false} LatchedIff(es: seq<Event>, ws: seq<World>, n: nat)
    requires Run(es, ws) && n <= |es|
    ensures ws[n].conn.failed <==> LossLatched(es, ws, n)
  {
    hide Step, Latches, WorldOk;
    if n > 0 {
      LatchedIff(es, ws, n - 1);
      RunKeeps(es, ws, n - 1);
      WorldLoses(ws[n - 1], es[n - 1]);
    }
  }

  /** A loss waits in a shutdown call of stream `g`. */
  predicate LossWaits(w: World, g: nat) {
    g < |w.tracks| && LossPending(w.tracks[g].owed.decisions)
  }

  lemma StreamWaits(c: Conn, t: Track, e: StreamEvent)
    requires Enabled(c, t, e) && CountsOk(t) && LossPending(StreamStep(c, t, e).track.owed.decisions)
    ensures LossPending(t.owed.decisions) || LosesOutput(t, e)
  {
    hide StreamStep, Enabled, LatchesStream;
    StepLoses(c, t, e);
    var ds := StreamStep(c, t, e).track.owed.decisions;
    var i :| 0 <= i < |ds| && ds[i].loss;
    assert CarriesLoss(t, e, i);
  }

  lemma WorldWaits(w: World, e: Event, g: nat)
    requires WorldOk(w) && WorldEnabled(w, e) && LossWaits(Step(w, e), g)
    ensures LossWaits(w, g) || LossCause(w, e)
  {
    hide StreamStep, Enabled, LosesOutput, DiesOwing, LossPending, WorldOk;
    if e.OnStream? && e.g == g {
      CountsHold(w, g);
      StreamWaits(w.conn, w.tracks[g], e.e);
    } else if e.Opened? && g == |w.tracks| {
      NothingPending();
    }
  }

  lemma NothingPending()
    ensures !LossPending([])
  {
  }

  /** A latched loss has a cause of its own, or one that waited in a shutdown call until it was refused. */
  lemma LatchHasCause(w: World, e: Event)
    requires Latches(w, e)
    ensures LossCause(w, e) || (e.OnStream? && LossWaits(w, e.g))
  {
    if e.OnStream? && HandsLossOut(w.tracks[e.g], e.e) {
      var ds := w.tracks[e.g].owed.decisions;
      assert ds[|ds| - 1].loss;
    }
  }

  /**
   Every loss is earned: if the sticky bit is set, or a shutdown call on the stack carries a loss,
   then some earlier event was a cause of it.
   */
  lemma {:induction false} LossIsEarned(es: seq<Event>, ws: seq<World>, n: nat, g: nat)
    requires Run(es, ws) && n <= |es| && (ws[n].conn.failed || LossWaits(ws[n], g))
    ensures LossCaused(es, ws, n)
  {
    hide Step, Latches, LossCause, LossWaits, WorldOk;
    if n > 0 {
      RunKeeps(es, ws, n - 1);
      var w, e := ws[n - 1], es[n - 1];
      if !ws[n].conn.failed {
        WorldWaits(w, e, g);
        if LossWaits(w, g) {
          LossIsEarned(es, ws, n - 1, g);
        }
      } else {
        WorldLoses(w, e);
        if w.conn.failed {
          LossIsEarned(es, ws, n - 1, g);
        } else {
          LatchHasCause(w, e);
          if e.OnStream? && LossWaits(w, e.g) {
            LossIsEarned(es, ws, n - 1, e.g);
          }
        }
      }
    } else {
      InitialLoss(g);
    }
  }

  lemma InitialLoss(g: nat)
    ensures !Init().conn.failed && !LossWaits(Init(), g)
  {
  }

  /** The application has asked to close the connection once its sends are drained. */
  ghost predicate Awaited(es: seq<Event>, n: nat)
    requires n <= |es|
  {
    exists k :: 0 <= k < n && es[k] == OnConn(AwaitSends)
  }

  /** Step `m` begins the connection's shutdown. */
  ghost predicate BeginsShutdown(es: seq<Event>, m: nat)
    requires m < |es|
  {
    es[m] == OnConn(ShutdownCall) || es[m] == OnConn(StartDiverged) || (es[m] == OnConn(SendsDrained) && Awaited(es, m))
  }

  ghost predicate ShutdownBegun(es: seq<Event>, n: nat)
    requires n <= |es|
  {
    exists m :: 0 <= m < n && BeginsShutdown(es, m)
  }

  lemma ShutdownStep(w: World, e: Event)
    requires WorldEnabled(w, e)
    ensures Step(w, e).conn.shutdownWhenFlushed <==> w.conn.shutdownWhenFlushed || e == OnConn(AwaitSends)
    ensures Step(w, e).conn.shutdownStarted <==>
            w.conn.shutdownStarted || e == OnConn(ShutdownCall) || e == OnConn(StartDiverged) ||
            (e == OnConn(SendsDrained) && w.conn.shutdownWhenFlushed)
  {
    hide Enabled, Total, StreamStep, Pending;
    if e.OnStream? {
      StreamLeavesShutdown(w.conn, w.tracks[e.g], e.e);
    }
  }

  predicate SameShutdown(c: Conn, d: Conn) {
    d.shutdownStarted == c.shutdownStarted && d.shutdownWhenFlushed == c.shutdownWhenFlushed
  }

  lemma ReturnLeavesShutdown(l: Ledger, h: Header, canceled: bool, graceful: bool)
    ensures SameShutdown(l.conn, Unref(Complete(l, h, canceled)).conn)
    ensures SameShutdown(l.conn, Evidence(EndOutput(l, graceful)).conn)
  {
    hide CancelLoss, DropFin, MarkComplete;
    var m := l.(owed := l.owed.(canceled := true));
    CancelLeavesShutdown(l);
    CancelLeavesShutdown(m);
    DropFinLeavesShutdown(l);
    DropFinLeavesShutdown(CancelLoss(l));
    DropFinLeavesShutdown(CancelLoss(m));
  }

  lemma CancelLeavesShutdown(l: Ledger)
    ensures SameShutdown(l.conn, CancelLoss(l).conn)
  {
  }

  lemma SettleLeavesShutdown(l: Ledger)
    ensures SameShutdown(l.conn, Settle(l).conn)
    ensures SameShutdown(l.conn, Discard(l).conn)
    ensures SameShutdown(l.conn, EnterDecision(l).conn)
  {
  }

  lemma WithdrawLeavesShutdown(l: Ledger)
    ensures SameShutdown(l.conn, Withdraw(l).conn)
  {
    hide Settle, DropFin;
    SettleLeavesShutdown(NewEpoch(DropFin(l)));
    assert SameShutdown(l.conn, DropFin(l).conn) by {
      DropFinLeavesShutdown(l);
    }
  }

  lemma DropFinLeavesShutdown(l: Ledger)
    ensures SameShutdown(l.conn, DropFin(l).conn)
  {
  }

  lemma LeaveLeavesShutdown(l: Ledger, ok: bool, sendAccepted: bool)
    requires l.owed.decisions != []
    ensures SameShutdown(l.conn, LeaveDecision(l, ok, sendAccepted).conn)
  {
    hide Settle, Withdraw;
    var d := l.owed.decisions[|l.owed.decisions| - 1];
    var p := PopDecision(l);
    WithdrawLeavesShutdown(p.(owed := p.owed.(abortComplete := p.owed.abortComplete || d.shutdownComplete)));
    SettleLeavesShutdown(if ok then AcceptDecision(l) else RefuseDecision(l, sendAccepted));
  }

  lemma StreamLeavesShutdown(c: Conn, t: Track, e: StreamEvent)
    requires Enabled(c, t, e)
    ensures SameShutdown(c, StreamStep(c, t, e).conn)
  {
    hide Discard, Settle, EnterDecision, Withdraw, Complete, EndOutput, LeaveDecision, Unref, OverBudget, Fates, Supersede, AckFins;
    var l := Ledger(c, t.owed);
    SettleLeavesShutdown(l);
    match e {
      case SendComplete(i, canceled) =>
        ReturnLeavesShutdown(l, t.recs[i].h, canceled, false);
        SettleLeavesShutdown(Unref(Complete(l, t.recs[i].h, canceled)));
      case SendDirectionOver(graceful) =>
        ReturnLeavesShutdown(l, Header(false, false, 0), false, graceful);
        SettleLeavesShutdown(Evidence(EndOutput(l, graceful)));
      case PeerStop(_) => WithdrawLeavesShutdown(l);
      case LeaveShutdown(ok, sendAccepted) => LeaveLeavesShutdown(l, ok, sendAccepted);
      case LeaveOtherShutdown(_) => SettleLeavesShutdown(Discard(l));
      case _ =>
    }
  }

  lemma {:induction false} ShutdownIff(es: seq<Event>, ws: seq<World>, n: nat)
    requires Run(es, ws) && n <= |es|
    ensures ws[n].conn.shutdownWhenFlushed <==> Awaited(es, n)
    ensures ws[n].conn.shutdownStarted <==> ShutdownBegun(es, n)
  {
    hide Step, WorldOk;
    if n > 0 {
      ShutdownIff(es, ws, n - 1);
      ShutdownStep(ws[n - 1], es[n - 1]);
      assert BeginsShutdown(es, n - 1) ==> ShutdownBegun(es, n);
    }
  }

  ghost predicate SomeoneOwes(w: World) {
    exists g :: 0 <= g < |w.tracks| && Owes(w.tracks[g])
  }

  /**
   The probe is history. It answers Backend if and only if a latching event has happened, else
   Closed if and only if a shutdown was begun, else WouldBlock if and only if some stream owes.
   */
  lemma ProbeIsHistory(es: seq<Event>, ws: seq<World>, n: nat)
    requires Run(es, ws) && n <= |es|
    ensures var p, lost, shut := Probe(ws[n].conn), LossLatched(es, ws, n), ShutdownBegun(es, n);
            (p == Answer.Backend <==> lost) &&
            (p == Answer.Closed <==> !lost && shut) &&
            (p == Answer.WouldBlock <==> !lost && !shut && SomeoneOwes(ws[n])) &&
            (p == Answer.Ok <==> !lost && !shut && !SomeoneOwes(ws[n]))
  {
    hide LossLatched, ShutdownBegun, Pending, WorldOk, Owes;
    LatchedIff(es, ws, n);
    ShutdownIff(es, ws, n);
    RunKeeps(es, ws, n);
    PendingIsExact(ws[n]);
  }

  /** Without a cause of loss and without a shutdown, the probe is OK if and only if nobody owes. */
  lemma ProbeOkIff(es: seq<Event>, ws: seq<World>, n: nat)
    requires Run(es, ws) && n <= |es| && !LossCaused(es, ws, n) && !ShutdownBegun(es, n)
    ensures Probe(ws[n].conn) == Answer.Ok <==>
            forall g :: 0 <= g < |ws[n].tracks| ==> !Owes(ws[n].tracks[g])
  {
    hide LossCaused, ShutdownBegun;
    ProbeIsHistory(es, ws, n);
    LatchedIff(es, ws, n);
    if ws[n].conn.failed {
      LossIsEarned(es, ws, n, 0);
    }
  }

  // ---------------------------------------------------------------- what is owed is outstanding

  /** A FIN of the current epoch that nobody has acknowledged, superseded or reported lost. */
  predicate AwaitsFin(t: Track, o: Output) {
    o.fin && o.epoch == t.owed.epoch && !o.acked && !o.superseded && !o.canceled
  }

  /** What the ledger waits for really is outstanding. */
  predicate TrulyOwes(t: Track) {
    (t.owed.fin ==> exists k :: 0 <= k < |t.outs| && AwaitsFin(t, t.outs[k])) &&
    (t.owed.settling ==>
       t.owed.epoch > 0 && (!t.owed.abortComplete || t.owed.sendRefs != 0 || t.owed.decisions != []))
  }

  lemma AwaitsStays(t: Track, t': Track)
    requires TrulyOwes(t) && (t'.owed.fin ==> t.owed.fin) && t'.owed.epoch == t.owed.epoch
    requires t'.owed.fin ==> |t'.outs| >= |t.outs|
    requires t'.owed.fin ==> forall k :: 0 <= k < |t.outs| ==> AwaitsFin(t, t.outs[k]) ==> AwaitsFin(t', t'.outs[k])
    requires t'.owed.settling ==> t.owed.settling
    requires t'.owed.settling ==> !t'.owed.abortComplete || t'.owed.sendRefs != 0 || t'.owed.decisions != []
    ensures TrulyOwes(t')
  {
    if t'.owed.fin {
      var k :| 0 <= k < |t.outs| && AwaitsFin(t, t.outs[k]);
      assert AwaitsFin(t', t'.outs[k]);
    }
  }

  lemma SubmitOwes(c: Conn, t: Track, gather: bool, len: nat, fin: bool)
    requires TrulyOwes(t) && CountsOk(t)
    ensures TrulyOwes(Submit(c, t, gather, len, fin).track)
  {
    hide CountsOk;
    assert t.owed.sendRefs >= 0 by {
      hide *;
      RefsCount(t);
    }
    var t' := Submit(c, t, gather, len, fin).track;
    if fin {
      assert AwaitsFin(t', t'.outs[|t.outs| + One(len != 0)]);
    } else if t.owed.fin {
      var k :| 0 <= k < |t.outs| && AwaitsFin(t, t.outs[k]);
      assert AwaitsFin(t', t'.outs[k]);
    }
  }

  lemma RefsCount(t: Track)
    requires CountsOk(t)
    ensures t.owed.sendRefs == |t.recs|
  {
  }

  lemma ReturnOwes(c: Conn, t: Track, i: nat, canceled: bool)
    requires Enabled(c, t, SendComplete(i, canceled)) && TrulyOwes(t) && RecOk(t, t.recs[i])
    ensures TrulyOwes(StreamStep(c, t, SendComplete(i, canceled)).track)
  {
    hide CancelLoss, LossPending, Even, SameCalls;
    var l := Ledger(c, t.owed);
    var h := t.recs[i].h;
    ChargeFacts(l, h, canceled);
    ChargeDropsFin(l, h);
    hide Charge;
    SettleEven(Unref(Complete(l, h, canceled)));
    AwaitsStays(t, StreamStep(c, t, SendComplete(i, canceled)).track);
  }

  lemma ChargeDropsFin(l: Ledger, h: Header)
    ensures h.fin && h.epoch == l.owed.epoch ==> !Charge(l, h, true).owed.fin
  {
  }

  lemma EndOwes(c: Conn, t: Track, graceful: bool)
    requires Enabled(c, t, SendDirectionOver(graceful)) && TrulyOwes(t)
    ensures TrulyOwes(StreamStep(c, t, SendDirectionOver(graceful)).track)
  {
    hide EndOutput, Even, SameCalls, LossPending;
    var l := Ledger(c, t.owed);
    EndOutputEven(l, graceful);
    SettleEven(Evidence(EndOutput(l, graceful)));
    AwaitsStays(t, StreamStep(c, t, SendDirectionOver(graceful)).track);
  }

  lemma StopOwes(c: Conn, t: Track, engineSays: bool)
    requires Enabled(c, t, PeerStop(engineSays)) && TrulyOwes(t)
    requires !StreamStep(c, t, PeerStop(engineSays)).conn.failed
    ensures TrulyOwes(StreamStep(c, t, PeerStop(engineSays)).track)
  {
    hide Settle, Discard, Even;
    var l := Ledger(c, t.owed);
    WithdrawEven(l);
    SettleEnds(NewEpoch(DropFin(l)));
    DiscardEven(l);
  }

  lemma LeaveOwes(c: Conn, t: Track, ok: bool, sendAccepted: bool)
    requires Enabled(c, t, LeaveShutdown(ok, sendAccepted)) && TrulyOwes(t)
    requires !StreamStep(c, t, LeaveShutdown(ok, sendAccepted)).conn.failed
    ensures TrulyOwes(StreamStep(c, t, LeaveShutdown(ok, sendAccepted)).track)
  {
    hide AcceptDecision, RefuseDecision, Settle, Even, SameCalls, LossPending;
    var l := Ledger(c, t.owed);
    var t' := StreamStep(c, t, LeaveShutdown(ok, sendAccepted)).track;
    SettleEven(if ok then AcceptDecision(l) else RefuseDecision(l, sendAccepted));
    if ok {
      AcceptEven(l);
      SettleEnds(AcceptDecision(l));
    } else {
      RefuseEven(l, sendAccepted);
      SettleEnds(RefuseDecision(l, sendAccepted));
      AwaitsStays(t, t');
    }
  }

  lemma SettleEnds(l: Ledger)
    ensures var o := Settle(l).owed;
            o.settling ==> !o.abortComplete || o.sendRefs != 0 || o.decisions != []
  {
  }

  lemma OtherOwes(c: Conn, t: Track, e: StreamEvent)
    requires Enabled(c, t, e) && TrulyOwes(t) && !StreamStep(c, t, e).conn.failed
    requires e.EnterShutdown? || e.LeaveOtherShutdown? || e.StartFailed? || e.StreamOver? || e.Collect? || IsBare(e)
    ensures TrulyOwes(StreamStep(c, t, e).track)
  {
    hide Discard, Settle, Even;
    var l := Ledger(c, t.owed);
    DiscardEven(l);
    SettleEven(l);
    SettleEnds(l);
    SettleEven(Discard(l));
    AwaitsStays(t, StreamStep(c, t, e).track);
  }

  lemma StepOwes(c: Conn, t: Track, e: StreamEvent)
    requires Enabled(c, t, e) && TrulyOwes(t) && TrackOk(c, t) && !StreamStep(c, t, e).conn.failed
    ensures TrulyOwes(StreamStep(c, t, e).track)
  {
    hide TrulyOwes, CountsOk, OutsOk, SettleOk, BudgetOk, RecOk;
    match e {
      case ColdSend(len, fin, _) => SubmitOwes(c, t, false, len, fin);
      case GatherSend(total, fin, _) =>
        SubmitOwes(c, t, true, total, fin);
        BlockedOwes(t);
      case SendComplete(i, canceled) => ReturnOwes(c, t, i, canceled);
      case SendDirectionOver(graceful) => EndOwes(c, t, graceful);
      case PeerStop(engineSays) => StopOwes(c, t, engineSays);
      case LeaveShutdown(ok, sendAccepted) => LeaveOwes(c, t, ok, sendAccepted);
      case _ => OtherOwes(c, t, e);
    }
  }

  lemma BlockedOwes(t: Track)
    requires TrulyOwes(t)
    ensures TrulyOwes(t.(budget := t.budget.(blocked := true)))
  {
    AwaitsStays(t, t.(budget := t.budget.(blocked := true)));
  }

  lemma {:induction false} RunOwes(es: seq<Event>, ws: seq<World>, n: nat, g: nat)
    requires Run(es, ws) && n <= |es| && g < |ws[n].tracks| && !ws[n].conn.failed
    ensures TrulyOwes(ws[n].tracks[g])
  {
    hide StreamStep, Enabled, TrulyOwes, Owes, Pending;
    if n > 0 {
      var e, w := es[n - 1], ws[n - 1];
      assert WorldEnabled(w, e) && ws[n] == Step(w, e);
      LossIsSticky(es, ws, n - 1, n);
      if g < |w.tracks| {
        RunOwes(es, ws, n - 1, g);
        if e.OnStream? && e.g == g {
          RunKeeps(es, ws, n - 1);
          StepOwes(w.conn, w.tracks[g], e.e);
        }
      } else {
        FreshOwes(e.isLocal, e.isBidi, e.critical, e.pooled, e.link);
      }
    }
  }

  lemma FreshOwes(isLocal: bool, isBidi: bool, critical: bool, pooled: bool, link: Link)
    ensures TrulyOwes(NewTrack(isLocal, isBidi, critical, pooled, link))
  {
  }

  /**
   What blocks the probe is real, and what is real blocks it. As long as nothing is lost, a stream
   owes if and only if a byte record is with the transport, an accepted FIN is neither acknowledged
   nor superseded, a shutdown call is open, or output it superseded has not settled; and unsettled
   means that the abort is unconfirmed, that a record is still out, or that a shutdown call is open.
   */
  lemma OwesIsOutstanding(es: seq<Event>, ws: seq<World>, n: nat, g: nat)
    requires Run(es, ws) && n <= |es| && g < |ws[n].tracks| && !LossCaused(es, ws, n)
    ensures var t := ws[n].tracks[g];
            Owes(t) <==>
              (exists i :: 0 <= i < |t.recs| && t.recs[i].h.bytes) ||
              (exists k :: 0 <= k < |t.outs| && t.outs[k].fin && !t.outs[k].acked && !t.outs[k].superseded) ||
              t.owed.decisions != [] || t.owed.settling
    ensures var t := ws[n].tracks[g];
            t.owed.settling ==>
              t.owed.epoch > 0 && (!t.owed.abortComplete || t.recs != [] || t.owed.decisions != [])
    ensures var t := ws[n].tracks[g];
            t.owed.epoch > 0 && !t.owed.abortComplete ==> t.owed.settling
    ensures var t := ws[n].tracks[g];
            (exists i :: 0 <= i < |t.recs| && t.recs[i].h.epoch != t.owed.epoch) ==> t.owed.settling
  {
    hide LossCaused, LossPending, InFlight;
    var t := ws[n].tracks[g];
    RunKeeps(es, ws, n);
    if ws[n].conn.failed || LossWaits(ws[n], g) {
      LossIsEarned(es, ws, n, g);
    }
    RunOwes(es, ws, n, g);
    assert TrackOk(ws[n].conn, t);
    if t.owed.fin {
      var k :| 0 <= k < |t.outs| && AwaitsFin(t, t.outs[k]);
      assert t.outs[k].fin && !t.outs[k].acked && !t.outs[k].superseded;
    }
    if k :| 0 <= k < |t.outs| && t.outs[k].fin && !t.outs[k].acked && !t.outs[k].superseded {
      assert OutOk(t, t.outs[k]);
    }
  }

  // ---------------------------------------------------------------- settlement and fates, step by step

  /** The abort is confirmed by an end of the send direction that an open settlement or shutdown call saw. */
  predicate EvidenceEffect(t: Track, e: StreamEvent, o: Owed) {
    var ds := t.owed.decisions;
    (o.abortComplete <==>
       t.owed.abortComplete || (e.SendDirectionOver? && t.owed.settling) ||
       (e.LeaveShutdown? && e.ok && ds != [] && ds[|ds| - 1].shutdownComplete)) &&
    (forall i :: 0 <= i < |o.decisions| ==>
       (o.decisions[i].shutdownComplete <==> i < |ds| && (ds[i].shutdownComplete || e.SendDirectionOver?)))
  }

  /** A shutdown call is opened for the application's own cancellation of application data only. */
  predicate OpensCall(c: Conn, t: Track, e: StreamEvent) {
    e.EnterShutdown? && e.appCancel && AppData(t.native, e.engineSays) && !c.shutdownStarted && t.native.handle
  }

  predicate CallsEffect(c: Conn, t: Track, e: StreamEvent, o: Owed) {
    |o.decisions| == |t.owed.decisions| + (if OpensCall(c, t, e) then 1 else if e.LeaveShutdown? then -1 else 0)
  }

  predicate StepEvidence(c: Conn, t: Track, e: StreamEvent, o: Owed) {
    EvidenceEffect(t, e, o) && CallsEffect(c, t, e, o)
  }

  lemma DiscardLeaves(l: Ledger)
    ensures Discard(l).owed == l.owed.(fin := Discard(l).owed.fin)
  {
  }

  lemma SubmitConfirms(c: Conn, t: Track, e: StreamEvent)
    requires Enabled(c, t, e) && (e.ColdSend? || e.GatherSend?)
    ensures StepEvidence(c, t, e, StreamStep(c, t, e).track.owed)
  {
    hide Accepted, OverBudget;
  }

  lemma GiveUpConfirms(c: Conn, t: Track, e: StreamEvent)
    requires Enabled(c, t, e) && (e.LeaveOtherShutdown? || e.StartFailed? || e.StreamOver? || e.Collect?)
    ensures StepEvidence(c, t, e, StreamStep(c, t, e).track.owed)
  {
    hide Settle, Discard, Even;
    var l := Ledger(c, t.owed);
    SettleEven(l);
    DiscardLeaves(l);
    SettleEven(Discard(l));
  }

  lemma PlainConfirms(c: Conn, t: Track, e: StreamEvent)
    requires Enabled(c, t, e) && (e.EnterShutdown? || IsBare(e))
    ensures StepEvidence(c, t, e, StreamStep(c, t, e).track.owed)
  {
  }

  lemma StopConfirms(c: Conn, t: Track, engineSays: bool)
    requires Enabled(c, t, PeerStop(engineSays))
    ensures StepEvidence(c, t, PeerStop(engineSays), StreamStep(c, t, PeerStop(engineSays)).track.owed)
  {
    hide Withdraw, Discard, Even;
    DiscardLeaves(Ledger(c, t.owed));
    WithdrawEven(Ledger(c, t.owed));
  }

  lemma ReturnConfirms(c: Conn, t: Track, i: nat, canceled: bool)
    requires Enabled(c, t, SendComplete(i, canceled))
    ensures StepEvidence(c, t, SendComplete(i, canceled), StreamStep(c, t, SendComplete(i, canceled)).track.owed)
  {
    hide Settle, Even, LossPending, Fates;
    var l := Ledger(c, t.owed);
    var h := t.recs[i].h;
    ChargeFacts(l, h, canceled);
    hide Charge;
    SettleEven(Unref(Complete(l, h, canceled)));
  }

  lemma EndConfirms(c: Conn, t: Track, graceful: bool)
    requires Enabled(c, t, SendDirectionOver(graceful))
    ensures StepEvidence(c, t, SendDirectionOver(graceful), StreamStep(c, t, SendDirectionOver(graceful)).track.owed)
  {
    hide EndOutput, Settle, Even, LossPending, AckFins;
    var l := Ledger(c, t.owed);
    EndOutputEven(l, graceful);
    SettleEven(Evidence(EndOutput(l, graceful)));
  }

  lemma LeaveConfirms(c: Conn, t: Track, ok: bool, sendAccepted: bool)
    requires Enabled(c, t, LeaveShutdown(ok, sendAccepted))
    ensures StepEvidence(c, t, LeaveShutdown(ok, sendAccepted), StreamStep(c, t, LeaveShutdown(ok, sendAccepted)).track.owed)
  {
    hide AcceptDecision, RefuseDecision, Settle, Even, LossPending, Supersede;
    var l := Ledger(c, t.owed);
    SettleEven(if ok then AcceptDecision(l) else RefuseDecision(l, sendAccepted));
    if ok {
      AcceptEven(l);
    } else {
      RefuseEven(l, sendAccepted);
    }
  }

  /** Exactly which steps open and close a shutdown call, and which confirm an abort. */
  lemma StepConfirms(c: Conn, t: Track, e: StreamEvent)
    requires Enabled(c, t, e)
    ensures EvidenceEffect(t, e, StreamStep(c, t, e).track.owed)
    ensures CallsEffect(c, t, e, StreamStep(c, t, e).track.owed)
  {
    hide StreamStep, EvidenceEffect, CallsEffect, Enabled;
    match e {
      case SendComplete(i, canceled) => ReturnConfirms(c, t, i, canceled);
      case SendDirectionOver(graceful) => EndConfirms(c, t, graceful);
      case LeaveShutdown(ok, sendAccepted) => LeaveConfirms(c, t, ok, sendAccepted);
      case PeerStop(engineSays) => StopConfirms(c, t, engineSays);
      case ColdSend(_, _, _) => SubmitConfirms(c, t, e);
      case GatherSend(_, _, _) => SubmitConfirms(c, t, e);
      case LeaveOtherShutdown(_) => GiveUpConfirms(c, t, e);
      case StartFailed => GiveUpConfirms(c, t, e);
      case StreamOver(_) => GiveUpConfirms(c, t, e);
      case Collect => GiveUpConfirms(c, t, e);
      case _ => PlainConfirms(c, t, e);
    }
  }

  /** The step of stream `g` alone moves what stream `g` owes. */
  lemma StepOwed(w: World, e: Event, g: nat)
    requires WorldEnabled(w, e) && g < |w.tracks|
    ensures g < |Step(w, e).tracks|
    ensures !(e.OnStream? && e.g == g) ==> Step(w, e).tracks[g] == w.tracks[g]
    ensures e.OnStream? && e.g == g ==> Step(w, e).tracks[g] == StreamStep(w.conn, w.tracks[g], e.e).track
  {
    hide StreamStep, Enabled;
  }

  /** Evidence of an abort is never lost. */
  lemma {:induction false} EvidenceStays(es: seq<Event>, ws: seq<World>, m: nat, n: nat, g: nat)
    requires Run(es, ws) && m <= n <= |es| && g < |ws[m].tracks|
    ensures g < |ws[n].tracks| && (ws[m].tracks[g].owed.abortComplete ==> ws[n].tracks[g].owed.abortComplete)
  {
    hide Step, WorldEnabled, CallsEffect;
    if m < n {
      EvidenceStays(es, ws, m, n - 1, g);
      var w, e := ws[n - 1], es[n - 1];
      assert WorldEnabled(w, e) && ws[n] == Step(w, e);
      StepOwed(w, e, g);
      if e.OnStream? && e.g == g {
        OnStreamEnabled(w, e);
        StepConfirms(w.conn, w.tracks[g], e.e);
      }
    }
  }

  lemma OnStreamEnabled(w: World, e: Event)
    requires WorldEnabled(w, e) && e.OnStream?
    ensures e.g < |w.tracks| && Enabled(w.conn, w.tracks[e.g], e.e)
  {
  }

  /**
   An abort that is confirmed settles: once the send direction of a stream has ended while its
   superseded output was unsettled, only a record still out or an open shutdown call keeps it so.
   */
  lemma ConfirmedSettles(es: seq<Event>, ws: seq<World>, m: nat, n: nat, g: nat, graceful: bool)
    requires Run(es, ws) && m < n <= |es| && es[m] == OnStream(g, SendDirectionOver(graceful))
    requires g < |ws[m].tracks| && ws[m].tracks[g].owed.settling && !ws[n].conn.failed
    ensures g < |ws[n].tracks|
    ensures var t := ws[n].tracks[g]; t.owed.settling ==> t.recs != [] || t.owed.decisions != []
  {
    hide Step, WorldEnabled, Enabled, StreamStep, CallsEffect;
    var w, e := ws[m], es[m];
    assert WorldEnabled(w, e) && ws[m + 1] == Step(w, e);
    OnStreamEnabled(w, e);
    StepOwed(w, e, g);
    StepConfirms(w.conn, w.tracks[g], e.e);
    EvidenceStays(es, ws, m + 1, n, g);
    RunKeeps(es, ws, n);
    RunOwes(es, ws, n, g);
    CountsHold(ws[n], g);
  }

  /** The transport acknowledges output `k`: its record comes back whole, or the end that carries its FIN does. */
  predicate AcksOutput(t: Track, e: StreamEvent, k: nat) {
    k < |t.outs| &&
    match e
    case SendDirectionOver(graceful) => graceful && t.outs[k].fin
    case SendComplete(i, canceled) => !canceled && i < |t.recs| && t.recs[i].h.bytes && t.recs[i].out == k
    case _ => false
  }

  /** The transport cancels output `k`, or the FIN that output `k` stands for. */
  predicate CancelsOutput(t: Track, e: StreamEvent, k: nat) {
    e.SendComplete? && e.canceled && e.index < |t.recs| && k < |t.outs| &&
    ((t.recs[e.index].h.bytes && t.recs[e.index].out == k) || (t.recs[e.index].h.fin && t.recs[e.index].finOut == k))
  }

  /** Exactly which steps decide the fate of an output already accepted. */
  lemma StepDecides(c: Conn, t: Track, e: StreamEvent, k: nat)
    requires Enabled(c, t, e) && k < |t.outs|
    ensures k < |StreamStep(c, t, e).track.outs|
    ensures var o, p := t.outs[k], StreamStep(c, t, e).track.outs[k];
            (p.acked <==> o.acked || AcksOutput(t, e, k)) &&
            (p.superseded <==> o.superseded || Cancels(t, e)) &&
            (p.canceled <==> o.canceled || CancelsOutput(t, e, k))
  {
    hide Settle, Complete, Unref, Withdraw, Discard, SendShutdown, LeaveDecision, EnterDecision, Begin, OverBudget;
  }

  /** An idle stream takes a gather of any size, a busy one what fits under its ideal size or one mebibyte. */
  predicate HasRoom(b: Budget, total: nat) {
    total == 0 || b.inflight == 0 || b.inflight + total <= b.ideal || b.inflight + total <= 1024 * 1024
  }

  /** What a submission needs to be taken: an open connection and handle, room, and the transport's yes. */
  predicate Takes(c: Conn, t: Track, e: StreamEvent) {
    !c.shutdownStarted && t.native.handle &&
    match e
    case ColdSend(len, fin, accepted) => accepted && (len != 0 || fin)
    case GatherSend(total, _, accepted) => accepted && HasRoom(t.budget, total)
    case _ => false
  }

  /** A submission that is taken leaves its bytes with the transport and its outputs unacknowledged. */
  lemma SubmissionTaken(c: Conn, t: Track, e: StreamEvent)
    requires Enabled(c, t, e) && (e.ColdSend? || e.GatherSend?)
    ensures var u, n := StreamStep(c, t, e).track, |t.outs|;
            var len := if e.ColdSend? then e.len else e.total;
            if Takes(c, t, e)
            then |u.outs| == n + One(len != 0) + One(e.fin) &&
                 (len != 0 ==> !u.outs[n].fin && !u.outs[n].acked && u.outs[n].epoch == t.owed.epoch &&
                               |u.recs| == |t.recs| + 1 && u.recs[|t.recs|].h.bytes && u.recs[|t.recs|].out == n) &&
                 (e.fin ==> u.owed.fin && u.outs[n + One(len != 0)].fin && !u.outs[n + One(len != 0)].acked)
            else u.outs == t.outs && u.recs == t.recs && u.owed == t.owed
  {
  }

  /**
   The writable edge: armed exactly by a gather that finds no room, disarmed by a gather that the
   application sees through, and delivered by the check that follows a completion or a larger
   ideal size, to whoever still can hear it.
   */
  lemma WritableEdge(c: Conn, t: Track, e: StreamEvent)
    requires Enabled(c, t, e)
    ensures var u := StreamStep(c, t, e).track;
            (u.budget.blocked <==>
               if e.GatherSend? && !c.shutdownStarted && t.native.handle && !HasRoom(t.budget, e.total) then true
               else if e.WritableCheck? || (e.IdealSize? && e.size > t.budget.ideal)
               then t.budget.blocked && !(c.session && t.native.link == Attached && t.native.handle)
               else t.budget.blocked && !e.GatherReturned?)
    ensures var u := StreamStep(c, t, e).track;
            u.budget.checks ==
              t.budget.checks + (if e.WritableCheck? then -1 else if e.SendComplete? && t.recs[e.index].gather then 1 else 0)
  {
    hide Settle, Complete, Unref, Withdraw, Discard, SendShutdown, LeaveDecision, EnterDecision, Begin, Fates, Supersede, AckFins;
  }

  /** What an event leaves of linkage and handle, and of the report of an end that came in during a shutdown call. */
  predicate NativeStep(t: Track, e: StreamEvent, m: Native) {
    var n := t.native;
    m.isLocal == n.isLocal && m.isBidi == n.isBidi && m.localCritical == n.localCritical && m.pooled == n.pooled &&
    m.link == (if e.LinkEngine? then Attached else if e.DetachEngine? then Detached else n.link) &&
    m.wtData == (if e.DetachEngine? then e.engineSays else n.wtData) &&
    (m.shutdownComplete <==> n.shutdownComplete || e.StreamOver?) &&
    (m.handle <==> n.handle && (e.StreamOver? ==> n.pooled && !e.appClose)) &&
    (m.shutdownPending <==> (n.shutdownPending && !e.ReportShutdown?) || (e.SendDirectionOver? && t.owed.decisions != [])) &&
    m.shutdownGraceful == (if e.SendDirectionOver? && t.owed.decisions != [] then e.graceful else n.shutdownGraceful)
  }

  /** The native record, event by event. */
  lemma NativeEffect(c: Conn, t: Track, e: StreamEvent)
    requires Enabled(c, t, e)
    ensures NativeStep(t, e, StreamStep(c, t, e).track.native)
  {
    hide Settle, Complete, Unref, Withdraw, Discard, SendShutdown, LeaveDecision, EnterDecision, Begin, OverBudget, Fates, Supersede, AckFins, Accepted, LeavePlainShutdown, Fail, IsWt;
  }

  /** The ideal size is the transport's latest, a stream lives until it is collected, and an end of its send direction is remembered. */
  lemma TrackEffect(c: Conn, t: Track, e: StreamEvent)
    requires Enabled(c, t, e)
    ensures var u := StreamStep(c, t, e).track;
            u.budget.ideal == (if e.IdealSize? then e.size else t.budget.ideal) &&
            (u.live <==> t.live && !e.Collect?) && (u.shutdownSeen <==> t.shutdownSeen || e.SendDirectionOver?)
  {
    hide Settle, Complete, Unref, Withdraw, Discard, SendShutdown, LeaveDecision, EnterDecision, Begin, OverBudget, Fates, Supersede, AckFins, Accepted, LeavePlainShutdown, Fail, IsWt;
  }

  /** The session stays attached until the connection's final event, in every run. */
  lemma {:induction false} AttachedUntilOver(es: seq<Event>, ws: seq<World>, n: nat)
    requires Run(es, ws) && n <= |es|
    ensures ws[n].conn.session <==> OnConn(ConnOver) !in es[..n]
  {
    hide StreamStep, Enabled, Pending, Total;
    if n > 0 {
      AttachedUntilOver(es, ws, n - 1);
      var w, e := ws[n - 1], es[n - 1];
      assert WorldEnabled(w, e) && ws[n] == Step(w, e);
      assert es[..n] == es[..n - 1] + [e];
      if e.OnStream? {
        RunKeeps(es, ws, n - 1);
        OnStreamEnabled(w, e);
        assert TrackOk(w.conn, w.tracks[e.g]);
        StepKeeps(w.conn, w.tracks[e.g], e.e);
      }
    }
  }

  // ---------------------------------------------------------------- commitment, exactly

  /** The transport returns reliable output of the stream as cancelled, of whatever epoch. */
  predicate ReturnsCanceled(t: Track, e: StreamEvent) {
    e.SendComplete? && e.canceled && e.index < |t.recs| && (t.recs[e.index].h.bytes || t.recs[e.index].h.fin)
  }

  /** What a step does to the two facts that commitment depends on. */
  predicate CommitEffect(t: Track, e: StreamEvent, o: Owed) {
    (o.epoch > 0 <==> t.owed.epoch > 0 || Cancels(t, e)) && (o.canceled <==> t.owed.canceled || ReturnsCanceled(t, e))
  }

  lemma ReturnCommits(c: Conn, t: Track, i: nat, canceled: bool)
    requires Enabled(c, t, SendComplete(i, canceled))
    ensures CommitEffect(t, SendComplete(i, canceled), StreamStep(c, t, SendComplete(i, canceled)).track.owed)
  {
    hide Settle, Even, LossPending, Fates, SameCalls, CancelLoss, DropFin;
    var l := Ledger(c, t.owed);
    ChargeFacts(l, t.recs[i].h, canceled);
    ChargeMarks(l, t.recs[i].h, canceled);
    hide Charge;
    SettleEven(Unref(Complete(l, t.recs[i].h, canceled)));
  }

  lemma ChargeMarks(l: Ledger, h: Header, canceled: bool)
    ensures Charge(l, h, canceled).owed.canceled <==> l.owed.canceled || (canceled && (h.bytes || h.fin))
  {
  }

  lemma StopCommits(c: Conn, t: Track, engineSays: bool)
    requires Enabled(c, t, PeerStop(engineSays))
    ensures CommitEffect(t, PeerStop(engineSays), StreamStep(c, t, PeerStop(engineSays)).track.owed)
  {
    hide Withdraw, Discard, Even;
    WithdrawSame(Ledger(c, t.owed));
    WithdrawEven(Ledger(c, t.owed));
    DiscardLeaves(Ledger(c, t.owed));
  }

  lemma LeaveCommits(c: Conn, t: Track, ok: bool, sendAccepted: bool)
    requires Enabled(c, t, LeaveShutdown(ok, sendAccepted))
    ensures CommitEffect(t, LeaveShutdown(ok, sendAccepted), StreamStep(c, t, LeaveShutdown(ok, sendAccepted)).track.owed)
  {
    hide AcceptDecision, RefuseDecision, Settle, Even, LossPending, SameCalls;
    var l := Ledger(c, t.owed);
    SettleEven(if ok then AcceptDecision(l) else RefuseDecision(l, sendAccepted));
    if ok {
      AcceptEven(l);
      AcceptSame(l);
    } else {
      RefuseEven(l, sendAccepted);
    }
  }

  lemma WithdrawSame(l: Ledger)
    ensures Withdraw(l).owed.canceled == l.owed.canceled
  {
    hide DropFin, Even;
    DropFinEven(l);
    SettleEven(NewEpoch(DropFin(l)));
  }

  lemma AcceptSame(l: Ledger)
    requires l.owed.decisions != []
    ensures AcceptDecision(l).owed.canceled == l.owed.canceled
  {
    hide Withdraw;
    var p := PopDecision(l);
    var d := l.owed.decisions[|l.owed.decisions| - 1];
    WithdrawSame(p.(owed := p.owed.(abortComplete := p.owed.abortComplete || d.shutdownComplete)));
  }

  lemma EndCommits(c: Conn, t: Track, graceful: bool)
    requires Enabled(c, t, SendDirectionOver(graceful))
    ensures CommitEffect(t, SendDirectionOver(graceful), StreamStep(c, t, SendDirectionOver(graceful)).track.owed)
  {
    hide EndOutput, Settle, Even, LossPending, AckFins;
    var l := Ledger(c, t.owed);
    EndOutputEven(l, graceful);
    SettleEven(Evidence(EndOutput(l, graceful)));
  }

  lemma SubmitCommits(c: Conn, t: Track, e: StreamEvent)
    requires Enabled(c, t, e) && (e.ColdSend? || e.GatherSend?)
    ensures CommitEffect(t, e, StreamStep(c, t, e).track.owed)
  {
    hide Accepted, OverBudget;
  }

  lemma GiveUpCommits(c: Conn, t: Track, e: StreamEvent)
    requires Enabled(c, t, e) && (e.LeaveOtherShutdown? || e.StartFailed? || e.StreamOver? || e.Collect?)
    ensures CommitEffect(t, e, StreamStep(c, t, e).track.owed)
  {
    hide Settle, Discard, Even;
    var l := Ledger(c, t.owed);
    SettleEven(l);
    DiscardLeaves(l);
    SettleEven(Discard(l));
  }

  lemma PlainCommits(c: Conn, t: Track, e: StreamEvent)
    requires Enabled(c, t, e) && (e.EnterShutdown? || IsBare(e))
    ensures CommitEffect(t, e, StreamStep(c, t, e).track.owed)
  {
  }

  lemma StepCommits(c: Conn, t: Track, e: StreamEvent)
    requires Enabled(c, t, e)
    ensures CommitEffect(t, e, StreamStep(c, t, e).track.owed)
  {
    hide StreamStep, CommitEffect, Enabled;
    match e {
      case SendComplete(i, canceled) => ReturnCommits(c, t, i, canceled);
      case SendDirectionOver(graceful) => EndCommits(c, t, graceful);
      case LeaveShutdown(ok, sendAccepted) => LeaveCommits(c, t, ok, sendAccepted);
      case PeerStop(engineSays) => StopCommits(c, t, engineSays);
      case ColdSend(_, _, _) => SubmitCommits(c, t, e);
      case GatherSend(_, _, _) => SubmitCommits(c, t, e);
      case LeaveOtherShutdown(_) => GiveUpCommits(c, t, e);
      case StartFailed => GiveUpCommits(c, t, e);
      case StreamOver(_) => GiveUpCommits(c, t, e);
      case Collect => GiveUpCommits(c, t, e);
      case _ => PlainCommits(c, t, e);
    }
  }

  /** Some earlier event of stream `g` superseded its output or returned some of it as cancelled. */
  ghost predicate Spoiled(es: seq<Event>, ws: seq<World>, n: nat, g: nat)
    requires |ws| == |es| + 1 && n <= |es|
  {
    exists m :: 0 <= m < n && Spoils(ws[m], es[m], g)
  }

  predicate Spoils(w: World, e: Event, g: nat) {
    e.OnStream? && e.g == g && g < |w.tracks| && (Cancels(w.tracks[g], e.e) || ReturnsCanceled(w.tracks[g], e.e))
  }

  /**
   Commitment is exact: the end of a send direction counts as commitment if and only if it is
   graceful and nothing on the stream was ever cancelled, superseded or returned as cancelled.
   */
  lemma {:induction false} CommitIff(es: seq<Event>, ws: seq<World>, n: nat, g: nat, graceful: bool)
    requires Run(es, ws) && n <= |es| && g < |ws[n].tracks|
    ensures Committed(ws[n].tracks[g].owed, graceful) <==> graceful && !Spoiled(es, ws, n, g)
  {
    hide Step, WorldEnabled, Cancels, ReturnsCanceled;
    if n > 0 {
      var w, e := ws[n - 1], es[n - 1];
      assert WorldEnabled(w, e) && ws[n] == Step(w, e);
      if g < |w.tracks| {
        CommitIff(es, ws, n - 1, g, graceful);
        StepOwed(w, e, g);
        if e.OnStream? && e.g == g {
          OnStreamEnabled(w, e);
          StepCommits(w.conn, w.tracks[g], e.e);
        }
      } else {
        TrackBefore(w, e, g);
        forall m | 0 <= m < n ensures !Spoils(ws[m], es[m], g) {
          TracksGrow(es, ws, m, n - 1);
        }
      }
    }
  }

  lemma {:induction false} TracksGrow(es: seq<Event>, ws: seq<World>, m: nat, n: nat)
    requires Run(es, ws) && m <= n <= |es|
    ensures |ws[m].tracks| <= |ws[n].tracks|
  {
    hide StreamStep, Enabled;
    if m < n {
      TracksGrow(es, ws, m, n - 1);
      assert WorldEnabled(ws[n - 1], es[n - 1]) && ws[n] == Step(ws[n - 1], es[n - 1]);
    }
  }

  /** A stream that a step adds is new. */
  lemma TrackBefore(w: World, e: Event, g: nat)
    requires WorldEnabled(w, e) && g < |Step(w, e).tracks| && g >= |w.tracks|
    ensures g == |w.tracks| && e.Opened? && Step(w, e).tracks[g].owed == EmptyOwed
  {
    hide StreamStep, Enabled;
  }

  // ---------------------------------------------------------------- a complete run

  const Whole := Rec(Header(true, true, 0), false, 5, 0, 1)

  function One5(fin: bool, refs: int, recs: seq<Rec>, outs: seq<Output>, seen: bool): World {
    World(Conn(Counts(refs, refs, One(fin), 0, 0), false, false, false, true, false),
          [NewTrack(true, true, false, true, Attached).(
             owed := EmptyOwed.(sendRefs := refs, sends := refs, required := refs, fin := fin),
             recs := recs, outs := outs, shutdownSeen := seen)])
  }

  const Bytes := Output(false, 0, false, false, false, false)
  const Fin := Output(true, 0, false, false, false, false)
  const BytesBack := Output(false, 0, true, true, false, false)

  const WholeEvents: seq<Event> := [
    Opened(true, true, false, true, Attached),
    OnStream(0, ColdSend(5, true, true)),
    OnStream(0, SendComplete(0, false)),
    OnStream(0, SendDirectionOver(true))]

  const WholeWorlds: seq<World> := [
    Init(),
    One5(false, 0, [], [], false),
    One5(true, 1, [Whole], [Bytes, Fin], false),
    One5(true, 0, [], [BytesBack, Fin], false),
    One5(false, 0, [], [BytesBack, Fin.(acked := true)], true)]

  ghost predicate Ensues(i: nat)
    requires i < 4
  {
    WorldEnabled(WholeWorlds[i], WholeEvents[i]) && WholeWorlds[i + 1] == Step(WholeWorlds[i], WholeEvents[i])
  }

  lemma WholeOpens()
    ensures Ensues(0) && Ensues(1)
  {
    var w := WholeWorlds[1];
    var t := StreamStep(w.conn, w.tracks[0], ColdSend(5, true, true)).track;
    assert t.outs == [Bytes, Fin] && t.recs == [Whole];
    assert w.tracks[0 := t] == WholeWorlds[2].tracks;
  }

  lemma WholeReturns()
    ensures Ensues(2)
  {
    var w := WholeWorlds[2];
    var t := StreamStep(w.conn, w.tracks[0], SendComplete(0, false)).track;
    assert t.outs == [BytesBack, Fin] && t.recs == [];
    assert w.tracks[0 := t] == WholeWorlds[3].tracks;
  }

  lemma WholeEnds()
    ensures Ensues(3)
  {
    var w := WholeWorlds[3];
    var t := StreamStep(w.conn, w.tracks[0], SendDirectionOver(true)).track;
    assert t.outs == [BytesBack, Fin.(acked := true)] && t.owed.decisions == [];
    assert w.tracks[0 := t] == WholeWorlds[4].tracks;
  }

  /** Five bytes with a FIN: the probe blocks until the graceful end of the send direction, and is OK from then on. */
  lemma SentWhole()
    ensures Run(WholeEvents, WholeWorlds)
    ensures Probe(WholeWorlds[2].conn) == WouldBlock && Probe(WholeWorlds[3].conn) == WouldBlock
    ensures Probe(WholeWorlds[4].conn) == Answer.Ok && Committed(WholeWorlds[4].tracks[0].owed, true)
  {
    WholeOpens();
    WholeReturns();
    WholeEnds();
    hide Step, WorldEnabled;
    forall i | 0 <= i < 4 ensures Ensues(i) {
    }
  }
}
