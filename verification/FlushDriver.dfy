/**
 The MsQuic backend's ledger as it is written: objects whose counters are changed in place.
 Each method is proved to compute the function of the same purpose in `FlushLedger`, so what
 `FlushRuns` proves about those functions over every run is about this code.
 */
module FlushDriver {
  import opened FlushLedger
  import FlushRuns

  datatype Status = Ok | Closed | TooLarge | WouldBlock | NoMem | Backend

  /** The connection context of the backend. */
  class Driver {
    var pendingSends: int
    var flushSends: int
    var flushFins: int
    var flushSettlements: int
    var flushDecisions: int
    var flushFailed: bool
    var shutdownStarted: bool
    var shutdownWhenFlushed: bool
    var session: bool
    var sessionFailed: bool

    constructor ()
      ensures Value() == FlushRuns.Init().conn
    {
      pendingSends, flushSends, flushFins, flushSettlements, flushDecisions := 0, 0, 0, 0, 0;
      flushFailed, shutdownStarted, shutdownWhenFlushed, sessionFailed := false, false, false, false;
      session := true;
    }

    ghost function Value(): Conn
      reads this
    {
      Conn(Counts(pendingSends, flushSends, flushFins, flushSettlements, flushDecisions),
           flushFailed, shutdownStarted, shutdownWhenFlushed, session, sessionFailed)
    }

    method FlushFail()
      modifies this`flushFailed, this`sessionFailed
      ensures Value() == Fail(old(Value()))
    {
      flushFailed := true;
      if session {
        sessionFailed := true;
      }
    }

    method FlushPending() returns (r: bool)
      ensures r == Pending(Value())
    {
      r := flushSends != 0 || flushFins != 0 || flushSettlements != 0 || flushDecisions != 0;
    }

    method LocalFlushProbe() returns (r: Answer)
      ensures r == Probe(Value())
    {
      if flushFailed {
        return Answer.Backend;
      }
      if shutdownStarted {
        return Answer.Closed;
      }
      var pending := FlushPending();
      return if pending then Answer.WouldBlock else Answer.Ok;
    }

    /** Shut the connection down, at most once, recording what it abandons. */
    method ConnShutdown()
      modifies this
      ensures Value() == FlushRuns.ConnStep(old(Value()), FlushRuns.ShutdownCall)
    {
      if shutdownStarted {
        return;
      }
      var pending := FlushPending();
      if pending {
        FlushFail();
      }
      shutdownStarted := true;
    }
  }

  /** The sum of the span lengths. */
  function Sum(lens: seq<nat>): nat {
    if lens == [] then 0 else Sum(lens[..|lens| - 1]) + lens[|lens| - 1]
  }

  /** One native stream record. */
  class DStream {
    const drv: Driver
    var sendRefs: int
    var flushSends: int
    var flushFin: bool
    var flushRequiredSends: int
    var flushEpoch: nat
    var flushSettling: bool
    var flushAbortComplete: bool
    var flushOutputCanceled: bool
    var flushDecisions: seq<Decision>
    var flushShutdownPending: bool
    var flushShutdownGraceful: bool
    var handle: bool
    var inflightBytes: int
    var idealSend: nat
    var sendBlocked: bool

    constructor (d: Driver)
      ensures drv == d && Value() == FlushRuns.EmptyOwed
      ensures handle && !flushShutdownPending && !flushShutdownGraceful
      ensures BudgetValue(0) == FlushRuns.Budget(0, 0, false, 0)
    {
      drv := d;
      sendRefs, flushSends, flushRequiredSends, flushEpoch := 0, 0, 0, 0;
      flushFin, flushSettling, flushAbortComplete, flushOutputCanceled := false, false, false, false;
      flushDecisions := [];
      flushShutdownPending, flushShutdownGraceful, handle := false, false, true;
      inflightBytes, idealSend, sendBlocked := 0, 0, false;
    }

    ghost function Value(): Owed
      reads this
    {
      Owed(sendRefs, flushSends, flushFin, flushRequiredSends, flushEpoch, flushSettling,
           flushAbortComplete, flushOutputCanceled, flushDecisions)
    }

    ghost function Book(): Ledger
      reads this, drv
    {
      Ledger(drv.Value(), Value())
    }

    ghost function BudgetValue(checks: nat): FlushRuns.Budget
      reads this
    {
      FlushRuns.Budget(inflightBytes, idealSend, sendBlocked, checks)
    }

    method FlushBegin(bytes: bool, fin: bool) returns (newFin: bool)
      modifies this`flushSends, this`flushRequiredSends, this`flushFin, drv`flushSends, drv`flushFins
      ensures Book() == Begin(old(Book()), bytes, fin)
      ensures newFin == (fin && !old(flushFin))
    {
      if bytes {
        flushSends := flushSends + 1;
        drv.flushSends := drv.flushSends + 1;
        flushRequiredSends := flushRequiredSends + 1;
      }
      newFin := fin && !flushFin;
      if newFin {
        flushFin := true;
        drv.flushFins := drv.flushFins + 1;
      }
    }

    method FlushRollback(bytes: bool, newFin: bool)
      modifies this`flushSends, this`flushRequiredSends, this`flushFin, drv`flushSends, drv`flushFins
      ensures Book() == Rollback(old(Book()), bytes, newFin)
    {
      if bytes {
        flushSends := flushSends - 1;
        drv.flushSends := drv.flushSends - 1;
        flushRequiredSends := flushRequiredSends - 1;
      }
      if newFin {
        flushFin := false;
        drv.flushFins := drv.flushFins - 1;
      }
    }

    method FlushDropFin()
      modifies this`flushFin, drv`flushFins
      ensures Book() == DropFin(old(Book()))
    {
      if flushFin {
        flushFin := false;
        drv.flushFins := drv.flushFins - 1;
      }
    }

    method FlushDiscard()
      modifies this`flushFin, drv`flushFins, drv`flushFailed, drv`sessionFailed
      ensures Book() == Discard(old(Book()))
    {
      if flushRequiredSends != 0 || flushFin || flushSettling || flushDecisions != [] {
        drv.FlushFail();
      }
      FlushDropFin();
    }

    method FlushSettle()
      modifies this`flushSettling, drv`flushSettlements
      ensures Book() == Settle(old(Book()))
    {
      if flushSettling && flushAbortComplete && sendRefs == 0 && flushDecisions == [] {
        flushSettling := false;
        drv.flushSettlements := drv.flushSettlements - 1;
      }
    }

    method FlushWithdraw()
      modifies this`flushEpoch, this`flushRequiredSends, this`flushFin, this`flushSettling,
               drv`flushFins, drv`flushSettlements, drv`flushFailed, drv`sessionFailed
      ensures Book() == Withdraw(old(Book()))
    {
      hide DropFin, Settle;
      if flushEpoch == U64_MAX {
        drv.FlushFail();
        return;
      }
      FlushDropFin();
      flushEpoch := flushEpoch + 1;
      flushRequiredSends := 0;
      if !flushSettling {
        flushSettling := true;
        drv.flushSettlements := drv.flushSettlements + 1;
      }
      FlushSettle();
    }

    method FlushCancelLoss()
      modifies this`flushDecisions, drv`flushFailed, drv`sessionFailed
      ensures Book() == CancelLoss(old(Book()))
    {
      if flushDecisions != [] {
        var top := |flushDecisions| - 1;
        flushDecisions := flushDecisions[top := flushDecisions[top].(loss := true)];
      } else {
        drv.FlushFail();
      }
    }

    method FlushComplete(h: Header, canceled: bool)
      modifies this`flushOutputCanceled, this`flushDecisions, this`flushFin, this`flushSends,
               this`flushRequiredSends, drv`flushFailed, drv`sessionFailed, drv`flushFins, drv`flushSends
      ensures Book() == Complete(old(Book()), h, canceled)
    {
      if canceled && (h.bytes || h.fin) {
        flushOutputCanceled := true;
      }
      var required := h.epoch == flushEpoch;
      if canceled && required && (h.bytes || h.fin) {
        FlushCancelLoss();
        if h.fin {
          FlushDropFin();
        }
      }
      assert Book() == Charge(old(Book()), h, canceled);
      hide Charge;
      if h.bytes {
        flushSends := flushSends - 1;
        drv.flushSends := drv.flushSends - 1;
        if required {
          flushRequiredSends := flushRequiredSends - 1;
        }
      }
    }

    /** The record side of a completion: the ledger, the references and the in-flight bytes. */
    method OnSendComplete(h: Header, canceled: bool, bytes: nat)
      modifies this`flushOutputCanceled, this`flushDecisions, this`flushFin, this`flushSends,
               this`flushRequiredSends, this`flushSettling, this`sendRefs, this`inflightBytes, drv
      ensures Book() == Settle(FlushRuns.Unref(Complete(old(Book()), h, canceled)))
      ensures inflightBytes == old(inflightBytes) - bytes
    {
      FlushComplete(h, canceled);
      sendRefs := sendRefs - 1;
      FlushSettle();
      inflightBytes := inflightBytes - bytes;
      drv.pendingSends := drv.pendingSends - 1;
    }

    method FlushEndOutput(graceful: bool)
      modifies this`flushFin, this`flushDecisions, drv`flushFins, drv`flushFailed, drv`sessionFailed
      ensures Book() == EndOutput(old(Book()), graceful)
      ensures |flushDecisions| == |old(flushDecisions)|
      // a graceful end acknowledges the FIN and loses nothing
      ensures graceful ==> !flushFin && drv.flushFailed == old(drv.flushFailed) && flushDecisions == old(flushDecisions)
      // an abortive one loses what is still required: the innermost shutdown call carries it, or the connection
      ensures !graceful && old(flushRequiredSends == 0 && !flushFin) ==> Book() == old(Book())
      ensures !graceful && old(flushRequiredSends != 0 || flushFin) ==>
                !flushFin &&
                if flushDecisions != []
                then flushDecisions[|flushDecisions| - 1].loss && drv.flushFailed == old(drv.flushFailed)
                else drv.flushFailed
    {
      if graceful {
        FlushDropFin();
      } else if flushRequiredSends != 0 || flushFin {
        FlushCancelLoss();
        FlushDropFin();
      }
    }

    /** Every shutdown call on the stack has now seen the end of the send direction. */
    method MarkDecisions()
      modifies this`flushDecisions
      ensures flushDecisions == MarkComplete(old(flushDecisions))
    {
      var p := |flushDecisions|;
      while p > 0
        invariant 0 <= p <= |flushDecisions| == |old(flushDecisions)|
        invariant flushDecisions[..p] == old(flushDecisions)[..p]
        invariant forall i :: p <= i < |flushDecisions| ==>
          flushDecisions[i] == old(flushDecisions)[i].(shutdownComplete := true)
      {
        p := p - 1;
        flushDecisions := flushDecisions[p := flushDecisions[p].(shutdownComplete := true)];
      }
    }

    /** The transport says the send direction is over. */
    method OnSendShutdownComplete(graceful: bool)
      modifies this`flushFin, this`flushDecisions, this`flushAbortComplete, this`flushSettling,
               this`flushShutdownPending, this`flushShutdownGraceful,
               drv`flushFins, drv`flushFailed, drv`sessionFailed, drv`flushSettlements
      ensures Book() == SendShutdown(old(Book()), graceful)
      ensures flushShutdownPending == (old(flushShutdownPending) || old(flushDecisions) != [])
      ensures flushShutdownGraceful == if old(flushDecisions) != [] then graceful else old(flushShutdownGraceful)
    {
      hide EndOutput;
      FlushEndOutput(graceful);
      MarkDecisions();
      ghost var e := EndOutput(old(Book()), graceful);
      assert Book() == e.(owed := e.owed.(decisions := MarkComplete(e.owed.decisions)));
      if flushSettling {
        flushAbortComplete := true;
        FlushSettle();
      }
      if flushDecisions != [] {
        flushShutdownPending := true;
        flushShutdownGraceful := graceful;
      }
    }

    /** Enter a structured shutdown; `intent` is an application cancel of WebTransport data. */
    method EnterShutdown(intent: bool)
      modifies this`flushDecisions, drv`flushDecisions
      ensures Book() == if intent then EnterDecision(old(Book())) else old(Book())
    {
      if intent {
        flushDecisions := flushDecisions + [Decision(false, false)];
        drv.flushDecisions := drv.flushDecisions + 1;
      }
    }

    /** Resolve it with the transport's answer. */
    method LeaveShutdown(intent: bool, ok: bool, sendAccepted: bool)
      requires intent ==> flushDecisions != []
      modifies this`flushDecisions, this`flushAbortComplete, this`flushEpoch, this`flushRequiredSends,
               this`flushFin, this`flushSettling, drv
      ensures Book() == if intent then LeaveDecision(old(Book()), ok, sendAccepted)
                        else LeavePlainShutdown(old(Book()), sendAccepted)
    {
      if intent {
        var top := |flushDecisions| - 1;
        var decision := flushDecisions[top];
        flushDecisions := flushDecisions[..top];
        drv.flushDecisions := drv.flushDecisions - 1;
        assert Book() == PopDecision(old(Book()));
        if ok {
          if decision.shutdownComplete {
            flushAbortComplete := true;
          }
          FlushWithdraw();
        } else if sendAccepted {
          drv.FlushFail();
        } else if decision.loss {
          FlushCancelLoss();
        }
      } else if sendAccepted {
        FlushDiscard();
      }
      FlushSettle();
    }

    /** Submit a copied buffer; a bare FIN needs no record. The transport's answers are parameters. */
    method OpSend(len: nat, fin: bool, memory: bool, accepted: bool) returns (r: Status)
      modifies this`sendRefs, this`flushSends, this`flushRequiredSends, this`flushFin,
               drv`pendingSends, drv`flushSends, drv`flushFins
      ensures r == if drv.shutdownStarted || !handle then Status.Closed
                   else if len == 0 && !fin then Status.Ok
                   else if len != 0 && !memory then NoMem
                   else if !accepted then Status.Backend
                   else Status.Ok
      ensures r != Status.Ok || (len == 0 && !fin) ==> Book() == old(Book())
      ensures r == Status.Ok && (len != 0 || fin) ==>
                Book() == Submitted(old(Book()), len != 0, len != 0, fin)
    {
      if drv.shutdownStarted || !handle {
        return Status.Closed;
      }
      if len == 0 && !fin {
        return Status.Ok;
      }
      if len == 0 {
        var newFin := FlushBegin(false, true);
        if !accepted {
          RollbackUndoesBegin(old(Book()), false, true);
          FlushRollback(false, newFin);
          return Status.Backend;
        }
        return Status.Ok;
      }
      if !memory {
        return NoMem;
      }
      hide Begin, Rollback, Held;
      Hold(1);
      var newFin := FlushBegin(true, fin);
      HeldCommutes(old(Book()), true, fin);
      if !accepted {
        Hold(-1);
        RollbackUndoesBegin(old(Book()), true, fin);
        FlushRollback(true, newFin);
        return Status.Backend;
      }
      return Status.Ok;
    }

    /** Submit borrowed spans within the stream's budget. */
    method OpSendGather(lens: seq<nat>, fin: bool, memory: bool, accepted: bool) returns (r: Status)
      requires 0 <= inflightBytes <= U64_MAX && idealSend <= U64_MAX
      modifies this`sendRefs, this`flushSends, this`flushRequiredSends, this`flushFin, this`inflightBytes,
               this`sendBlocked, drv`pendingSends, drv`flushSends, drv`flushFins
      ensures r == if drv.shutdownStarted || !handle then Status.Closed
                   else if |lens| > U32_MAX || (exists i :: 0 <= i < |lens| && lens[i] > U32_MAX) then TooLarge
                   else if FlushRuns.OverBudget(old(BudgetValue(0)), Sum(lens)) then Status.WouldBlock
                   else if !memory then NoMem
                   else if !accepted then Status.Backend
                   else Status.Ok
      ensures r != Status.Ok ==> Book() == old(Book()) && inflightBytes == old(inflightBytes)
      ensures r == Status.Ok ==>
                Book() == Submitted(old(Book()), true, Sum(lens) != 0, fin) &&
                inflightBytes == old(inflightBytes) + Sum(lens) && inflightBytes <= U64_MAX
      ensures sendBlocked == if r == Status.WouldBlock then true
                             else if r == Status.Ok then false else old(sendBlocked)
    {
      if drv.shutdownStarted || !handle {
        return Status.Closed;
      }
      if |lens| > U32_MAX {
        return TooLarge;
      }
      var fits, total := SumSpans(lens);
      if !fits {
        return TooLarge;
      }
      var ceiling := if idealSend > SEND_BUDGET_MIN then idealSend else SEND_BUDGET_MIN;
      if total != 0 && inflightBytes != 0 &&
         (inflightBytes >= ceiling || total > ceiling - inflightBytes) {
        sendBlocked := true;
        return Status.WouldBlock;
      }
      if !memory {
        return NoMem;
      }
      r := SubmitGather(total, fin, accepted);
    }

    /** Publish the obligation, submit, and take it back if the transport refuses. */
    method SubmitGather(total: nat, fin: bool, accepted: bool) returns (r: Status)
      modifies this`sendRefs, this`flushSends, this`flushRequiredSends, this`flushFin, this`inflightBytes,
               this`sendBlocked, drv`pendingSends, drv`flushSends, drv`flushFins
      ensures r == if accepted then Status.Ok else Status.Backend
      ensures accepted ==> Book() == Submitted(old(Book()), true, total != 0, fin)
      ensures !accepted ==> Book() == old(Book())
      ensures inflightBytes == old(inflightBytes) + if accepted then total else 0
      ensures sendBlocked == (!accepted && old(sendBlocked))
    {
      hide Begin, Rollback, Held;
      Hold(1);
      inflightBytes := inflightBytes + total;
      var newFin := FlushBegin(total != 0, fin);
      HeldCommutes(old(Book()), total != 0, fin);
      if !accepted {
        Hold(-1);
        inflightBytes := inflightBytes - total;
        RollbackUndoesBegin(old(Book()), total != 0, fin);
        FlushRollback(total != 0, newFin);
        return Status.Backend;
      }
      sendBlocked := false;
      return Status.Ok;
    }

    /** Take or drop one reference of a send record. */
    method Hold(n: int)
      modifies this`sendRefs, drv`pendingSends
      ensures Book() == Held(old(Book()), n)
    {
      sendRefs := sendRefs + n;
      drv.pendingSends := drv.pendingSends + n;
    }
  }

  function Held(l: Ledger, n: int): Ledger {
    var c := l.conn.counts;
    Ledger(l.conn.(counts := c.(refs := c.refs + n)), l.owed.(sendRefs := l.owed.sendRefs + n))
  }

  /** Holding a reference and publishing an obligation touch different fields. */
  lemma HeldCommutes(l: Ledger, bytes: bool, fin: bool)
    ensures Begin(Held(l, 1), bytes, fin) == Held(Begin(l, bytes, fin), 1)
    ensures Held(Held(Begin(l, bytes, fin), 1), -1) == Begin(l, bytes, fin)
  {
    assert Begin(Held(l, 1), bytes, fin).owed == Held(Begin(l, bytes, fin), 1).owed;
    assert Begin(Held(l, 1), bytes, fin).conn == Held(Begin(l, bytes, fin), 1).conn;
    var b := Begin(l, bytes, fin);
    assert Held(Held(b, 1), -1).owed == b.owed;
    assert Held(Held(b, 1), -1).conn == b.conn;
  }

  /** Add up the span lengths, refusing any that one transport buffer cannot carry. */
  method SumSpans(lens: seq<nat>) returns (fits: bool, total: nat)
    requires |lens| <= U32_MAX
    ensures fits <==> forall i :: 0 <= i < |lens| ==> lens[i] <= U32_MAX
    ensures fits ==> total == Sum(lens) <= U32_MAX * U32_MAX <= U64_MAX
  {
    total := 0;
    for i := 0 to |lens|
      invariant total == Sum(lens[..i]) && total <= i * U32_MAX
      invariant forall j :: 0 <= j < i ==> lens[j] <= U32_MAX
    {
      if lens[i] > U32_MAX {
        return false, 0;
      }
      assert lens[..i + 1][..i] == lens[..i];
      total := total + lens[i];
    }
    assert lens[..|lens|] == lens;
    fits := true;
  }

  /** The ledger after an accepted submission, with or without a record to wait for. */
  function Submitted(l: Ledger, record: bool, bytes: bool, fin: bool): Ledger {
    Held(Begin(l, bytes, fin), One(record))
  }

  /** The methods' submission is the one whose runs `FlushRuns` studies. */
  lemma SubmittedIsSubmit(c: Conn, t: FlushRuns.Track, gather: bool, len: nat, fin: bool)
    ensures var o := FlushRuns.Submit(c, t, gather, len, fin);
            Ledger(o.conn, o.track.owed) == Submitted(Ledger(c, t.owed), len != 0 || gather, len != 0, fin)
  {
  }
}
