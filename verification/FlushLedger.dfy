/**
 The accepted-output ledger of the MsQuic backend, as functions on values.

 A `Ledger` pairs the connection-wide part with what one stream owes. Each function
 below is what one inline routine of the ledger does to that pair. `FlushDriver` proves
 that the in-place code computes exactly these functions, and `FlushRuns` proves what
 they keep over every run of transport events.
 */
module FlushLedger {

  /** The largest value of a 64-bit unsigned field. */
  const U64_MAX: nat := 0xFFFF_FFFF_FFFF_FFFF

  /** The largest length one transport buffer can carry. */
  const U32_MAX: nat := 0xFFFF_FFFF

  /** The in-flight floor below which a stream's send budget never falls. */
  const SEND_BUDGET_MIN: nat := 1024 * 1024

  /** A shutdown call that is still on the C stack of the stream it targets. */
  datatype Decision = Decision(loss: bool, shutdownComplete: bool)

  /** What a send record remembers about its obligation. */
  datatype Header = Header(bytes: bool, fin: bool, epoch: nat)

  /**
   What one stream owes: records out with the transport, byte obligations among them,
   an unacknowledged FIN, the obligations of the current epoch, and the settlement of
   superseded ones. `decisions` lists the shutdown calls in progress, innermost last.
   */
  datatype Owed = Owed(
    sendRefs: int,
    sends: int,
    fin: bool,
    required: int,
    epoch: nat,
    settling: bool,
    abortComplete: bool,
    canceled: bool,
    decisions: seq<Decision>)

  /** The five connection-wide totals. */
  datatype Counts = Counts(refs: int, sends: int, fins: int, settlements: int, decisions: int)

  /** The connection's part of the ledger. `session` says whether the session is still attached. */
  datatype Conn = Conn(
    counts: Counts,
    failed: bool,
    shutdownStarted: bool,
    shutdownWhenFlushed: bool,
    session: bool,
    sessionFailed: bool)

  datatype Ledger = Ledger(conn: Conn, owed: Owed)

  /** The answers of the flush probe. */
  datatype Answer = Ok | WouldBlock | Closed | Backend

  function Fail(c: Conn): Conn {
    c.(failed := true, sessionFailed := c.sessionFailed || c.session)
  }

  predicate Pending(c: Conn) {
    c.counts.sends != 0 || c.counts.fins != 0 || c.counts.settlements != 0 || c.counts.decisions != 0
  }

  function FailIfPending(c: Conn): Conn {
    if Pending(c) then Fail(c) else c
  }

  function Probe(c: Conn): Answer {
    if c.failed then Backend
    else if c.shutdownStarted then Closed
    else if Pending(c) then WouldBlock
    else Ok
  }

  function One(b: bool): int {
    if b then 1 else 0
  }

  /** Publish an obligation before the submission that creates it. */
  function Begin(l: Ledger, bytes: bool, fin: bool): Ledger {
    var c, o := l.conn.counts, l.owed;
    Ledger(
      l.conn.(counts := c.(sends := c.sends + One(bytes), fins := c.fins + One(fin && !o.fin))),
      o.(sends := o.sends + One(bytes), required := o.required + One(bytes), fin := o.fin || fin))
  }

  function Rollback(l: Ledger, bytes: bool, newFin: bool): Ledger {
    var c, o := l.conn.counts, l.owed;
    Ledger(
      l.conn.(counts := c.(sends := c.sends - One(bytes), fins := c.fins - One(newFin))),
      o.(sends := o.sends - One(bytes), required := o.required - One(bytes), fin := o.fin && !newFin))
  }

  /** Forget a FIN that still awaits the graceful send shutdown. */
  function DropFin(l: Ledger): Ledger {
    var c := l.conn.counts;
    Ledger(l.conn.(counts := c.(fins := c.fins - One(l.owed.fin))), l.owed.(fin := false))
  }

  function Discard(l: Ledger): Ledger {
    var o := l.owed;
    if o.required != 0 || o.fin || o.settling || o.decisions != []
    then DropFin(l.(conn := Fail(l.conn)))
    else l
  }

  function Settle(l: Ledger): Ledger {
    var c, o := l.conn.counts, l.owed;
    if o.settling && o.abortComplete && o.sendRefs == 0 && o.decisions == []
    then Ledger(l.conn.(counts := c.(settlements := c.settlements - 1)), o.(settling := false))
    else l
  }

  /** Start a new epoch, in which nothing is required yet and the old ones have to settle. */
  function NewEpoch(l: Ledger): Ledger {
    var c, o := l.conn.counts, l.owed;
    Ledger(
      l.conn.(counts := c.(settlements := c.settlements + One(!o.settling))),
      o.(epoch := o.epoch + 1, required := 0, settling := true))
  }

  /** Supersede everything accepted so far on the stream. */
  function Withdraw(l: Ledger): Ledger {
    if l.owed.epoch == U64_MAX then l.(conn := Fail(l.conn)) else Settle(NewEpoch(DropFin(l)))
  }

  /** Charge a loss to the innermost shutdown call, or to the connection when there is none. */
  function CancelLoss(l: Ledger): Ledger {
    var ds := l.owed.decisions;
    if ds != []
    then l.(owed := l.owed.(decisions := ds[|ds| - 1 := ds[|ds| - 1].(loss := true)]))
    else l.(conn := Fail(l.conn))
  }

  /** What the loss of a returned record's output means for the ledger. */
  function Charge(l: Ledger, h: Header, canceled: bool): Ledger {
    if !canceled || !(h.bytes || h.fin) then l
    else
      var m := l.(owed := l.owed.(canceled := true));
      if h.epoch != l.owed.epoch then m
      else if h.fin then DropFin(CancelLoss(m))
      else CancelLoss(m)
  }

  /** A send record came back from the transport. */
  function Complete(l: Ledger, h: Header, canceled: bool): Ledger {
    var m := Charge(l, h, canceled);
    var c, o := m.conn.counts, m.owed;
    Ledger(
      m.conn.(counts := c.(sends := c.sends - One(h.bytes))),
      o.(sends := o.sends - One(h.bytes), required := o.required - One(h.bytes && h.epoch == o.epoch)))
  }

  /** What is still required when the send direction ends ungracefully is lost. */
  function EndOutput(l: Ledger, graceful: bool): Ledger {
    if graceful then DropFin(l)
    else if l.owed.required != 0 || l.owed.fin then DropFin(CancelLoss(l))
    else l
  }

  /** The transport's report that the send direction is over. */
  function SendShutdown(l: Ledger, graceful: bool): Ledger {
    var e := EndOutput(l, graceful);
    var m := e.(owed := e.owed.(decisions := MarkComplete(e.owed.decisions),
                                abortComplete := e.owed.abortComplete || e.owed.settling));
    if m.owed.settling then Settle(m) else m
  }

  function MarkComplete(ds: seq<Decision>): (r: seq<Decision>)
    ensures |r| == |ds|
    ensures forall i :: 0 <= i < |ds| ==> r[i] == ds[i].(shutdownComplete := true)
  {
    if ds == [] then []
    else MarkComplete(ds[..|ds| - 1]) + [ds[|ds| - 1].(shutdownComplete := true)]
  }

  /** Enter a shutdown call that intends to cancel application output. */
  function EnterDecision(l: Ledger): Ledger {
    var c := l.conn.counts;
    Ledger(
      l.conn.(counts := c.(decisions := c.decisions + 1)),
      l.owed.(decisions := l.owed.decisions + [Decision(false, false)]))
  }

  /** Take the innermost shutdown call off the stream's stack. */
  function PopDecision(l: Ledger): Ledger
    requires l.owed.decisions != []
  {
    var c, ds := l.conn.counts, l.owed.decisions;
    Ledger(l.conn.(counts := c.(decisions := c.decisions - 1)), l.owed.(decisions := ds[..|ds| - 1]))
  }

  /** An accepted cancellation supersedes; abort evidence seen meanwhile counts for it. */
  function AcceptDecision(l: Ledger): Ledger
    requires l.owed.decisions != []
  {
    var d := l.owed.decisions[|l.owed.decisions| - 1];
    var p := PopDecision(l);
    Withdraw(p.(owed := p.owed.(abortComplete := p.owed.abortComplete || d.shutdownComplete)))
  }

  /** A refused one supersedes nothing: a loss seen meanwhile is charged one level out. */
  function RefuseDecision(l: Ledger, sendAccepted: bool): Ledger
    requires l.owed.decisions != []
  {
    var d := l.owed.decisions[|l.owed.decisions| - 1];
    var p := PopDecision(l);
    if sendAccepted then p.(conn := Fail(p.conn))
    else if d.loss then CancelLoss(p)
    else p
  }

  /** Leave that shutdown call; `ok` and `sendAccepted` are what the transport answered. */
  function LeaveDecision(l: Ledger, ok: bool, sendAccepted: bool): Ledger
    requires l.owed.decisions != []
  {
    Settle(if ok then AcceptDecision(l) else RefuseDecision(l, sendAccepted))
  }

  /** Leave a shutdown call that carried no such intent. */
  function LeavePlainShutdown(l: Ledger, sendAccepted: bool): Ledger {
    Settle(if sendAccepted then Discard(l) else l)
  }

  /** The commitment the engine is told about when the send direction ends. */
  predicate Committed(o: Owed, graceful: bool) {
    graceful && o.epoch == 0 && !o.canceled
  }

  /** A refused submission leaves no trace: rolling back undoes exactly what `Begin` added. */
  lemma RollbackUndoesBegin(l: Ledger, bytes: bool, fin: bool)
    ensures Rollback(Begin(l, bytes, fin), bytes, fin && !l.owed.fin) == l
  {
    var r := Rollback(Begin(l, bytes, fin), bytes, fin && !l.owed.fin);
    assert r.owed == l.owed;
    assert r.conn.counts == l.conn.counts;
  }
}
