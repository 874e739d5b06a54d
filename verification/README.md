# wtquic: models and proofs

wtquic is a WebTransport-over-HTTP/3 engine (`src/engine`), a public session and stream API over
it (`src/api`), wire codecs (`src/proto`) and two transport backends, MsQuic
(`backends/msquic`) and Apple's Network.framework (`backends/network`). Most of it is bookkeeping
that has to hold over every run: counters, epochs, reference counts, slots that are reused,
callbacks that call back. This project models that bookkeeping in Dafny 4.11 and proves what the
code and its comments promise. `dafny verify dfyconfig.toml` checks everything.

| file | what it is about |
|---|---|
| `FlushLedger.dfy`, `FlushRuns.dfy`, `FlushDriver.dfy` | the MsQuic output-flush ledger: pure steps, runs over all streams, the structs that are updated in place |
| `FlushLoss.dfy` | the converse: every loss, every wait and every commitment has its reason in an earlier event |
| `StreamMirror.dfy`, `MirrorRuns.dfy`, `EventOrder.dfy`, `MirrorBreaks.dfy` | session and stream lifecycle across engine and API, with reentrant callbacks |
| `StreamEffects.dfy` | what each call and event does to a stream's fields, and a handle's sides as its history |
| `SlotPools.dfy`, `SessionCalls.dfy` | the slot arrays and the session's calls, in place |
| `BoundedAdmission.dfy` | the three allocators of a budgeted session |
| `NwSends.dfy`, `NwSendRuns.dfy`, `NwStream.dfy` | two-phase send records of the Network backend |
| `NwSendEffects.dfy` | which gathers are taken, what goes out, who is woken |
| `NwReceive.dfy`, `NwDelivery.dfy` | pause and resume of receiving: the machine, and the loops of engine and backend |
| `NwLifecycle.dfy` | the managed connection handle: start, post, stop, release |
| `Varint.dfy`, `FrameHeader.dfy`, `Capsule.dfy`, `CapsuleWire.dfy` | the incremental capsule codec and its encoders |
| `ControlStream.dfy`, `ControlFrames.dfy` | the walk over the peer's control stream; what it means frame by frame |
| `Huffman.dfy`, `HuffmanDecoder.dfy` | the generator's canonicity check, the length rows, the string decoder |
| `Origin.dfy`, `OriginTuple.dfy` | address literals, origin tuples, the Origin field |
| `Establishment.dfy`, `ParkedConnect.dfy` | client establishment, parked CONNECT requests |

Runs are sequences of events and states; a `Run` predicate says that each state follows from the
one before by an enabled event, and the main lemmas quantify over every run and every position
in it. Code that updates structs in place is a class whose methods are proved against the same
pure steps that the runs are made of. Transport calls, TLS, clocks, allocation failures and the
application are events or parameters.

## Where code and documentation disagree

- **The API does not always mirror the engine.** `session.c` unlinks a handle by clearing the
  back pointer of the engine slot it names. In a session that is not budgeted the engine may give that
  slot away first: inside `on_stream_reset` the engine has already closed the receive side, so an
  application that ends the send side there releases the slot, and a stream opened from the same
  callback moves into it. When the callback returns, the old handle's unlink severs the new
  stream from its own handle. `MirrorCanBreak` is such a run. The condition is a guard that can be
  checked before the open, `Perilous`: the application is inside the reset callback of a stream
  whose handle is still alive, and the free slot is that stream's. `OpenIsCleanIff` shows that a
  free slot is still a live handle's exactly then; `SeveredIff` that the return from the callback
  cuts off the slot's stream exactly when the returning handle is alive and another; and
  `OpenFateIff`, over whole runs and whatever is called in between, that a stream which survives
  until no callback is on the stack is mirrored there if and only if its open was not perilous.
  In a budgeted session no open is (`ReservedIsGuarded`), and `MirrorHolds` is unconditional.
  Admission alone does not help: without the budget, slots are not resident.
- **A failure can be reported before the last `on_stream_closed`.** The close event waits for a
  running send-committed callback; the failure event in `adapt_conn_error` does not. When a
  session is closed from inside that callback and a raw stream shutdown fails on the way,
  `on_failed` precedes `on_stream_closed` of the committing stream (`FailureCanComeEarly`).
  `FailureOrderIff` says exactly when the order is kept. `on_closed` itself always comes last
  (`ClosedComesLast`).
- **A sender of the Network backend can wait for nothing.** `include/wtquic/session.h` (lines
  229-235) says that a send refused with WOULD_BLOCK can be retried after `on_stream_writable`. A
  gather of more than 1 MiB is refused like that even by an idle stream, where no completion is to
  come that could fire the callback (`OversizedWaitsForNothing`). `IdleTakesIff` shows that an idle
  stream takes a gather if and only if it is no larger, and `WakeComes` that in every run without
  a larger one each waiting sender of a live stream has a slot whose release wakes it.

## Model

| member | source | states |
|---|---|---|
| FlushLedger.RollbackUndoesBegin | backends/msquic/msq_internal.h:709-728 | rolling back a refused submission restores the ledger exactly, whatever it was |
| FlushDriver.Driver.constructor | backends/msquic/msq_internal.h:646-648 | a new driver owes nothing and has lost nothing |
| FlushDriver.Driver.FlushFail | backends/msquic/msq_internal.h:730-736 | loss is latched on the connection and, while it lives, on the session |
| FlushDriver.Driver.FlushPending | backends/msquic/msq_internal.h:738-742 | pending means a send, FIN, settlement or decision is counted |
| FlushDriver.Driver.LocalFlushProbe | backends/msquic/msq_stream.c:321-327 | the answer is the ledger's, in the order loss, shutdown, pending |
| FlushDriver.Driver.ConnShutdown | backends/msquic/msq_conn.c:121-135 | a shutdown with output pending is a loss |
| FlushDriver.DStream.FlushBegin | backends/msquic/msq_internal.h:709-718 | a submission is counted on stream and connection, its FIN once |
| FlushDriver.DStream.FlushRollback | backends/msquic/msq_internal.h:720-728 | a refused submission is taken off again on both |
| FlushDriver.DStream.FlushDiscard | backends/msquic/msq_internal.h:744-751 | unfinished output of a dead stream is a loss and is dropped from both counts |
| FlushDriver.DStream.FlushSettle | backends/msquic/msq_internal.h:759-766 | a settlement ends once the abort is complete and nothing is in flight |
| FlushDriver.DStream.FlushWithdraw | backends/msquic/msq_internal.h:768-780 | withdrawn output opens a new epoch and is settled, not lost |
| FlushDriver.DStream.FlushCancelLoss | backends/msquic/msq_internal.h:782-786 | a cancellation is charged to the innermost decision that is open, else it is a loss |
| FlushDriver.DStream.FlushComplete | backends/msquic/msq_internal.h:788-805 | a record leaves the counts of its own epoch only; a cancelled one is charged |
| FlushDriver.DStream.OnSendComplete | backends/msquic/msq_stream.c:627-669 | a completion returns its reference and settles |
| FlushDriver.DStream.FlushEndOutput | backends/msquic/msq_stream.c:593-603 | a graceful end discharges the FIN and loses nothing; any other loses what was left to the innermost shutdown call or the connection, and nothing if nothing was left |
| FlushDriver.DStream.MarkDecisions | backends/msquic/msq_stream.c:605-606 | every decision on the stack learns that output is over |
| FlushDriver.DStream.OnSendShutdownComplete | backends/msquic/msq_stream.c:593-626 | the whole event, as one step of the ledger |
| FlushDriver.DStream.EnterShutdown | backends/msquic/msq_conn.c:462-474 | a decision is pushed |
| FlushDriver.DStream.LeaveShutdown | backends/msquic/msq_conn.c:505-517 | the decision is popped and judged: withdrawn, failed, or handed to the outer one |
| FlushDriver.DStream.OpSend | backends/msquic/msq_conn.c:271-316 | accepted sends are counted, refused ones leave no trace |
| FlushDriver.DStream.OpSendGather | backends/msquic/msq_conn.c:385-453 | the window is checked first; then as a send |
| FlushDriver.SumSpans | backends/msquic/msq_conn.c:395-400 | the 64-bit sum of any spans of 32-bit length is exact |
| FlushRuns.RunKeeps | backends/msquic/msq_internal.h:709-805 | every reachable state satisfies the invariant, over all streams ever opened |
| FlushRuns.FlushSound | backends/msquic/msq_stream.c:321-327 | when the probe answers OK, every output ever accepted was acknowledged, or withdrawn and settled |
| FlushRuns.TerminalSound | backends/msquic/msq_internal.h:730-736 | a session that ends without the loss bit had all its output delivered or withdrawn |
| FlushRuns.ProbeExact | backends/msquic/msq_internal.h:738-742 | the probe blocks if and only if some stream still owes something |
| FlushRuns.NoCancelledOutputEscapes | backends/msquic/msq_conn.c:462-525 | cancelled output is withdrawn, lost, or charged to an open decision, however they nest |
| FlushRuns.LedgerConserved | backends/msquic/msq_internal.h:709-805 | connection counts are the sums over streams, stream counts those of the records in flight, collected streams owe nothing |
| FlushRuns.LossIsSticky | backends/msquic/msq_internal.h:730-736 | loss is never forgotten |
| FlushRuns.FatesAreEarned | backends/msquic/msq_stream.c:572-717 | output counts as withdrawn or acknowledged only after an event that justifies it |
| FlushRuns.CommitSound | backends/msquic/msq_stream.c:115-122 | a commitment is reported only if no output of the stream was cancelled or withdrawn |
| FlushRuns.BudgetSafe | backends/msquic/msq_stream.c:393-407 | bytes in flight never wrap, and a blocked live stream has a completion to come that wakes it |
| FlushRuns.GatherWithinCeiling | backends/msquic/msq_conn.c:401-415 | in every run the gather bytes in flight stay under the highest ceiling so far, except while one gather alone is in flight; a busy stream accepts only what fits the ceiling of the moment |
| FlushLoss.StepLoses | backends/msquic/msq_internal.h:744-805 | by event and fields: exactly which steps set the loss bit, and which shutdown call carries a loss after a step |
| FlushLoss.LatchedIff | backends/msquic/msq_internal.h:730-736 | in every run the loss bit is set if and only if such an event has happened |
| FlushLoss.LossIsEarned | backends/msquic/msq_stream.c:593-603 | a loss bit, or a loss waiting in a shutdown call, has an earlier cause: lost output of the current epoch, a stream that died owing, a half-refused cancel, an exhausted epoch, a connection ended while someone owed |
| FlushLoss.ProbeIsHistory | backends/msquic/msq_stream.c:321-327 | the probe answers BACKEND if and only if a latching event has happened, else CLOSED if and only if a shutdown was begun, else WOULD_BLOCK if and only if some stream owes, else OK |
| FlushLoss.ProbeOkIff | backends/msquic/msq_stream.c:321-327 | in a run without a cause of loss and without a shutdown, the probe is OK if and only if nobody owes |
| FlushLoss.OwesIsOutstanding | backends/msquic/msq_internal.h:738-742 | owing means a byte record at the transport, a FIN neither acknowledged nor superseded, an open shutdown call or an unsettled epoch; unsettled means abort unconfirmed, a record out or a call open |
| FlushLoss.ConfirmedSettles | backends/msquic/msq_internal.h:759-766 | once the send direction has ended under an open settlement, only a record still out or an open shutdown call keeps it open |
| FlushLoss.StepConfirms | backends/msquic/msq_stream.c:605-611 | exactly which steps open and close a shutdown call and which count as the confirmation of an abort |
| FlushLoss.StepDecides | backends/msquic/msq_stream.c:572-717 | exactly which steps acknowledge, supersede or cancel an accepted output |
| FlushLoss.SubmissionTaken | backends/msquic/msq_conn.c:385-453 | a send is taken if and only if connection and handle are open, it fits the window and the transport says yes; its bytes are then with the transport, its FIN owed |
| FlushLoss.WritableEdge | backends/msquic/msq_stream.c:393-407 | the writable edge is armed exactly by a gather without room, and delivered by the check after a completion or a larger ideal size |
| FlushLoss.NativeEffect | backends/msquic/msq_stream.c:612-626 | linkage, handle and a deferred report change with these events only; a closed stream keeps its handle exactly if it is pooled and not closed by the application |
| FlushLoss.TrackEffect | backends/msquic/msq_stream.c:393-407 | the ideal size is the transport's latest; a stream lives until it is collected |
| FlushLoss.AttachedUntilOver | backends/msquic/msq_conn.c:835-861 | in every run the session is attached if and only if the connection's final event has not come |
| FlushLoss.CommitIff | backends/msquic/msq_stream.c:612-626 | the end of a send direction counts as commitment if and only if it is graceful and nothing on the stream was ever cancelled, superseded or returned as cancelled |
| FlushLoss.SentWhole | backends/msquic/msq_stream.c:593-626 | a complete run: bytes with a FIN, acknowledged, graceful end; the probe blocks until then and is OK |
| StreamMirror.NextKeeps | src/api/session.c:396-516 | every call, callback return and transport event keeps the two layers in step, except an open into the slot of the stream whose reset is being reported |
| StreamMirror.OpenIsCleanIff | src/engine/conn.c:3105-3173 | a free slot that an open can take is still a live handle's if and only if the application is inside the reset callback of that handle's stream |
| MirrorRuns.RunKeeps | src/engine/conn.c:1524-1581 | so does every run in budgeted sessions or with guarded opens |
| MirrorRuns.MirrorHolds | src/api/session.c:709-832 | between callbacks, live handle and engine slot point at each other and agree on send, FIN, receive and commitment; occupied slots have an open, finishing or draining side; references are accounted for |
| MirrorRuns.ReservedIsGuarded | src/engine/conn.c:3116-3139 | in a budgeted session no open takes the slot of the stream whose reset is being reported |
| MirrorRuns.NeverStuck | src/api/session.c:458-516 | the library can always finish what a callback interrupted |
| MirrorRuns.GenerationsGrow | src/engine/conn.c:3130-3139 | a slot keeps its generation or, when free, gets a higher one |
| MirrorRuns.StaleReturnIsHarmless | src/engine/conn.c:1558-1581 | in every run in budgeted sessions or with guarded opens, a callback that returns after its stream has left the slot changes no slot |
| MirrorBreaks.SeveredIff | src/api/session.c:471-485 | when the reset callback returns, the handle whose slot it is about loses the slot if and only if it is another than the returning one and that one is alive |
| MirrorBreaks.PerilousOpenOrphans | src/api/session.c:734-753 | after an open that is perilous, at any depth of callbacks and whatever the application does next, the new stream is not mirrored wherever no callback is on the stack |
| MirrorBreaks.OpenFateIff | src/api/session.c:734-753 | if all other opens are guarded, a stream that survives until then is mirrored if and only if its open was not perilous |
| MirrorBreaks.MirrorCanBreak | src/api/session.c:734-753 | a complete run in which it happens |
| EventOrder.RunOrdered | src/api/session.c:577-684 | the order invariant holds in every run, budgeted or not |
| EventOrder.OneTerminal | src/api/session.c:577-684 | at most one of closed, refused, failed; exactly one once session or connection is over |
| EventOrder.OneClosing | src/api/session.c:487-516 | one on_stream_closed per stream, and for all of them once the session is over |
| EventOrder.ClosedComesLast | src/api/session.c:637-661 | after on_closed no callback but on_send_complete can run, not draining, datagram or writable either; and it follows on_stream_closed of every stream |
| EventOrder.FailureOrderIff | src/api/session.c:663-684 | whenever in a run on_failed fires, all streams were reported closed if and only if no commitment callback is running |
| EventOrder.FailureCanComeEarly | src/engine/conn.c:674-685 | a complete run in which it fires too early |
| StreamEffects.ShutdownEffect | src/engine/conn.c:3306-3333 | a reset, stop or abort that is taken ends the sides it names on handle and slot and no other, drains a stopped receive side, and reports the closing exactly when no side is left; a refused one changes nothing |
| StreamEffects.SendEffect | src/api/session.c:1605-1629 | a send with FIN ends the send side in both layers and awaits commitment exactly if opted in; without FIN it moves no side |
| StreamEffects.TakenIff | src/api/session.c:1631-1700 | between callbacks the handle's own flags decide whether a call is taken; the engine never disagrees |
| StreamEffects.PeerResetEffect | src/engine/conn.c:1887-1909 | one on_stream_reset where there is a handle and the side was not stopped, else silence; the engine's receive side is closed |
| StreamEffects.PeerStopEffect | src/engine/conn.c:3611-3626 | one on_stream_stop where there is a handle; the send side ends only on streams with commitment |
| StreamEffects.DataEffect | src/engine/conn.c:1558-1581 | one report under a hold, or absorbed after a stop and without a handle |
| StreamEffects.WritableEffect | src/engine/conn.c:3576-3584 | one report, no side moved |
| StreamEffects.SendOverEffect | src/engine/conn.c:3543-3564 | committed exactly if graceful and awaited, otherwise closed without; send side gone in both layers, handle cut off |
| StreamEffects.StreamGoneEffect | src/engine/conn.c:1842-1859 | one closing report if a side was left, none otherwise; every side closed |
| StreamEffects.ReceiveReturnEffect | src/api/session.c:709-753 | after the report of the end or of a reset the handle's receive side is closed, and the handle with one report if that was its last |
| StreamEffects.ReceiveReturnSlot | src/engine/conn.c:1558-1581 | and the slot is finished with: freed exactly if nothing keeps it |
| StreamEffects.EngineReturnEffect | src/engine/conn.c:1549-1554 | the same for the engine's part that waits behind a closing report; a newer occupant of the slot is left alone |
| StreamEffects.StopReturnEffect | src/api/session.c:755-783 | after on_stream_stop a stream with commitment closes if that was its last side, any other does not |
| StreamEffects.CommitReturnEffect | src/api/session.c:806-832 | after the commitment callback the stream is reported closed |
| StreamEffects.RefEffect | src/api/session.c:1568-1585 | references are counted up, and down as far as the application holds any |
| StreamEffects.OpenEffect | src/api/session.c:1330-1382 | an opened stream has its own sides open in both layers |
| StreamEffects.PeerStreamEffect | src/api/session.c:686-707 | and so has a peer's, with one report |
| StreamEffects.UnheldEffect | src/engine/conn.c:3398-3412 | a stream without a handle is shut down on both sides |
| StreamEffects.EnableCommitEffect | src/engine/conn.c:3186-3197 | commitment is set in both layers exactly for a local unidirectional stream that has not sent |
| StreamEffects.EndingEffect | src/engine/conn.c:764-784 | the end of a session closes every side, drains what may still come, touches no handle, and puts its terminal event after the teardown |
| StreamEffects.TeardownEffect | src/api/session.c:505-516 | the teardown closes each handle still alive, with one report, and skips the rest |
| StreamEffects.LostEffect | src/api/session.c:663-684 | a lost connection fails a session that is connecting and says nothing of one that is over |
| StreamEffects.AllocationEffect | src/engine/conn.c:3130-3139 | a slot is given out under a new generation, taken back and released by the backend |
| StreamEffects.NoticeEffect | src/api/session.c:557-635 | established, refused, failed, draining and datagrams are reported under exactly these conditions |
| StreamEffects.FireEffect | src/api/session.c:637-684 | closed fires at once or after the commitment callback, failed at once |
| StreamEffects.StepSides | src/api/session.c:497-516 | exactly which steps end a side of a live handle and which close it |
| StreamEffects.SidesAreHistory | src/api/session.c:709-832 | in every run a side of a live handle is open if and only if it was and no step since has ended it |
| StreamEffects.ClosesWithLastSide | src/api/session.c:497-503 | in every run a live handle closes exactly with the step that ends its last side |
| SlotPools.EnginePool.FindFree | src/engine/conn.c:3126-3130 | the first free slot that is not resident, or none |
| SlotPools.EnginePool.Release | src/engine/conn.c:1549-1554 | the slot is freed exactly when nothing is open or draining |
| SlotPools.EnginePool.Shutdown | src/engine/conn.c:3306-3333 | the sides named are closed and a closed receive side drains |
| SlotPools.EnginePool.CloseStreams | src/engine/conn.c:764-784 | the end of the session closes every stream slot and only those |
| SlotPools.HandlePool.NextAlive | src/api/session.c:505-516 | the handles the teardown closes, in order, none skipped |
| SessionCalls.Session.constructor | src/api/session.c:877-940 | the machine's first state |
| SessionCalls.Session.FindHandle | src/api/session.c:400-410 | the first unreferenced handle of the range for this kind of stream, which in a budgeted session also needs a free engine slot or is the peer stream's own index; or none |
| SessionCalls.Session.OpenStream | src/api/session.c:1330-1382 | the machine's open at the first free engine slot and handle, its open without a handle, or no change; each answer under exactly its condition |
| SessionCalls.Session.PeerOpens | src/api/session.c:686-707 | the machine's admission of a peer stream, at its own index in a budgeted session, or the turning away of one that finds no handle |
| SessionCalls.Session.ShutdownStream | src/api/session.c:1631-1700 | a reset, stop or abort ends the named sides on handle and slot and no other, with the closing reported exactly when none is left; refused, it leaves no trace; and it is the machine's step for any answer of the transport |
| SessionCalls.Session.OnData | src/engine/conn.c:1558-1581 | a delivery is the machine's data step: absorbed, or reported under a hold |
| SessionCalls.Session.ReturnFromReset | src/api/session.c:734-753 | the return from on_stream_reset is the machine's, with the handle closed or the slot freed |
| SessionCalls.Session.End | src/engine/conn.c:764-784 | closing a session is the machine's step: all slots closed, the teardown next |
| BoundedAdmission.AllocatorsAgree | src/api/session.c:400-410 | the API's search and the engine's find the same index |
| BoundedAdmission.LayersAgree | src/engine/conn.c:3942-3963 | engine slot, handle and native record of a stream share one index, and the branches for disagreement are unreachable |
| BoundedAdmission.ReusedOnlyWhenFree | backends/msquic/msq_stream.c:57-88 | an index goes to a new stream only after all three layers let go |
| BoundedAdmission.PartitionTellsDirection | backends/msquic/msq_stream.c:71-88 | an occupied index belongs to a unidirectional, a bidirectional or a local stream as its partition says |
| BoundedAdmission.ArrivalTakesLowest | backends/msquic/msq_stream.c:75-85 | a peer's stream takes the lowest free record of its own direction's partition, and is turned away only when there is none |
| BoundedAdmission.IndexComesBack | backends/msquic/msq_stream.c:161-199 | a record can be collected if and only if the transport is done, no reference is left, the slot is free and nothing waits; the index is then free in all layers |
| BoundedAdmission.LeaseReturned | src/api/session.c:1577-1585 | the last reference returns the lease and touches nothing else |
| BoundedAdmission.LinksCut | src/engine/conn.c:1524-1541 | the engine's release of a slot cuts both links of its record |
| BoundedAdmission.PreambleDecides | src/engine/conn.c:3850-3920 | a preamble makes a stream wait for admission, enter the engine, or be nobody's |
| BoundedAdmission.AttachLinks | backends/msquic/msq_stream.c:214-230 | the backend's link leads to the slot of its own index exactly while the stream is in the engine |
| BoundedAdmission.OpenTakesOneIndex | src/api/session.c:1330-1382 | a local open takes the lowest free slot of the local partition with handle and record of that index; without one, or refused by the transport, it changes nothing |
| BoundedAdmission.AdmitGoesThrough | src/api/session.c:1071-1079 | a waiting peer stream is always admitted, at its index in all three layers; "slot still referenced" cannot happen |
| NwSendRuns.RunKeeps | backends/network/nw_conn.c:908-1046 | every reachable state of a send chain satisfies the invariant |
| NwSendRuns.ExactlyOnce | backends/network/nw_conn.c:271-294 | no accepted gather is told of twice; one not told of is owed by one slot, and no two slots owe the same |
| NwSendRuns.CountersExact | backends/network/nw_conn.c:506-572 | pending, unretired, live batches and bytes equal their definitions; bytes stay within the window |
| NwSendRuns.SlotReusedAfterBothPhases | backends/network/nw_conn.c:769-795 | a slot is taken only when no queue entry or batch still has business with it |
| NwSendRuns.OneInFlight | backends/network/nw_conn.c:908-930 | at most one send is with the transport and not completed |
| NwSendRuns.ReapSafe | backends/network/nw_conn.c:320-328 | a stream is eligible for freeing only when nothing refers to it and all gathers were told of |
| NwSendRuns.ReapComes | backends/network/nw_conn.c:320-328 | a terminal stream is eligible if and only if its last batch is gone, no receive is outstanding and no recheck queued |
| NwSendRuns.FailureTellsAll | backends/network/nw_conn.c:1560-1592 | after a failure every accepted gather has been told of |
| NwSendRuns.UnissueUndoesIssue | backends/network/nw_conn.c:981-996 | rolling back a batch that was never issued restores the records |
| NwSendEffects.GatherEffect | backends/network/nw_conn.c:1697-1762 | refused when ending, waiting exactly without slot or room, else taken in the first free slot and last in the queue |
| NwSendEffects.PlainEffect | backends/network/nw_conn.c:1671-1690 | a copied send needs no slot and no window |
| NwSendEffects.PumpEffect | backends/network/nw_conn.c:908-1046 | the queue goes out whenever nothing is in flight and the stream is ready and live: as one batch, in order, up to the sixteenth gather |
| NwSendEffects.TellEffect | backends/network/nw_conn.c:271-294 | a completion is delivered once, its bytes leave the window and a waiting sender is woken |
| NwSendEffects.ClearEffect | backends/network/nw_conn.c:506-572 | the slot just told of is free exactly if the transport has let go of it |
| NwSendEffects.EndEffect | backends/network/nw_conn.c:506-572 | after the last one the batch is gone or waits for its retirement, and the queue is pumped |
| NwSendEffects.RetireEffect | backends/network/nw_conn.c:768-810 | slots told of are free, and a waiting sender is woken by any of them |
| NwSendEffects.CancelEffect | backends/network/nw_conn.c:1772-1785 | a cancelled stream takes no more sends |
| NwSendEffects.FailEffect | backends/network/nw_conn.c:1560-1592 | a failure tells everything owed, in slot order, and empties the queue |
| NwSendEffects.WakeComes | backends/network/nw_conn.c:796-809 | in every run without a gather larger than the window, a waiting sender of a live stream has a slot whose release wakes it |
| NwSendEffects.IdleTakesIff | backends/network/nw_conn.c:1708-1718 | an idle stream takes a gather if and only if it is at most 1 MiB; a larger one waits with nobody left to wake it |
| NwSendEffects.OversizedWaitsForNothing | backends/network/nw_conn.c:1708-1718 | a complete run in which that happens |
| NwStream.SendRing.constructor | backends/network/nw_internal.h:181-183 | the machine's first state |
| NwStream.SendRing.FindFree | backends/network/nw_conn.c:1709-1714 | the first free slot, or none |
| NwStream.SendRing.SendGather | backends/network/nw_conn.c:1697-1762 | blocked if and only if the stream is live and all slots are in use or the bytes untold leave no room; accepted if and only if it is live, not blocked and can be queued; then the machine's step, in the first free slot |
| NwStream.SendRing.IssueQueue | backends/network/nw_conn.c:940-979 | the loop takes what fits into one batch, in order, and marks exactly the records before an entry that cannot be joined |
| NwStream.SendRing.PumpSends | backends/network/nw_conn.c:908-1046 | the pump is the machine's: one batch, or, wherever joining failed, untouched records and a stream going down |
| NwStream.SendRing.AppCompleteSlot | backends/network/nw_conn.c:271-294 | a completion is delivered and uncounted once, and wakes a blocked sender |
| NwStream.SendRing.TellOne | backends/network/nw_conn.c:539-544 | one step of the fan-out of a batch, keeping the invariant |
| NwStream.SendRing.RetireRefs | backends/network/nw_conn.c:775-784 | retirement of a batch, record by record, and whether it freed a slot |
| NwStream.SendRing.RetireBatch | backends/network/nw_conn.c:768-810 | retirement is the machine's step and keeps the invariant |
| NwStream.SendRing.Synthesize | backends/network/nw_conn.c:297-308 | the sweep delivers exactly what is owed, in slot order, and frees what both sides are done with |
| NwStream.SendRing.FailSends | backends/network/nw_conn.c:1560-1592 | a failure is the machine's step and keeps the invariant |
| NwReceive.RunKeeps | backends/network/nw_conn.c:1097-1298 | every reachable state of a receive side satisfies the invariant |
| NwReceive.InOrderOnce | src/engine/conn.c:1734-1758 | the application has a prefix of the peer's bytes, all but what is held, and the FIN once and last |
| NwReceive.NothingWithheld | backends/network/nw_conn.c:1925-1978 | at rest and not paused, everything received was delivered, and a receive is armed unless the stream ended |
| NwReceive.QuietWhilePaused | src/engine/conn.c:3414-3434 | nothing is delivered while paused |
| NwReceive.OneAtATime | backends/network/nw_conn.c:1191-1260 | a receive is never outstanding while one is held or after the end; the overflow branch is unreachable |
| NwReceive.PauseTakes | backends/network/nw_conn.c:1944-1949 | in every run a pause is taken if and only if the side is open and not ended or something is held; then both sides are paused |
| NwReceive.ResumeTakes | backends/network/nw_conn.c:1949-1978 | and a resume unless that is being delivered; it brings what is held or else the next receive |
| NwReceive.CompletionTaken | backends/network/nw_conn.c:1191-1260 | what a completion brings is held and handed over at once unless paused; an empty one asks for the next |
| NwReceive.TornDown | backends/network/nw_conn.c:1560-1592 | after a teardown nothing more is handed over, in every run |
| NwDelivery.ReceiveSide.constructor | backends/network/nw_conn.c:1262-1281 | a ready stream has a receive armed and has got nothing |
| NwDelivery.CallEffect | src/engine/conn.c:3306-3333 | what a shutdown, a connection close and an end of sending do to the fields of both layers |
| NwDelivery.ReceiveSide.Arm | backends/network/nw_conn.c:1262-1281 | armed if and only if nothing is outstanding, held, ended or torn down |
| NwDelivery.ReceiveSide.DropDeferred | backends/network/nw_conn.c:1165-1175 | the slot is empty |
| NwDelivery.ReceiveSide.OpRecvEnable | backends/network/nw_conn.c:1925-1978 | on a live stream a pause is taken until the end, and then while something is held; a resume likewise, but not during a delivery; what is taken is in force, what is refused leaves no trace |
| NwDelivery.ReceiveSide.RecvEnable | src/engine/conn.c:3414-3434 | a wish that engine and backend take is published in both, any other leaves both as they were |
| NwDelivery.ReceiveSide.RunCallback | src/engine/conn.c:1558-1581 | whatever the application calls inside a callback, in any order, is a run of the machine, and leaves a live stream as it was but for the pause |
| NwDelivery.ReceiveSide.WtDeliver | src/engine/conn.c:1558-1581 | a chunk is handed over, or absorbed after a stop; its end closes the side |
| NwDelivery.ReceiveSide.StreamBytes | src/engine/conn.c:1734-1758 | on a live stream `consumed` is exactly what the application was handed: all, with the end, or, blocked by a pause, a proper part |
| NwDelivery.ReceiveSide.Walk | backends/network/nw_conn.c:1119-1146 | over any regions the application gets the content from the old offset to the new one; blocked if and only if something remains on a live stream; the end goes with the last region |
| NwDelivery.ReceiveSide.DeliverEnd | backends/network/nw_conn.c:1147-1153 | the end alone, once |
| NwDelivery.ReceiveSide.DeliverBytes | backends/network/nw_conn.c:1097-1160 | a completion stays held if and only if something of it was not handed over and the stream lives; else it went out whole, with its end, and is let go |
| NwDelivery.ReceiveSide.OnComplete | backends/network/nw_conn.c:1191-1260 | the whole completion: ended, held, delivered and re-armed, as a run of the machine |
| NwDelivery.ReceiveSide.OnCall | backends/network/nw_conn.c:1925-1978 | a call from outside, with the replay a resume brings, as a run of the machine |
| NwDelivery.ReceiveSide.OnFailure | backends/network/nw_conn.c:1560-1592 | a failure drops what is held, and the calls of the reset callback find nothing to replay |
| NwDelivery.ReceiveSide.Serve | backends/network/nw_conn.c:1097-1298 | for any completions, regions, calls and callbacks: the application has the peer's bytes in order, none twice, on a live stream all but what is held, and the end once and last |
| NwLifecycle.RunKeeps | backends/network/nw_conn.c:2582-2664 | every interleaving keeps the protocol's invariant |
| NwLifecycle.LifecycleSafe | backends/network/nw_conn.c:2763-2798 | stop worker once and never before start, after all accepted posts; on_stopped once, after them; one free, with no reference left |
| NwLifecycle.PostsRunInOrder | backends/network/nw_conn.c:2638-2664 | posts run in the order of acceptance, before rundown |
| NwLifecycle.PostAcceptedIff | backends/network/nw_conn.c:2638-2664 | in every run a post is accepted, with a reference and last in the queue, if and only if no stop has begun |
| NwLifecycle.LastReferenceActs | backends/network/nw_conn.c:2590-2617 | in every run the last reference to go begins the stop nobody asked for, or frees the handle whose lifecycle is over, and else does nothing |
| NwLifecycle.NoUseAfterFree | backends/network/nw_conn.c:2590-2617 | after the free no step that touches the handle is possible |
| NwLifecycle.QuietMeansFreed | backends/network/nw_conn.c:2497-2545 | when everybody is done, everything happened exactly once and the handle is freed |
| NwLifecycle.NeverStuck | backends/network/nw_conn.c:2547-2569 | until then some step is possible that does not need the owner and lowers the number of steps ahead |
| NwLifecycle.RundownEnds | backends/network/nw_conn.c:2547-2569 | and no more such steps can follow each other than that number says |
| NwLifecycle.ManagedHandle.constructor | backends/network/nw_conn.c:3190-3205 | the owner's reference and the construction reference |
| NwLifecycle.ManagedHandle.RetainRef | backends/network/nw_conn.c:2581-2588 | one more reference |
| NwLifecycle.ManagedHandle.ReleaseRef | backends/network/nw_conn.c:2590-2617 | over-release refused; the last release stops, frees, or leaves it to the finisher |
| NwLifecycle.ManagedHandle.AcceptPost | backends/network/nw_conn.c:2647-2663 | accepted with a reference, or refused once closed |
| NwLifecycle.ManagedHandle.BeginStop | backends/network/nw_conn.c:2763-2798 | idempotent; the worker is enqueued here only if the start is over |
| NwLifecycle.ManagedHandle.BeginStarting | backends/network/nw_conn.c:2830-2836 | the start is under way |
| NwLifecycle.ManagedHandle.EndStarting | backends/network/nw_conn.c:2837-2845 | a stop latched meanwhile is enqueued now |
| NwLifecycle.ManagedHandle.Finish | backends/network/nw_conn.c:2532-2540 | the lifecycle is over; freed here if nobody holds it |
| Varint.Decoder.constructor | src/proto/varint.c:69-74 | a fresh decoder |
| Varint.Decoder.Reset | src/proto/varint.c:69-74 | fresh again |
| Varint.Decoder.Feed | src/proto/varint.c:76-108 | takes bytes up to the end of one integer, gives its value, never leaves 62 bits |
| Varint.StepsDecode | src/proto/varint.c:50-67 | byte by byte is the same as from a whole buffer |
| Varint.FormDecodes | src/proto/varint.c:27-67 | every form of a value, shortest or not, decodes to it whatever follows |
| Varint.DecodedIsForm | src/proto/varint.c:50-67 | and whatever decodes is a form of its value |
| FrameHeader.HeaderIsParsed | src/proto/h3_frame.c:36-56 | reading type and length byte by byte finds the header the buffer begins with |
| FrameHeader.HeaderDecoder.constructor | src/proto/h3_frame.c:58-64 | a fresh reader |
| FrameHeader.HeaderDecoder.Reset | src/proto/h3_frame.c:58-64 | fresh again |
| FrameHeader.HeaderDecoder.NextInteger | src/proto/h3_frame.c:66-108 | one integer of the header |
| FrameHeader.HeaderDecoder.Feed | src/proto/h3_frame.c:66-108 | takes bytes up to the end of the header and not one more |
| Capsules.RunIsParse | src/proto/capsule.c:78-203 | the incremental decoder emits what the whole-buffer parser finds and is poisoned exactly when that meets a malformed header |
| Capsules.EatenIsParse | src/proto/capsule.c:121-203 | and looks at the same bytes |
| Capsules.CapsuleDecoder.constructor | src/proto/capsule.c:62-74 | a fresh decoder |
| Capsules.CapsuleDecoder.EmitCapsule | src/proto/capsule.c:95-119 | the capsule is handed out and the decoder fresh |
| Capsules.CapsuleDecoder.TakePayload | src/proto/capsule.c:170-192 | code and reason bytes go where they belong, within 32 bits and 1024 bytes |
| Capsules.CapsuleDecoder.Feed | src/proto/capsule.c:121-203 | one capsule, more bytes needed, or malformed; latched from then on |
| Capsules.FeedAll | src/proto/capsule.h:108-120 | calling again until the bytes are used up or malformed gives what the byte run gives |
| Capsules.DecodeChunks | src/proto/capsule.h:108-120 | any chunking gives the capsules, outcome and consumption of the whole |
| CapsuleWire.RoundTrip | src/proto/capsule.c:24-60 | any concatenation of well-formed capsules decodes to that list |
| CapsuleWire.ParsedIsWritten | src/proto/capsule.c:121-203 | every byte string is such a concatenation, reported in order, and a rest without capsules |
| CapsuleWire.BadWireParses | src/proto/capsule.c:78-93 | a known capsule of impossible length is malformed whatever follows |
| CapsuleWire.AcceptedByType | src/proto/capsule.c:78-93 | by type and length: close with 4 to 1028 bytes and an empty drain are reported as what they say, other lengths are malformed, every other type is skipped |
| CapsuleWire.CloseMeans | src/proto/capsule.c:31-60 | a close capsule brings back its code and reason, at most 1024 bytes |
| CapsuleWire.WriteVarint | src/proto/varint.c:27-48 | writes the shortest form and nothing else |
| CapsuleWire.EncodeHeader | src/proto/h3_frame.c:13-33 | both integers, or an error and an untouched buffer |
| CapsuleWire.EncodeDrain | src/proto/capsule.c:24-29 | the bytes 80 00 78 ae 00, or an untouched buffer |
| CapsuleWire.EncodeClose | src/proto/capsule.c:31-60 | the wire form of the capsule, or an error and an untouched buffer |
| ControlStream.RunIsMeaning | src/engine/conn.c:1233-1439 | walking any bytes one by one means what the whole string means |
| ControlStream.LimitsMoveOneWay | src/engine/conn.c:1328-1345 | GOAWAY ids never rise, MAX_PUSH_ID never falls, SETTINGS is first and once |
| ControlStream.ControlWalk.constructor | src/engine/conn.c:62-72 | a walk at its first header |
| ControlStream.ControlWalk.TakeHeader | src/engine/conn.c:1239-1292 | a header is refused with the code RFC 9114 gives it, or its payload awaited |
| ControlStream.ControlWalk.TakePayload | src/engine/conn.c:1294-1310 | the payload is buffered within 512 bytes and the frame processed when complete |
| ControlStream.ControlWalk.ControlBytes | src/engine/conn.c:1233-1439 | a delivery of any size leaves the state its bytes lead to |
| ControlStream.WalkChunks | src/engine/conn.c:1233-1439 | any split into deliveries gives state, close code and reports of the whole |
| ControlFrames.AdmittedMeans | src/engine/conn.c:1233-1439 | after any list of admitted frames: settings seen, the last GOAWAY and MAX_PUSH_ID stored, the reports in order, and what follows is read after them |
| ControlFrames.NextFrameCloses | src/engine/conn.c:1239-1390 | which frame closes the connection after those before it, and with which code, by type, length, value and history; no other does |
| ControlFrames.HeaderAloneCloses | src/engine/conn.c:1239-1292 | a header that is ruled out closes before any payload has come |
| Establishment.Confluent | src/engine/conn.c:2076-2095 | response and native id may change places, with any GOAWAY frames around: same state, id, subprotocol and reports |
| Establishment.EstablishedOnce | src/engine/conn.c:707-746 | establishment at most once, with the id of the CONNECT stream |
| Establishment.NeverBeyondLimit | src/engine/conn.c:1338-1364 | never for a request at or beyond an announced limit |
| Establishment.EstablishedIff | src/engine/conn.c:2076-2095 | with response and id there, in either order, the session is established at once if and only if the limits so far are valid and allow the id; else it has failed |
| ParkedConnect.ParkedIsImmediate | src/engine/conn.c:1410-1435 | a request complete before SETTINGS ends like one after them: response, session, slot |
| ParkedConnect.RequestOutcome | src/engine/conn.c:2410-2426 | in both orders: the response asked for, 200 for an accepted request, the session reported after it, and what ends it |
| Huffman.VerifyHuffman | scripts/gen_qpack_tables.py:650-690 | the check accepts exactly the canonical tables |
| Huffman.AcceptedTiles | scripts/gen_qpack_tables.py:670-690 | what it accepts tiles the 30-bit code space: prefix-free, complete, EOS last |
| Huffman.TilesAccepted | scripts/gen_qpack_tables.py:670-690 | and it accepts every tiling table with the known codes |
| Huffman.SampleTiles | scripts/gen_qpack_tables.py:650-690 | some table is accepted and tiles, so none of this is empty |
| Huffman.BuildDecodeTables | scripts/gen_qpack_tables.py:713-736 | rows of growing length that cover the 256 symbols with consecutive codes; its check cannot fail on a tiling table |
| Huffman.DecodeEncode | src/proto/qpack_static.c:143-190 | reading code after code inverts encoding, with up to seven ones of padding |
| Huffman.DecodedWasEncoded | src/proto/qpack_static.c:143-190 | and nothing else says the same text |
| HuffmanDecoder.HitIsCode | src/proto/qpack_static.c:158-170 | the row comparison succeeds only on complete codes; smaller numbers cannot come up |
| HuffmanDecoder.TakeBit | src/proto/qpack_static.c:153-172 | one bit completes a code, and that one, or no code |
| HuffmanDecoder.HuffmanDecode | src/proto/qpack_static.c:143-190 | accepts exactly the padded encodings of texts that fit, and returns the text |
| Origin.ScanOctet | src/engine/conn.c:327-341 | a run of digits is an octet |
| Origin.ScanIPv4 | src/engine/conn.c:323-348 | exactly the IPv4 addresses of section 3.2.2 of RFC 3986 |
| Origin.ScanAllIsIPv6 | src/engine/conn.c:349-402 | the scan read as a function accepts exactly the IPv6 addresses |
| OriginTuples.ScanIPv6 | src/engine/conn.c:349-402 | so does the scanning loop |
| OriginTuples.ScanLiteral | src/engine/conn.c:404-419 | exactly IPvFuture and IPv6 literals |
| OriginTuples.ScanName | src/engine/conn.c:449-463 | exactly the non-empty registered names |
| OriginTuples.ScanPort | src/engine/conn.c:466-478 | exactly nothing, or a colon and 1 to 65535, for any number of digits |
| OriginTuples.ScanTuple | src/engine/conn.c:421-480 | exactly scheme, host and optional port |
| OriginTuples.ParseOrigin | src/engine/conn.c:482-509 | null, one origin, a list of origins with single spaces, or invalid |

## Left out

- MsQuic, Network.framework, dispatch and TLS: their callbacks are events, one SEND_COMPLETE per accepted send, no nested callback inside a refused submission, nothing accepted after a stream's SHUTDOWN_COMPLETE.
- StreamMirror.NextKeeps: engine and API are modelled on values with an explicit stack of interrupted work; update in place is modelled for the slot arrays and the calls of `SessionCalls.dfy`. A driver operation runs no event of the engine before it returns: the MsQuic backend records completions that come inline and delivers them at a root, and the engine's check for a slot reused meanwhile (`src/engine/conn.c`, line 3318) is not exercised. When a raw shutdown fails while the session ends, the model closes all slots before the teardown callbacks run, the code some of them after; nothing can be sent or opened in between.
- MirrorRuns.MirrorHolds: stated for budgeted sessions, and for others while no open is perilous, because it is false beyond that.
- SessionCalls.Session.OpenStream: a transport that refuses to open a stream, and a preamble that cannot be sent, are not modelled in place.
- EventOrder.ClosedComesLast: the log holds every callback of the session but on_send_complete, which may still come after on_closed.
- EventOrder.FailureOrderIff: on_failed is not proved to come after every on_stream_closed, because it does not.
- FlushRuns.BudgetSafe: states that a completion to come exists for a blocked stream, not that the transport delivers it.
- Capsules.FeedAll: the engine's own loop also stops at a close capsule, which is not modelled.
- NwSendRuns.ExactlyOnce: the failure sweep is one step; sends from inside its callbacks are not modelled.
- NwSendEffects.WakeComes: says nothing of a sender after a gather larger than the whole window was refused on the stream, because then it is false; and it states that a slot to be released exists, not that the transport releases it.
- NwDelivery.ReceiveSide.Serve: the preamble in front of the first payload byte is not modelled. Regions are not empty, and a slot that was released and reused is one that is no longer attached. This backend cancels the whole stream when one side is shut down, so a stop tears it down.
- NwLifecycle.LifecycleSafe: the doorbell, its timer, `join` and the memory of the driver behind the handle are not modelled.
- BoundedAdmission.LayersAgree: collecting a record and opening a stream are one step each.
- Establishment.Confluent: responses that are refused or malformed end the session on the spot and are not modelled; validity of the native id report is assumed.
- ParkedConnect.ParkedIsImmediate: one request; DATA or invalid trailers behind a parked request refuse it, which is not modelled, and a second request is refused.
- ControlStream.WalkChunks: the SETTINGS payload check and what the session does on a report are parameters.
- Capsules.DecodeChunks: what the session stream does with the capsules, and DATA after a close capsule, are not modelled; there the outcome does depend on the split.
- HuffmanDecoder.HuffmanDecode: the code table is any table the generator accepts; its 257 entries and the cross-check against another implementation's tree are not.
- QPACK field sections, Structured Fields, datagrams, configuration, error mapping, ABI structs, statistics and test seams are not part of this model.
