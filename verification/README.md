# The key cabinet, modelled

This project models how a key-lending system keeps its promises across three layers.

* **The ledger** (Go server, PostgreSQL): device operations, borrow records, reservations, keys, slots and
  operation events. Each repository method is one transaction over several of these tables. `OperationTx` and
  `ReservationTx` say what each does, as functions from tables to a commit or a rollback; `LedgerStore` has the
  object that works statement by statement and is proved to do just that. `Services` adds the checks in front
  (pickup, return, direct dispensing, reservations), `ServiceCalls` the calls as they run.
* **The device protocol** (MQTT gateway): at-least-once delivery with a bounded cache in front of the ledger
  (`Redelivery`, `Gateway`), cancelling against an acknowledgement of the cabinet (`AbortProtocol`, `EarlyConsent`),
  starting at most once (`Dispatch`, `Idempotency`, `Races`), the timeout sweep (`TimeoutSweep`, `SweepOrder`), device
  liveness (`Heartbeat`).
* **Around them**: the inventory reconciler (`Alerts`, `Reconciler`), return reminders (`Reminders`,
  `ReminderSweep`), and the cabinet firmware with an abort that may strike between any two actions
  (`CabinetLog`, `CabinetMotor`, `CabinetWorker`) and a queue of commands (`CommandQueue`). `Handover` joins the
  server's cancels and the cabinet's queue.

A run of the ledger is any sequence of steps (`Steps.Step`), in any order and with any data; concurrent calls are
interleavings of such steps. The invariants (`Coupling`, `Bookings`, `EventLog`, `RfidGate`, `OneWinner`,
`Conservation`) are proved for every run by showing that each step moves the tables in one of a few shapes (`Moves`)
and that each shape keeps the invariant. `StartRules`, `EndRows`, `ReserveRules` and `Reporting` say column by column
who is granted what and which rows each request, report and sweep leaves, without the functions that compute them;
`Causes` and `Loans` make that theorems about runs: nothing happens without a step that says so. `Reachable` starts
them all from a newly commissioned cabinet, and `Scenario` runs an ordinary pickup from there. What slots report is
part of every run: the inventory reconciler writes the presence of a slot whenever the cabinet reports it
(`Steps.SeeSlot`), in the middle of operations too. The coupling invariant therefore says nothing about presence;
`SlotReports` and `Conservation` say exactly what presence and stock are after any run.

## What the proofs found

* **Cancel without consent.** `CancelOperation` reads the status once. If it reads AUTHORIZED and the operation is
  dispatched before the write, it commits CANCELLED without asking the cabinet (`AbortProtocol.CancelWithoutConsent`).
  With SENT or EXECUTING read, consent is always there (`AbortProtocol.CancelImpliesConsent`).
* **Early acknowledgements count.** The acknowledgement is matched to the call after it registered, but the ledger may
  have handled it before. That is excluded, over every run, exactly if no successful one is recorded and not yet passed
  on as the call registers (`EarlyConsent.TimelyIff`, reached in `EarlyConsent.EarlyAckHappens`). An answer to a former
  call that is handled only after the new one has registered counts as well, and is not told apart.
* **Aborts hit whoever is at work.** The cabinet acknowledges an abort at once and without looking at the operation
  it names. It stops that operation iff its command is the one at work; an abort for a waiting command stops another
  one instead (`CommandQueue.AbortHeededIff`, `CommandQueue.WrongCommandStopped`).
* **Cancelled, and handed out.** Consent does not mean that the key stays. If it has been taken when the abort arrives,
  or the command still waits, or the worker has looked at the flag and is about to read the slot, the operation can be
  cancelled with consent and the key be out; a success report then changes nothing and the key counts as in its slot
  (`Handover.HandedOutUnlentIff`, `Handover.CancelledNeverLent`, reached in `Handover.HandedOutHappens`).
* **Presence runs ahead.** Cabinets report an empty slot before they report the pickup, so in between slots and key
  statuses disagree; the next completed operation on the key settles it (`SlotReports.PickupSeenEarly`,
  `Conservation.StockAccounted`).
* **Check, then prepare.** If a key is lent between the checks of a pickup and its transaction, it gets a second open
  borrow; nothing checks this again (`Races.LateCoupledIff`, reached in `Races.LentTwice`). Bookings have such windows
  too (`Races.LateBookedIff`, `Races.LateReservationBookedIff`).
* **Overtaken pickups.** Cancelling or expiring a reservation does not look at operations; a pickup under way for it
  can then never be completed, even if the key has been taken: its success report is rolled back
  (`OneWinner.PickupCommitsIff`, `OneWinner.OvertakenPickupNeverSucceeds`, reached in `Scenario.SuccessRolledBack`).
* **Lost alerts.** Alert ids are built from timestamp and slot number only; two cabinets can collide
  (`Alerts.AlertKeptIff`, `Alerts.SameStampLoses`).
* **Redelivered confirmations.** Handling a message again is a no-op unless it is an RFID confirmation with another
  tag than the stored one, which overwrites it (`Redelivery.ReprocessHarmlessIff`).
* **Find and update.** `OnDeviceEvent` writes back the whole row it read; not done in one piece, it would reopen an
  operation that ended in between (`OneWinner.StaleUpdateAbsorbsIff`).
* **Laxer retries.** A direct dispense repeated by room number is answered with any earlier pickup of the user at that
  cabinet under the same request id (`Idempotency.DispenseAnsweredForever`).

Where code and documentation differ, the model follows the code: `docs/03-STATE-MACHINE.md` takes a failed return from
RETURNING to EXCEPTION and has no lending without a reservation, the code goes back to BORROWED and dispenses directly; a
returned key becomes AVAILABLE even if it has active reservations.

## Model

| member | source | states |
|---|---|---|
| Reachable.AlwaysSound | server/internal/infrastructure/postgres/operation_repository.go:28-88 | From a commissioned cabinet with nothing lent, over any run of requests, dispatches, device reports, timeouts, cancellations, reservation writes, reviews, expiries and presence reports: the coupling invariant, no double booking, shaped logs, consistent outcomes and gated completions hold, every operation, record and reservation has its cause in the run, and the stock has changed by exactly the drift of the steps |
| Reachable.FreshIsSound | server/internal/infrastructure/postgres/operation_repository.go:28-35 | Such a commissioned cabinet satisfies every invariant the run theorems start from, so none of them is vacuous |
| Causes.EveryOperationHasItsCause | server/internal/infrastructure/postgres/operation_repository.go:64-488 | Over every run: each operation was asked for by the user it names, and a step of the run made it what it is, at the time it is stamped with: begun, reported successful or failed (with this code and text) by its own cabinet, not sent, timed out or cancelled |
| Loans.LoanTimes | server/internal/infrastructure/postgres/operation_repository.go:254-400 | In every reachable ledger a record is COMPLETED iff it has a return time and past pickup iff it has a pickup time, and these are the times of success reports, by the right cabinet, of a return of this record and of its pickup |
| Loans.OnlyOwnersPickUp | server/internal/service/operation_service.go:93-160 | In every reachable ledger a pickup against a reservation is by the one who made it, for its key, was started inside its window and lends until its return time; every operation is for the user, key, cabinet and slot of its record |
| Loans.RunLoans | server/internal/infrastructure/postgres/operation_repository.go:254-488 | The invariants behind both, record by record, in every reachable ledger |
| ReserveRules.EveryReservationIsExplained | server/internal/infrastructure/postgres/reservation_repository.go:21-192 | Over every run: each reservation was asked for by its user, for this key and these times, and a step of the run made it what it is: reviewed so inside its window, cancelled, used by a pickup that succeeded then, or expired after its window |
| ReserveRules.NoneExpiresEarly | server/internal/infrastructure/postgres/reservation_repository.go:166-192 | A reservation does not expire in a run none of whose expiries and reviews happens at or after the end of its window |
| CouplingRuns.RunKeeps | server/internal/infrastructure/postgres/operation_repository.go:254-488 | In every reachable state, presence reports at any moment included, operations, borrow records, reservations and keys are coupled: unique request index, at most one active operation per key and device, at most one open borrow per key, working borrows held by an operation, keys out exactly with their borrow, RESERVED keys backed |
| CouplingRuns.StepKeeps | server/internal/infrastructure/postgres/operation_repository.go:28-488 | Every single step of the ledger keeps the coupling invariant |
| Coupling.WorkingIffHeld | server/internal/infrastructure/postgres/operation_repository.go:28-51 | A borrow is BORROWING (RETURNING) iff exactly one active PICKUP (RETURN) operation refers to it |
| Coupling.HolderUnique | server/internal/infrastructure/postgres/operation_repository.go:28-62 | The operation at work on a borrow record is unique |
| Coupling.OutIffLent | server/internal/infrastructure/postgres/operation_repository.go:536-556 | A key is BORROWED iff it has an open borrow that is past pickup |
| Moves.StepMoves | server/internal/infrastructure/postgres/operation_repository.go:28-488 | Every step of the ledger, with every branch and error path, is one of a few shapes: only side columns change, only the presence of slots changes, reservations change, one operation starts on a free key and cabinet, or one active operation ends |
| Moves.AbandonMovesBorrow | server/internal/infrastructure/postgres/operation_repository.go:402-488 | Under the coupling invariant the unguarded borrow update of Fail and the guarded ones of Timeout and Cancel reach the same status, and never a closed borrow |
| Conservation.StockAccounted | server/internal/infrastructure/postgres/operation_repository.go:536-556 | Over every run PRESENT slots plus keys out has changed by exactly the drift of its steps: what presence reports change, plus one for a pickup that finds its slot not PRESENT, minus one for a return that finds it PRESENT |
| Conservation.StepStock | server/internal/infrastructure/postgres/operation_repository.go:536-556 | The same for every single step, with every branch and error path |
| Conservation.StockConserved | server/internal/infrastructure/postgres/operation_repository.go:536-556 | From agreement of slots and key statuses the sum is constant, and the agreement kept, over any run whose presence reports repeat what is stored, operations of all kinds included |
| Conservation.SeenStockIff | server/internal/service/inventory_reconciler.go:97-112 | A presence report keeps the sum iff it agrees with what is stored on whether the slot is full |
| Conservation.PickupSeenEarlyStock | server/internal/service/inventory_reconciler.go:97-112 | In an ordinary pickup the report that the slot is empty comes before the success: it takes one from the sum, and the success gives it back |
| SlotReports.PresenceIsReportedOrExpected | server/internal/service/inventory_reconciler.go:97-112 | In every reachable state the presence of a slot is the one last reported since its key went out or came back, and if there was none, the one the status of the key calls for |
| SlotReports.StepSlot | server/internal/infrastructure/postgres/operation_repository.go:536-556 | What one step does to the slot of one key: a completion settles it, a report sets it, everything else leaves it |
| SlotReports.SeenAgreesIff | server/internal/infrastructure/postgres/slot_repository.go:52-59 | From agreement, a presence report keeps slots and key statuses in agreement iff it repeats what is stored |
| SlotReports.PickupSeenEarly | server/internal/service/inventory_reconciler.go:97-112 | The failing report during an active pickup: the coupling invariant holds, slot and key disagree, and the success of the pickup settles it |
| SlotReports.ReturnSeenEarly | server/internal/service/inventory_reconciler.go:97-112 | The same for the key that is reported in before its return is complete |
| OneWinner.ExactlyOneEnding | server/internal/infrastructure/postgres/operation_repository.go:254-488 | In any interleaving of CompletePickup, CompleteReturn, Fail, Timeout and Cancel exactly one step ends an operation that is ended, and none one that is not |
| OneWinner.WinnerDecides | server/internal/infrastructure/postgres/operation_repository.go:254-488 | The committing conclusion fixes the final operation status, and the borrow status is a function of action and winner |
| OneWinner.LosersChangeNothing | server/internal/infrastructure/postgres/operation_repository.go:260-265 | On a terminal operation every conclusion leaves all tables as they are; only Cancel reports an error |
| OneWinner.EndedForever | server/internal/infrastructure/postgres/operation_repository.go:579-581 | Over any run a terminal operation keeps its status and a closed borrow is never reopened |
| OneWinner.RunOutcomes | server/internal/infrastructure/postgres/operation_repository.go:254-488 | In every reachable state a lost pickup is an EXCEPTION, a lost return left the record BORROWED or later, a finished return is COMPLETED |
| OneWinner.PickupCommitsIff | server/internal/infrastructure/postgres/operation_repository.go:254-304 | In every coupled state a success report completes a running pickup iff its reservation, if it has one, is still active; otherwise it is rolled back with that error |
| OneWinner.ReturnCommitsIff | server/internal/infrastructure/postgres/operation_repository.go:306-400 | And a running return iff the RFID check has no objection |
| OneWinner.OvertakenPickupNeverSucceeds | server/internal/infrastructure/postgres/operation_repository.go:276-286 | A pickup whose reservation was cancelled, rejected or expired meanwhile can never succeed, over any further run |
| OneWinner.OvertakenReportRollsBack | server/internal/infrastructure/postgres/operation_repository.go:276-286 | Any pickup that is prepared and begun, and whose reservation is then cancelled: every success report for it is rolled back |
| Scenario.SuccessRolledBack | server/internal/infrastructure/postgres/operation_repository.go:276-286 | An input, run from commissioning on: reserve, start, begin, cancel the reservation, success report, rolled back |
| Scenario.RunningIsReached | server/internal/infrastructure/postgres/operation_repository.go:64-88 | The states of the inputs are reached from a commissioned cabinet |
| OneWinner.StaleUpdateAbsorbsIff | server/internal/infrastructure/postgres/operation_repository.go:157-183 | Taken apart from the read before it, the whole-row update of a scanned tag keeps ended operations ended iff the operation has not ended in between |
| OneWinner.FailAbsorbsIff | server/internal/infrastructure/postgres/operation_repository.go:402-430 | The unguarded Fail on an active operation leaves closed borrows closed iff its borrow is open, or an EXCEPTION that stays one |
| OneWinner.GuardedAbsorb | server/internal/infrastructure/postgres/operation_repository.go:432-488 | With their guards Timeout and Cancel do so whatever the borrow is |
| EventLog.RunShaped | server/internal/infrastructure/postgres/operation_repository.go:558-570 | With events entering through the gateway every log has sequence numbers 1..n, starts REQUEST_RECEIVED, AUTH_CONFIRMED, and carries an ending event iff the operation is terminal, as its last event and naming the final status |
| EventLog.ShapedEndings | server/internal/infrastructure/postgres/operation_repository.go:212-252 | A log of that shape holds exactly one ending event if the operation is terminal, none otherwise |
| EventLog.BareCancelledBreaksShape | server/internal/service/operation_service.go:370-388 | Without the renaming in the gateway a reported CANCELLED would break the shape exactly if it comes from the right cabinet, on an active operation, and is not stored yet |
| EventLog.StepLogs | server/internal/infrastructure/postgres/operation_repository.go:193-252 | Every step leaves all logs alone, appends one event to one active operation, or opens the log of a new one |
| RfidGate.RunGated | server/internal/infrastructure/postgres/operation_repository.go:306-400 | In every reachable state each COMPLETED borrow was completed by a return for which an RFID confirmation was handled; a recorded tag was carried by such a confirmation and is the key tag up to letter case |
| RfidGate.VerdictGates | server/internal/infrastructure/postgres/operation_repository.go:329-370 | A verdict without error means a confirmation is logged or a tag stored, and that a tagged key matched |
| RfidGate.CommittedTagFits | server/internal/infrastructure/postgres/operation_repository.go:354-375 | Skipping the comparison when the key row is missing is harmless: a committed return has the row, and the tag fits it |
| Bookings.NeverDoubleBooked | server/internal/infrastructure/postgres/reservation_repository.go:66-111 | In every reachable state active reservations of one key have disjoint half-open ranges, and none overlaps the time an open borrow was promised, its own reservation excepted |
| Bookings.AvailabilityExact | server/internal/service/reservation_service.go:62-181 | A proper request by a verified user is granted iff CanReserveKey answers yes for the range it reserves |
| Bookings.AvailabilityIff | server/internal/service/reservation_service.go:243-283 | On the rows: a key is announced free iff it is in service, not lent, its cabinet online, and no reservation shares a moment with the time asked about |
| Bookings.AvailabilitySound | server/internal/service/reservation_service.go:243-283 | If [s, e) is announced free, every well-ordered window inside it can be reserved in the same state |
| Bookings.UserCheckImplied | server/internal/service/reservation_service.go:142-151 | On stored non-empty ranges the per-user overlap check finds nothing FindConflicts would miss |
| Bookings.FreeInside | server/internal/infrastructure/postgres/reservation_repository.go:66-74 | A range free of conflicts is free in every part |
| ExpiryOrder.ExpireOneMore | server/internal/infrastructure/postgres/reservation_repository.go:177-190 | Expiring one more overdue reservation and releasing its key if unreserved comes to the same after any others |
| ExpiryOrder.AllExpired | server/internal/infrastructure/postgres/reservation_repository.go:194-207 | With all overdue reservations done the result is the batch: exactly those are EXPIRED, and exactly the RESERVED keys that lost one and have none left are released |
| LedgerStore.Ledger.ExpireBefore | server/internal/infrastructure/postgres/reservation_repository.go:166-192 | On the columns, in any row order: just the PENDING, APPROVED or ACTIVE rows with windowEnd before now expire, just the RESERVED keys that lose such a row and keep no other are released, and the number of those rows is returned |
| ReserveRules.ExpiredRows | server/internal/infrastructure/postgres/reservation_repository.go:166-192 | What the batch does to every row of both tables |
| LedgerStore.Ledger.PreparePickup | server/internal/infrastructure/postgres/operation_repository.go:28-35 | Borrow row, operation row and two events are stored together or not at all |
| LedgerStore.Ledger.PrepareReturn | server/internal/infrastructure/postgres/operation_repository.go:37-51 | A BORROWED record of that user goes to RETURNING together with the operation, or nothing changes |
| LedgerStore.Ledger.PrepareOperation | server/internal/infrastructure/postgres/operation_repository.go:53-62 | The operation is stored AUTHORIZED with its first two events if id, request, device and key admit it; which error otherwise |
| LedgerStore.Ledger.BeginExecution | server/internal/infrastructure/postgres/operation_repository.go:64-88 | Only an AUTHORIZED operation becomes EXECUTING, stamped and logged; which error otherwise |
| LedgerStore.Ledger.AppendEventIfActive | server/internal/infrastructure/postgres/operation_repository.go:212-252 | Events of terminal operations and stored ids are skipped; otherwise the next sequence number is used and the first acknowledgement stamps the operation |
| EndRows.AppendRows | server/internal/infrastructure/postgres/operation_repository.go:212-252 | The rows after an event: logged with its data and time if new and the operation unfinished, the first acknowledgement stamped |
| LedgerStore.Ledger.CompletePickup | server/internal/infrastructure/postgres/operation_repository.go:254-304 | Reservation, borrow, key, slot, operation and event move together as the specification says, or everything is rolled back, with the same error |
| LedgerStore.Ledger.CompleteReturn | server/internal/infrastructure/postgres/operation_repository.go:306-400 | The same for returns, RFID check included |
| LedgerStore.Ledger.CheckRfid | server/internal/infrastructure/postgres/operation_repository.go:329-370 | The strict check yields exactly the specified verdict |
| EndRows.VerdictIff | server/internal/infrastructure/postgres/operation_repository.go:329-370 | What a return must show, exactly: a confirmation or a stored tag, and if the key has a tag, one equal up to letter case and spaces around it; which error otherwise |
| EndRows.FoldMeans | server/internal/infrastructure/postgres/operation_repository.go:365-370 | The tag comparison: the same letters, position by position, in either case |
| EndRows.TrimMeans | server/internal/infrastructure/postgres/operation_repository.go:329-350 | What trimming leaves: the text without the white space around it |
| EndRows.PickupRows | server/internal/infrastructure/postgres/operation_repository.go:254-304 | The rows after a pickup, column by column: operation, record with its pickup time, used reservation, key, slot, event |
| EndRows.ReturnRows | server/internal/infrastructure/postgres/operation_repository.go:306-400 | The rows after a return: record COMPLETED at that time, verified, with the tag it went by and no notes; key, slot, operation, event |
| EndRows.PickupAccepted | server/internal/infrastructure/postgres/operation_repository.go:254-304 | Which success reports end a running pickup, and the error for each that does not |
| EndRows.ReturnAccepted | server/internal/infrastructure/postgres/operation_repository.go:306-400 | The same for returns |
| LedgerStore.Ledger.Fail | server/internal/infrastructure/postgres/operation_repository.go:402-430 | Ends an active operation and overwrites its borrow; nothing on a terminal one |
| LedgerStore.Ledger.Timeout | server/internal/infrastructure/postgres/operation_repository.go:432-460 | Ends an active operation and releases its borrow if at work; nothing on a terminal one |
| LedgerStore.Ledger.Cancel | server/internal/infrastructure/postgres/operation_repository.go:462-488 | Ends an active operation and releases its borrow if at work; an error on a terminal one |
| EndRows.FailRows | server/internal/infrastructure/postgres/operation_repository.go:402-430 | The rows after a failure: code, text and time on the operation, the text on the record, EXCEPTION for a pickup and BORROWED for a return |
| EndRows.TimeoutRows | server/internal/infrastructure/postgres/operation_repository.go:432-460 | The rows after a timeout |
| EndRows.CancelRows | server/internal/infrastructure/postgres/operation_repository.go:462-488 | The rows after a cancel |
| LedgerStore.Ledger.UpdateKeyAndSlot | server/internal/infrastructure/postgres/operation_repository.go:536-556 | Blank references are skipped, a missing row is an error |
| LedgerStore.Ledger.Create | server/internal/infrastructure/postgres/reservation_repository.go:21-33 | An active reservation is stored only outside all active ranges of its key, and reserves an AVAILABLE key |
| LedgerStore.Ledger.UpdateCancelled | server/internal/infrastructure/postgres/reservation_repository.go:76-111 | The row becomes CANCELLED without used_at whatever it has become since it was read, and a RESERVED key without active reservations is released |
| LedgerStore.Ledger.Review | server/internal/infrastructure/postgres/reservation_repository.go:113-164 | Approval, rejection and the expiry that is committed and still reported as an error |
| ReserveRules.ReviewRows | server/internal/infrastructure/postgres/reservation_repository.go:113-164 | On the rows: approved becomes APPROVED and keeps its key, rejected becomes REJECTED and lets go of it unless another reservation holds it; a window that is over expires whatever the review says |
| LedgerStore.Ledger.ReleaseKeyIfUnreserved | server/internal/infrastructure/postgres/reservation_repository.go:194-207 | A RESERVED key is released iff it has no active reservation |
| ServiceCalls.OperationService.StartPickup | server/internal/service/operation_service.go:71-178 | The ordered checks, idempotency, prepare and dispatch end exactly in the specified tables and answer; a refusal changes nothing |
| StartRules.PickupPreparedIff | server/internal/service/operation_service.go:71-168 | On the rows: a new request is prepared iff the reservation is the caller's own, granted and inside its window, key and slot are in one cabinet (the one asked), in place and enabled, the cabinet is online by row and gateway, and nothing is under way or lent; the stored rows, column by column |
| StartRules.PickupRefusals | server/internal/service/operation_service.go:71-132 | And otherwise the refusal that belongs to the first of these that fails, with nothing changed |
| ServiceCalls.OperationService.CheckPickup | server/internal/service/operation_service.go:93-136 | The early returns amount to the specified first obstacle, both slot lookups included |
| ServiceCalls.OperationService.LoadSlot | server/internal/service/operation_service.go:418-443 | The two lookups together find the slot the key names iff it exists |
| ServiceCalls.OperationService.StartReturn | server/internal/service/operation_service.go:180-253 | The same for returns |
| StartRules.ReturnPreparedIff | server/internal/service/operation_service.go:180-236 | On the rows: when a return is prepared, what is stored, and which refusal otherwise |
| ServiceCalls.OperationService.CheckReturn | server/internal/service/operation_service.go:197-222 | The early returns amount to the specified first obstacle, both slot lookups included |
| ServiceCalls.OperationService.DirectDispense | server/internal/service/cabinet_service.go:127-336 | The same for direct dispensing |
| StartRules.DispensePreparedIff | server/internal/service/cabinet_service.go:127-336 | On the rows: when a key is dispensed without a reservation, what is stored and until when it is lent, and which refusal otherwise |
| ServiceCalls.OperationService.CheckDispense | server/internal/service/cabinet_service.go:184-277 | The early returns amount to the specified first obstacle |
| ServiceCalls.OperationService.EnsureDeviceReady | server/internal/service/operation_service.go:445-467 | Stored status first, then the gateway: which error in which case |
| ServiceCalls.OperationService.DispatchPrepared | server/internal/service/operation_service.go:520-532 | Begin, command, and failure if the command was not sent |
| ServiceCalls.PreparedIsDispatched | server/internal/service/operation_service.go:520-532 | A prepared operation ends up EXECUTING iff its command was sent, else FAILED; no other operation changes |
| ServiceCalls.StartedKeeps | server/internal/service/operation_service.go:71-253 | The coupling invariant holds again when a start call is over, however it went |
| ServiceCalls.OperationService.OnDeviceEvent | server/internal/service/operation_service.go:349-390 | An event reaches exactly the transaction its type and the action of the operation select; unknown operations and foreign cabinets are refused |
| ServiceCalls.OperationService.CancelOperation | server/internal/service/operation_service.go:277-313 | Succeeds iff the caller owns an operation that is not terminal and, if it was running, the abort was acknowledged; otherwise nothing changes |
| ServiceCalls.OperationService.ExpireTimedOutOperations | server/internal/service/operation_service.go:315-343 | Without interference: exactly the overdue operations, their logs and borrow records are timed out, all other rows are untouched, and their number is returned; a timeout that is not positive is refused |
| ServiceCalls.SweptRows | server/internal/service/operation_service.go:315-343 | On the rows: just the unfinished operations whose sent, else started, else created time is before the cut-off end, as timed out at this moment |
| ServiceCalls.OperationService.CreateReservation | server/internal/service/reservation_service.go:62-181 | The checks, defaults and conflict loops end in the specified result |
| ReserveRules.ReserveGrantedIff | server/internal/service/reservation_service.go:62-181 | On the rows: who is granted which time, the stored reservation with its defaults, the reserved key, and which refusal otherwise |
| ServiceCalls.OperationService.UserConflicts | server/internal/service/reservation_service.go:142-151 | The loop finds an overlapping active reservation of the user iff there is one |
| ServiceCalls.OperationService.CancelReservation | server/internal/service/reservation_service.go:225-241 | Only the owner cancels, and only an active reservation |
| ReserveRules.CancelReservationRows | server/internal/service/reservation_service.go:225-241 | On the rows: an own reservation that has not ended becomes CANCELLED and lets go of its key unless another holds it; which refusal otherwise |
| Dispatch.OneStartPerRequest | server/internal/service/operation_service.go:520-532 | Over any interleaving of start calls and all other steps, two start commands handed to the gateway never serve the same request id |
| Dispatch.RunStartsOnce | server/internal/infrastructure/postgres/operation_repository.go:64-88 | In every reachable world no operation is commanded twice, and none that is about to be commanded has been |
| Idempotency.PickupAnsweredForever | server/internal/service/operation_service.go:85-91 | Once a pickup has been prepared and whatever has happened since: its request, made again, changes nothing and is answered with that operation iff user, reservation and cabinet agree |
| Idempotency.ReturnAnsweredForever | server/internal/service/operation_service.go:188-194 | The same for returns: iff user, borrow record and device agree |
| Idempotency.DispenseAnsweredForever | server/internal/service/cabinet_service.go:171-182 | The same for direct dispensing, once cabinet and user are let through: iff user and cabinet agree, and the key if the request names one; the room is never compared |
| Idempotency.RunKeepsRequests | server/internal/infrastructure/postgres/operation_repository.go:105-118 | Over any run a request id keeps its operation, and an operation its task |
| Races.LateCoupledIff | server/internal/infrastructure/postgres/operation_repository.go:28-35 | Checks made on one state and the transaction on a later one, for any pickup: the coupling invariant is kept iff the key has no open borrow by then, the one check that no index repeats |
| Races.LateBookedIff | server/internal/infrastructure/postgres/operation_repository.go:28-35 | And bookings stay apart iff no active reservation of others overlaps by then what the borrow record promises |
| Races.LatePickupCoupledIff | server/internal/service/operation_service.go:130-164 | For pickups against a reservation: coupled iff the key has no open borrow by then |
| Races.LatePickupBookedIff | server/internal/service/operation_service.go:130-164 | Booked iff no other active reservation clashes by then, and always while its own reservation is active |
| Races.LateDispenseIff | server/internal/service/cabinet_service.go:244-300 | For direct dispensing: coupled iff the key has no open borrow by then, booked iff FindConflicts would still find nothing |
| Races.LateReservationCoupled | server/internal/service/reservation_service.go:117-175 | A reservation stored late keeps the coupling invariant in any case |
| Races.LateReservationBookedIff | server/internal/service/reservation_service.go:117-175 | And keeps bookings apart iff no open borrow of the key was promised any of its time; active reservations are checked again |
| Races.TwinsShareOneOperation | server/internal/service/operation_service.go:496-518 | Two deliveries of one pickup request, both past their checks: the first is prepared, anything may happen, and the second changes nothing and is answered with the operation of the first |
| Races.LentIsReached | server/internal/infrastructure/postgres/operation_repository.go:254-304 | The state of the input below is reached from a commissioned cabinet |
| Races.LentTwice | server/internal/service/operation_service.go:130-164 | An input, run from commissioning on: two pickups of one key pass their checks, the first lends it, and the second is prepared; two open borrows |
| Races.LateReturnCoupled | server/internal/infrastructure/postgres/operation_repository.go:37-51 | A return prepared late keeps the invariant: its transaction checks the record again |
| Races.LateReturnAnswer | server/internal/service/operation_service.go:212-236 | What a late return with a new request is told: prepared iff the record is still the caller's and BORROWED and nothing goes on at its cabinet or with its key; which refusal otherwise |
| Races.LateReturnTwin | server/internal/service/operation_service.go:496-518 | A late return whose request is taken is answered with the first operation iff it is the same task |
| Races.LatePickupAnswer | server/internal/service/operation_service.go:157-168 | What a late pickup with a new request is told |
| TimeoutSweep.SweptForGood | server/internal/service/operation_service.go:315-343 | Whatever steps interleave with an error-free sweep, no active operation is older than its cut-off at the end |
| TimeoutSweep.NeverActiveTooLong | server/cmd/api/main.go:145-167 | If at every moment a completed sweep began at most P ago, no operation stays active for more than timeout + P after COALESCE(sent, initiated, created), although a start may be stored up to the timeout after the time it is stamped with, sweeps beginning in between; if it may take longer than that, the longest such lag takes the place of the timeout |
| TimeoutSweep.StillStale | server/internal/infrastructure/postgres/operation_repository.go:149-155 | What is overdue after a run was overdue before it and was not timed out in it |
| TimeoutSweep.StartNeverEarlier | server/internal/infrastructure/postgres/operation_repository.go:149-155 | No step sets the clock of an active operation back |
| SweepOrder.SweptOneMore | server/internal/infrastructure/postgres/operation_repository.go:432-460 | Timing one more operation out, after any others, affects its own rows only |
| AbortProtocol.CancelImpliesConsent | server/internal/service/operation_service.go:277-313 | Over any interleaving of cancel calls, sweeps, acknowledgements and ledger steps: each cancelled operation was cancelled by exactly one call, and if that call had read it SENT or EXECUTING a successful acknowledgement for it was matched to the call after it had registered; waiter entries belong to running calls only |
| AbortProtocol.RunSound | server/internal/infrastructure/device/mqtt_gateway.go:206-234 | The invariant behind it holds in every reachable state |
| AbortProtocol.CancelExcludesCompletion | server/internal/service/operation_service.go:304-311 | An operation a call has cancelled is CANCELLED in every later state, so never completed |
| AbortProtocol.CancelWithoutConsent | server/internal/service/operation_service.go:285-304 | The status is read once: a cancel that read AUTHORIZED commits without consent although the operation has been dispatched since |
| AbortProtocol.NeverStuck | server/internal/service/operation_service.go:277-343 | Every cancel and every sweep call that has not come to its end has a step of its own to take |
| EarlyConsent.TimelyIff | server/internal/infrastructure/device/mqtt_gateway.go:491-501 | A call is sure to be cleared only by an acknowledgement handled after it registered, over every run, iff no successful acknowledgement for its operation is outstanding as it registers |
| EarlyConsent.NothingOutstandingIsTimely | server/internal/infrastructure/device/mqtt_gateway.go:206-234 | With nothing outstanding, whatever clears the call in any later state was handled after it registered |
| EarlyConsent.EarlyAckHappens | server/internal/infrastructure/device/mqtt_gateway.go:206-234 | An input, run from commissioning on: a first cancel gives up as its acknowledgement comes in, and that one clears the second cancel |
| EarlyConsent.CommissionedIsSound | server/internal/infrastructure/device/mqtt_gateway.go:206-234 | Where that run starts, the invariant of the protocol holds |
| Redelivery.RedeliveryRefinesOnce | server/internal/infrastructure/device/mqtt_gateway.go:411-503 | For any deliveries with duplicates, failures and interleaved steps the ledger is the one from handling each message once in order of first success, as long as no RFID confirmation handled again after eviction overwrites a different tag |
| Redelivery.ExactlyOnceUpToLimit | server/internal/infrastructure/device/mqtt_gateway.go:606-619 | As long as no more different messages come than the cache holds, this is so for all messages, in runs of any length |
| Redelivery.DuplicateWithinHour | server/internal/infrastructure/device/mqtt_gateway.go:606-619 | However many messages come: on a clock that does not run backwards, one delivered again within an hour of its handling is recognised as a duplicate |
| Redelivery.HandledStaysSeen | server/internal/infrastructure/device/mqtt_gateway.go:606-619 | For that hour its entry stays, with its stamp |
| Redelivery.RememberedUpToLimit | server/internal/infrastructure/device/mqtt_gateway.go:599-619 | Up to that many different messages every handled one is remembered |
| Redelivery.OnceIsOnce | server/internal/infrastructure/device/mqtt_gateway.go:599-604 | The exactly-once run handles no message id twice |
| Redelivery.ReprocessOnlyTags | server/internal/infrastructure/postgres/operation_repository.go:212-242 | Handling a settled event again changes nothing but the tag an RFID confirmation carries |
| Redelivery.ReprocessHarmlessIff | server/internal/service/operation_service.go:370-380 | It is harmless iff it does not write a different tag |
| Redelivery.HandledIsSettled | server/internal/service/operation_service.go:349-390 | A handled event has left its operation ended or its key stored |
| Redelivery.StaysSettled | server/internal/infrastructure/postgres/operation_repository.go:212-242 | No later step undoes that |
| Redelivery.PlayShaped | server/internal/infrastructure/device/mqtt_gateway.go:464-472 | Behind the gateway logs keep their shape, whatever is delivered, however often, and whatever else happens |
| Gateway.MqttGateway.HandleIncoming | server/internal/infrastructure/device/mqtt_gateway.go:411-503 | Malformed messages are discarded, known ones skipped, everything discarded without a handler, failures retryable, successes remembered; what a handled one says of an unfinished operation is on its row; a handled abort answer, and nothing else, is passed on to signalAbort |
| Reporting.FailureArrives | server/internal/infrastructure/device/mqtt_gateway.go:411-503 | A failing message, delivered for the first time for an unfinished operation of its cabinet: the row is FAILED with the message code, text and time, the record tells the text, and the message is remembered |
| Reporting.SuccessArrives | server/internal/infrastructure/device/mqtt_gateway.go:411-503 | A success message ends the operation at its time, or is refused without a trace and comes again |
| Reporting.OtherArrives | server/internal/infrastructure/device/mqtt_gateway.go:411-503 | Any other message is logged under its name with its data and time; a confirmation stores its tag, a first acknowledgement its time |
| Reporting.MessageKinds | server/internal/infrastructure/device/mqtt_gateway.go:439-472 | Which fields of a message make it a failure, a success, a confirmation or an abort answer |
| Reporting.OutcomeArrives | firmware/esp32/main/protocol.c:94-168 | From the worker to the row: a failed outcome is on the operation with its own code and time once it arrives |
| Reporting.MatchArrives | firmware/esp32/main/protocol.c:94-168 | And the tag of a match is on the operation |
| Gateway.MqttGateway.MarkMessageSeen | server/internal/infrastructure/device/mqtt_gateway.go:606-619 | Above the limit exactly the entries older than an hour are dropped |
| Gateway.MqttGateway.ProcessMessage | server/internal/infrastructure/device/mqtt_gateway.go:399-409 | Everything but a retryable failure is acknowledged |
| Gateway.MqttGateway.OnMessage | server/internal/infrastructure/device/mqtt_gateway.go:382-397 | Before a handler is registered events are queued unacknowledged |
| Gateway.MqttGateway.RegisterEventHandler | server/internal/infrastructure/device/mqtt_gateway.go:180-190 | The queue is worked off in order of arrival and left empty |
| Heartbeat.SweepsInvisible | server/internal/infrastructure/device/mqtt_gateway.go:279-303 | Over any run of messages and sweeps, GetDeviceStatus answers as if no sweep had run |
| Heartbeat.SweepInvisible | server/internal/infrastructure/device/mqtt_gateway.go:236-245 | A sweep at t changes no answer given at t or later |
| Heartbeat.OneReportPerSilence | server/internal/infrastructure/device/mqtt_gateway.go:279-303 | A silent device is reported exactly once until its next message, iff a sweep came too late for it |
| Gateway.MqttGateway.ExpireStaleDevices | server/internal/infrastructure/device/mqtt_gateway.go:279-303 | Exactly the silent devices are marked offline and returned, each once |
| Gateway.MqttGateway.GetDeviceStatus | server/internal/infrastructure/device/mqtt_gateway.go:236-245 | Online iff the last status was and is recent enough |
| Gateway.MqttGateway.HandleStatus | server/internal/infrastructure/device/mqtt_gateway.go:505-531 | A malformed status is discarded; otherwise the device is from then on answered by this message and its age, other devices as before, and a failing sink has the message come again |
| Alerts.AlertsAreHistory | server/internal/service/inventory_reconciler.go:90-225 | With growing timestamps the OPEN alerts of a slot are exactly the kinds its readings found since the last clean one, one per kind, stamped with the first such reading |
| Alerts.PresenceIsLastReported | server/internal/service/inventory_reconciler.go:97-112 | The stored presence is the one last reported |
| Alerts.AlertKeptIff | server/internal/service/inventory_reconciler.go:187-220 | A reading that finds something ends with an open alert of that kind iff there was one or the id built from timestamp and slot number is free |
| Alerts.JudgeIff | server/internal/service/inventory_reconciler.go:114-185 | Which reading of which rows raises which kind with which tags, an iff for each kind, for a clean reading, and for a skipped one |
| Alerts.ReadingRows | server/internal/service/inventory_reconciler.go:90-225 | One reading, row by row: presence, the alert with both tags, or all alerts of the slot closed; nothing else |
| Alerts.SameStampLoses | server/internal/service/inventory_reconciler.go:201-203 | Two cabinets, one timestamp, one slot number: the second alert is lost |
| Reconciler.InventoryReconciler.OnInventorySnapshot | server/internal/service/inventory_reconciler.go:56-236 | The loop over a snapshot has the effect of its readings in order and counts those that find something; strangers have no effect |
| Reconciler.InventoryReconciler.ReconcileSlot | server/internal/service/inventory_reconciler.go:90-225 | One turn of the loop, presence and alerts |
| Reconciler.InventoryReconciler.Examine | server/internal/service/inventory_reconciler.go:114-185 | Each kind is reported iff slot, key and reading call for it, with both tags; clean iff nothing is wrong |
| Reconciler.InventoryReconciler.ResolveAllBySlot | server/internal/infrastructure/postgres/alert_repository.go:33-40 | Afterwards no alert of the place is open, those that were are closed and stamped, and no other alert has changed |
| Reconciler.StrangersIgnored | server/internal/service/inventory_reconciler.go:60-69 | Snapshots of unknown devices change nothing |
| Reminders.SendsBounded | server/internal/service/borrow_service.go:269-376 | Over any run: at most three sends per borrow and kind, nothing after a success, ten minutes between the first two and twenty between the last two at least, never two at one moment |
| Reminders.DueIff | server/internal/service/borrow_service.go:269-310 | When a subject is due, from its sends alone: fewer than three, none successful, and the last one long enough ago |
| Reminders.RunKept | server/internal/service/borrow_service.go:339-376 | Rows always agree with what has been sent for them |
| ReminderSweep.ReminderDispatcher.CheckOverdue | server/internal/service/borrow_service.go:226-239 | One sweep sends at most once per subject, each for a BORROWED record that calls for the notice or has been tried in vain before, and leaves nothing due that a record calls for |
| ReminderSweep.ReminderDispatcher.ProcessReminder | server/internal/service/borrow_service.go:269-310 | A row is opened or retried only when due, and is not due afterwards |
| ReminderSweep.ReminderDispatcher.FindPendingOrFailedRetries | server/internal/infrastructure/postgres/reminder_repository.go:53-64 | The batch: the 50 oldest due failures, all of them if there are fewer |
| ReminderSweep.ReminderDispatcher.RetryFailedReminders | server/internal/service/borrow_service.go:312-328 | Just that batch is retried, each with its record still BORROWED, and none of those is due afterwards; no other row changes |
| ReminderSweep.ReminderDispatcher.ExecuteReminderSend | server/internal/service/borrow_service.go:339-381 | One send, counted and rescheduled by its result |
| ReminderSweep.ReminderDispatcher.MarkOverdue | server/internal/infrastructure/postgres/borrow_repository.go:103-108 | A record has a stamp afterwards iff it had one or is BORROWED and overdue; a stamp is never moved, and nothing else changes |
| CabinetMotor.Cabinet.DispenseSlot | firmware/esp32/main/motor_task.c:110-141 | However an abort strikes, flag and enable pin one after the other, the motor returns with the driver off, within 2 * (400 + 600 * slot) + 3050 pulses and with at most one pulse after the flag; success means the full way out and back and the origin reached, and failure an abort, an unknown slot, or no origin within the travel |
| CabinetMotor.Cabinet.StepMotor | firmware/esp32/main/motor_task.c:55-77 | All pulses, or an abort and the driver off |
| CabinetMotor.Cabinet.CalibrateHome | firmware/esp32/main/motor_task.c:79-108 | Ends with the driver off within 3050 pulses, whatever the limit switch says; home means that it was reached, and otherwise there was an abort or 3001 pulses without it |
| CabinetWorker.Worker.ExecuteCommand | firmware/esp32/main/mqtt_client_task.c:18-187 | Exactly one outcome per command unless an abort is seen, and which one; success only after its whole physical story in order, silence once an abort has been sampled, no sample between an abort and a later publication, at most one late pulse, driver off at the end |
| CabinetWorker.Worker.RunPickup | firmware/esp32/main/mqtt_client_task.c:21-130 | Done iff the door was seen closed, door open iff it was seen open 300 times, not taken iff the key was seen at every look, empty iff it was not there at first, motor failed iff it was, was not dispensed, and no abort was seen; success in order; pulses bounded |
| CabinetWorker.Worker.RunReturn | firmware/esp32/main/mqtt_client_task.c:131-187 | Done iff the door was seen closed after a matching tag, door open iff it was seen open 300 times, a failed scan for another tag, or without one iff none could be read five times or nothing was inserted |
| CabinetWorker.Worker.VerifyReturn | firmware/esp32/main/rfid_task.c:26-103 | A match only for an inserted key whose tag agrees up to letter case; otherwise, unless an abort is seen, exactly one failed scan, and which |
| CabinetLog.OutcomesEndOperations | firmware/esp32/main/protocol.c:94-168 | The gateway turns exactly the worker outcomes into events that end operations, and a matched scan into the confirmation with its tag |
| CabinetLog.LogHeedsAborts | firmware/esp32/main/mqtt_client_task.c:21-187 | Whatever is published after an abort has come is published without another look at the flag |
| CabinetLog.FactsTell | firmware/esp32/main/mqtt_client_task.c:18-187 | The facts outcomes are judged by are what is in the log: tags read, matches and outcomes published or kept back |
| CabinetLog.FactsCount | firmware/esp32/main/mqtt_client_task.c:18-187 | And how often each sensor said what |
| CabinetLog.BuiltIsPublished | firmware/esp32/main/mqtt_client_task.c:18-187 | If every message could be built, each outcome concluded has been published, once |
| CommandQueue.AbortHeededIff | firmware/esp32/main/mqtt_client_task.c:248-270 | In every reachable cabinet an acknowledged abort keeps an outstanding operation from success, over every run in which its command is not delivered again, iff its command is at work and the worker is not past a look at the flag with only the door left to read |
| CommandQueue.AbortStopsIff | firmware/esp32/main/mqtt_client_task.c:248-270 | In any state: an abort is acknowledged for the operation it names, and keeps from success exactly those that neither wait in the queue nor are past such a look, whatever it names |
| CommandQueue.AbortKeepsKeyIff | firmware/esp32/main/mqtt_client_task.c:63-80 | In any state: an acknowledged abort keeps the key of an operation in its slot iff its command neither waits nor is past a look at the flag with only the slot left to read |
| CommandQueue.AbortHitsAnother | firmware/esp32/main/mqtt_client_task.c:248-270 | The companion: an abort for a waiting operation does not stop it, and stops the one at work |
| CommandQueue.WrongCommandStopped | firmware/esp32/main/mqtt_client_task.c:211-218 | An input: the abort of the second command ends the first, and the second succeeds |
| CommandQueue.WaitingSucceeds | firmware/esp32/main/mqtt_client_task.c:211-218 | Every waiting command can still get its turn and succeed, whatever the flag |
| CommandQueue.InOrder | firmware/esp32/main/mqtt_client_task.c:268-270 | Commands are begun in the order in which they were accepted, and at most eight wait |
| CommandQueue.DroppedNeverSucceeds | firmware/esp32/main/mqtt_client_task.c:268-270 | A command that finds the queue full is lost: its operation cannot succeed unless it is sent again |
| Handover.HandedOutUnlentIff | server/internal/service/operation_service.go:277-313 | Server and cabinet together: as an abort reaches the cabinet for a waiting cancel, the system can end up with the operation cancelled with consent, the key taken out and nobody counted as having it, iff the key is out already, the command still waits, or the worker is past a look with only the slot left to read |
| Handover.CancelledNeverLent | server/internal/infrastructure/postgres/operation_repository.go:254-265 | In every state of both ends, whatever the cabinet has done: the borrow of a cancelled pickup is an EXCEPTION that keeps no key out, and success reports for it are accepted and change nothing |
| Handover.HandedOutHappens | server/internal/service/operation_service.go:277-313 | An input, run from commissioning on: a cancelled pickup whose key is gone, and nobody has it |
| Handover.RunSane | server/internal/infrastructure/device/mqtt_gateway.go:206-234 | The invariants of protocol and outcomes hold in every state of both ends |
| CabinetLog.FollowsMeans | firmware/esp32/main/mqtt_client_task.c:18-187 | What "in this order" means: growing positions in the log |

## Left out

What the model assumes:

- In runs of the ledger, checks and the prepare transaction behind them (startPickup, StartReturn, DirectDispense, CreateReservation) are one step; Races has what comes in between. The unique indexes on request id, active device and active key (`server/migrations/000003_fix_schema_alignment.up.sql`, `server/migrations/000008_borrow_operation_fields.up.sql`) and the exclusion constraint on reservations are guards of that step.
- OnDeviceEvent's find and its update of the scanned tag are one step, and a handler that fails has no effect.
- Two deliveries of one message handled at the same moment: each handling is one step here.
- Key, slot and device bindings are fixed and no two keys share a slot.
- Generated ids are fresh, and hashing (device, message id) to an event id is injective.
- The UNIQUE index on borrow_records.reservation_id: it is created IF NOT EXISTS under the name of an older plain index (`server/migrations/000001_init.up.sql:110`, `server/migrations/000008_borrow_operation_fields.up.sql:15-16`), so it is not taken to exist.
- borrow_records.reservation_id is NOT NULL with a foreign key (`server/migrations/000001_init.up.sql:97`), which a direct dispense could not satisfy; the column is modelled as optional, as the service code treats it.

What the model does not do:

- Redelivery.RedeliveryRefinesOnce: a message that comes again after eviction is assumed to name the same operation and type as before.
- Alerts.AlertsAreHistory: growing timestamps, distinct slots per snapshot and no repository errors, as AlertKeptIff shows to be needed.
- TimeoutSweep.NeverActiveTooLong: sweeps that fail half way are not complete and do not count; a lag between the stamp of a start and its transaction is bounded by a parameter.
- Handover.HandedOutUnlentIff: messages between the two ends may be delayed and reordered at will, but one cabinet is followed at a time; a key counts as taken when the worker's slot reading says so, and one taken with nobody reading is not seen.
- ServiceCalls.OperationService.StartPickup, ServiceCalls.OperationService.StartReturn, ServiceCalls.OperationService.DirectDispense: nothing interferes within one call; Dispatch and Races have the interleavings.
- ServiceCalls.OperationService.CheckDispense, ServiceCalls.OperationService.DirectDispense: that the slot names the key is not checked; the name comes from the same join, so with no two keys in one slot it is the key. Matching a room number to a key is left out: the matched key is an input.
- ServiceCalls.OperationService.CancelOperation: nothing interferes between its read and its write; AbortProtocol has the interleavings.
- ServiceCalls.OperationService.ExpireTimedOutOperations: nothing interferes between its query and its writes; TimeoutSweep has the interleavings.
- CommandQueue.AbortHeededIff: a command delivered a second time is run a second time, so runs in which the command comes again are left to AbortStopsIff.
- CabinetWorker.Worker.ExecuteCommand: the abort branch of the worker is not modelled, since aborts are answered by the MQTT task and never queued; the buffer length of a scanned tag is not modelled.
- Paths that bypass operations by design: CreateBorrowing, MarkBorrowed, BeginReturn, BorrowService.CompleteReturn, MarkReservationUsed, UpdateKeyStatus. They do not keep the coupling invariant.
- Reconciler.InventoryReconciler.ReconcileSlot: works on rows of its own; its presence write enters the ledger as the step SeeSlot, one for each reported slot.
- The refusal of a blank cabinet by StartCabinetPickup, trimming of identifiers, updated_at, review metadata and purpose columns, zero timestamps replaced by the clock, and database errors other than those named.
- Letter case is compared for ASCII letters, as the cabinet does; the server folds all of Unicode.
- JSON decoding, topics, the MQTT client and broker, HTTP, authentication, face recognition, WeChat, Wi-Fi, sensors and the RC522 driver: messages are decoded records, answers of the outside are arbitrary inputs.
