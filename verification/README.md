# Verified models of Eurobase

Dafny models of the parts of Eurobase where an interleaving, a crash or a corner of a grammar decides
whether a customer is charged, cut off or let through, and proofs about them.

**Billing.** `Billing` holds the state of one project (its subscription rows, plan, invoices, payments, what Mollie
was asked) and every transaction, guarded update and Mollie event as a function on it. `BillingStore` is the same code
as the service writes it, a class whose methods update fields and loop over rows, each shown to take exactly its
step. `BillingSteps` makes the actors one step relation: checkout, scheduled checkout, cancel, transfer, sweep and
webhooks. A first-payment delivery and a renewal are split at their Mollie call and from the takeover either may come to, which is
a transaction of its own, a cancel into what it reads, what it asks of Mollie and what it updates, and a commit from the
stops it leaves to be made, so anything can happen in between.
`BillingInvariant` and `BillingFrames` say what every step keeps, `BillingQuiet`, `BillingKept`, `BillingPayments` and
`BillingDeliveries` prove it step by step, and `BillingRuns`, `BillingHistory` and `BillingTrace` put it together for
whole runs; `BillingBooks` says to the letter what each step asks of Mollie. `BillingLifecycle` and `BillingMoney` are a
second, independent account of the protocol: tables that say for one row, for the project's plan and for one payment, on
their own columns, what every step makes of them; the statements are proved to agree with them, for every step, and
`BillingDecisions` draws from them who takes over when, whom the sweep ends and spares, and what is stopped. The other
results are in `BillingTrace`, `BillingFirstPayments`, `BillingOwners`, `BillingTakeover`, `BillingProgress`, `BillingPasses`,
`BillingDunning`, `BillingStops`, `BillingCancels`, `BillingRecovery` and `BillingStrands`, and `BillingScenarios` has the runs that show their exceptions are real.
`NewProject` and `PendingProjects` cover the checkout of a project that does not exist yet,
`Calendar` and `Proration` the arithmetic.

**Function SQL.** `SqlTokens` is a declarative token grammar (after section 5.2 of ISO/IEC 9075-2, with PostgreSQL's
nested comments, E- and U&-strings and dollar quotes) with a scanner proved against it; `SqlGuard` is the scanner of
the source, in its loops, proved to compute the statements of that grammar; `StatementLaws` and `PrivilegeGuard` have
the laws and the guard. `SqlWords` says where each identifier ends up, `GuardLaws` gives the verdict in the words of SQL,
and `SqlRegions` spells out, character by character, the strings, comments and dollar quotes that never matter.

**Tenant clients.** `TenantPool` is the LRU pool with leases under every interleaving, `TenantPoolLaws` what its operations
do for a caller, `TenantKeys` its cache keys, `TenantRoutes` the choice of instance and its cache.

**Audit.** `AuditChain` is the hash chain and its verifier with a free (collision-free) hash, `AuditLog` the table under
concurrent appends and prunes, `ArchiveExport` the export to write-once storage.

**Passkeys.** `Passkeys` is the single use of signed and of stored challenges.

`Prelude` and `Runs` are shared helpers; `Runs` is induction along a run, for any state.

Time is in seconds (nanoseconds in `Proration` and `Passkeys`, milliseconds in `TenantPool`) on one clock that never
goes back. Ids are integers. A Mollie call that fails is an answer of `None` or a delivery that dies. "Refunded" and
"stopped" mean that the refund or the stop was asked for: both are best effort in the source.

## Findings

Places where the code does less than it or its comments say; each is a lemma below.

- A cancel acts on the Mollie subscription it read, and its update does not look again. If the checkout it read goes live in
  between, the row is closed and nobody stops the subscription (`StaleCancelRun`): it is stopped exactly when the cancel had
  read it or someone else asked (`CancelStopsExactly`). A process that dies between a commit and the stops it leaves does
  the same. Nothing else lets a closed row go on charging (`ClosedAreStoppedUnlessSlipped`), and only the delivery of the
  next charge, which is refunded, or Mollie's own report ends it (`UnaskedUntil`); a deleted project has no row left to do so.
- A cancel at the end of the period whose end Mollie also reports (`processSubscriptionWebhook`) closes the row early and
  leaves the project on Pro (`ReportedCancelRun`), for good as far as time and the sweep go: they move a project on exactly
  when a subscription is still open or a legacy grace is set (`MovesExactlyWhen`). Only that report and a project deletion
  close the last running row and leave the plan (`ClosesOnProExactlyWhen`).
- A subscription that is over does not always end with the next sweep. The delivery that confirms a due successor makes it
  take over in a second transaction, whose failure is only logged. If it confirms between the sweep's takeover and its last
  step and that second transaction is lost, the sweep skips the old subscription and the project keeps its plan
  (`LateConfirmationRun`). Exactly such a successor lets it survive (`SurvivesExactlyWhen`), the next sweep starts by handing
  over to it (`NextPassHandsOver`), and to survive twice takes two of them (`SurvivesTwiceByTwo`).
- A delivery that dies after creating a Mollie subscription is repaired by the next one exactly when the checkout may still
  start (`RedeliveryRecoversExactlyWhen`). Otherwise, as after a transfer (`CrashLeavesUntracked`), the payment is refunded
  but the service never stops the subscription (`OffRowsForGood`).
- If the last delivery of a new-project activation cannot reach Mollie but an earlier one did, Mollie charges for a
  subscription whose id is on no row (`LastCallDecides`, `LastCallCanFail`). A failed creation refunds the payment, and a redelivery can still
  activate the project (`RefundThenActivation`).
- A new-project checkout that waits for its lock longer than the cooldown inserts a row the next one reclaims at once
  (`SlowLockIsReclaimed`).
- Archived rows are deleted by id after their export, but only (id, archived_at) is unique: a second row of an id is deleted
  with the first and never exported (`SiblingIsLost`); nothing else is lost (`OnlySiblingsAreLost`).
- The prorated refund "rounded down" exceeds the exact share for periods that are not a whole number of seconds
  (`RoundsDownExactlyForWholeSeconds`).

## Model

| member | source | states |
|---|---|---|
| BillingRuns.StepKeeps | internal/billing/handover.go:392-460 | every step of every actor keeps the invariant: one live and one scheduled row at most, rows and Mollie subscriptions matched by idempotency key, no invoice and no renewal in flight for a charge after the cancel, each first payment consistent with its row, and rows only progress |
| BillingHistory.StepAccumulates | internal/billing/webhook.go:789-811 | no step takes back a payment, an invoice, a refund request, a stop at Mollie or what a cancel read |
| BillingHistory.StepKeepsPlans | internal/billing/service.go:413-422 | no row is ever for the Free plan, so a takeover or activation cannot set it |
| BillingOwners.WantedIsTheOwners | internal/billing/handover.go:110-197 | over any run from a project never billed: every row was started by the user who owned the active project then, and is for the customer, plan, price and start asked for (or it came with the project's activation); an open checkout and a running subscription nobody cancelled are the present owner's, with no transfer since they were started |
| BillingOwners.RecordedForTheOwner | internal/billing/webhook.go:260-345 | over any run: a delivery puts a Mollie subscription on a row only if the payer was the customer of the present owner, with no transfer between the check of the payer and that step |
| BillingLifecycle.RowLives | internal/billing/handover.go:110-487 | the whole life of a row as a table on its own columns, from checkout to close, independent of the statements: after every step of every actor every row that stays is what the table says, status, dates, Mollie id and all |
| BillingLifecycle.RowsComeAndGo | internal/billing/service.go:404-435 | a row is inserted exactly for the owner of an active project with nothing open, in force (or scheduled) in its place, with just what was asked for, and removed exactly by the rollback of its open checkout |
| BillingLifecycle.PlanLives | internal/billing/downgrade.go:324-431 | the same for the project's owner, plan, legacy grace and last-active date: which step sets them, on which dates, and that only a comp that still runs keeps a Pro plan |
| BillingMoney.MoneyLives | internal/billing/webhook.go:768-955 | the same for every payment: its amount, state, invoice and refund after every step |
| BillingTrace.RunKeeps | internal/billing/downgrade.go:113-145 | over any interleaved run the invariant holds at every moment and later moments only go on from earlier ones |
| BillingTrace.NeverBilledSound | internal/billing/service.go:404-422 | a project without billing history satisfies the invariant, so it holds from the start |
| BillingTrace.RowsAtEveryMoment | internal/billing/webhook.go:408-416 | at every moment: one live row, one scheduled row, distinct Mollie subscriptions, closed rows have canceled_at, past_due_since set exactly when past due, incomplete rows without a Mollie subscription |
| BillingTrace.RowsBetweenMoments | internal/billing/webhook.go:1060-1066 | closed rows never reopen, a cancel date is never cleared or backdated and only moves later, Mollie ids stay, and only unconfirmed checkouts disappear |
| BillingTrace.NoInvoiceAfterCancel | internal/billing/webhook.go:861-918 | no recurring invoice is for a payment Mollie created after its subscription's canceled_at, at its insert or ever after |
| BillingTrace.RenewalDecides | internal/billing/webhook.go:861-884 | the delivery of a paid charge of a subscription that has started is refunded and its subscription stopped again exactly when the charge came after the cancel; otherwise it goes on to its transaction |
| BillingBooks.StepAsks | internal/billing/webhook.go:768-783 | to the letter: which Mollie subscriptions each step asks to stop, which stops a transfer or a takeover leaves owed (no other step leaves any), and that only an open checkout's delivery creates or records a subscription |
| BillingStops.StepStops | internal/billing/downgrade.go:343-362 | whichever step closes a row stops its Mollie subscription or owes the stop, but for a cancel that had not seen it |
| BillingStops.ClosedAreStoppedUnlessSlipped | internal/billing/handover.go:195-212 | over any run from a project never billed, every closed row's Mollie subscription is stopped, ended or about to be stopped, unless a stale cancel closed it or the process owing the stop died |
| BillingCancels.CancelStopsExactly | internal/billing/cancel.go:236-259 | when a cancel updates a row, the row's Mollie subscription is stopped exactly when the cancel had read that id, or someone else asked |
| BillingCancels.CancelDoes | internal/billing/cancel.go:87-285 | from reading to update, over any run in between: an end-of-period cancel only adds the first cancel date, an immediate one closes and drops a Pro project, one read as scheduled is closed unless it took over, a deletion closes; no other row changes |
| BillingCancels.SlipsAreUnasked | internal/billing/cancel.go:333-346 | a stale cancel, or the death of the last process owing a closed row's stop, does leave it unstopped |
| BillingCancels.UnaskedUntil | internal/billing/webhook.go:861-884 | and it stays so exactly until Mollie reports the end, a charge made after the cancel is delivered and refunded, or an earlier cancel that had read it asks |
| BillingScenarios.StaleCancelRun | internal/billing/cancel.go:309-346 | a run from a project never billed: a deletion reads an open checkout, the checkout goes live, the deletion closes it, and the paid subscription is never stopped |
| BillingTrace.RenewalRecords | internal/billing/webhook.go:893-939 | a renewal records one paid invoice for its payment, however often delivered, and the row active until Mollie's date or one month after a date that has come |
| BillingFirstPayments.BeginOutcome | internal/billing/webhook.go:219-345 | a delivery up to its Mollie call settles the payment, goes on with a created subscription, or fails with nothing changed |
| BillingFirstPayments.StartsExactlyWhen | internal/billing/webhook.go:252-342 | Mollie is asked for a subscription exactly for an open checkout paid by the customer it was started for, who is the owner's, with no uncancelled live subscription beside a scheduled one |
| BillingFirstPayments.FinishOutcome | internal/billing/webhook.go:364-455 | after the Mollie call, whatever happened meanwhile: an open checkout is activated with invoice and plan in one step, any other is given back and its Mollie subscription stopped |
| BillingFirstPayments.FirstPaymentEnds | internal/billing/webhook.go:219-455 | over whole runs with serialised redeliveries every paid non-zero first payment ends activated or given back, never both, and never changes sides |
| BillingFirstPayments.RedeliveryIsHarmless | internal/billing/webhook.go:243-251 | a redelivery of a settled payment changes nothing, but for the payment time of an activated one's invoice |
| BillingRecovery.CreatedIsAccountedFor | internal/billing/webhook.go:768-783 | over any run from a project never billed, every Mollie subscription ever created is on its row, told to stop or in a delivery going on, unless a delivery of that checkout died |
| BillingRecovery.RedeliveryRecoversExactlyWhen | internal/billing/webhook.go:252-345 | after such a death the next delivery puts the subscription on the row exactly when the checkout may still start; otherwise it is off every row |
| BillingRecovery.OffRowsForGood | internal/billing/webhook.go:252-300 | once off every row it stays so over any run, and only Mollie's own report, no step of the service, ever ends it |
| BillingScenarios.CrashLeavesUntracked | internal/billing/webhook.go:272-300 | a run from a project never billed: a delivery dies, the project is transferred, and the redelivery refunds the payment and leaves the subscription off every row |
| BillingDecisions.TakesOverExactlyWhen | internal/billing/handover.go:369-472 | a scheduled subscription takes over exactly when its mandate is in place, its start date has come (or it was charged), every one in force is cancelled and no checkout is open |
| BillingDecisions.NothingBeforeItsDate | internal/billing/handover.go:376-390 | while every scheduled subscription waits for its date a takeover changes nothing at all |
| BillingDecisions.NoEarlyStart | internal/billing/handover.go:361-472 | over any run from a project never billed: a subscription in force that has a start date was put there by a takeover on or after that date, or after Mollie charged it |
| BillingDecisions.ClosesPayingExactlyWhen | internal/billing/webhook.go:1095-1150 | of all steps exactly Mollie's report and the update of an immediate or deletion cancel close an active subscription nobody cancelled |
| BillingDecisions.OwedExactlyWhen | internal/billing/handover.go:195-213 | a step leaves a stop owed exactly once for each row it retires: any open row at a transfer, the rows in force at a takeover, the superseded one |
| BillingTakeover.UncancelledIsNotRetired | internal/billing/handover.go:417-445 | a takeover never touches a running subscription nobody cancelled |
| BillingTakeover.TakeOverDoes | internal/billing/handover.go:446-472 | one transaction expires what was running, activates the due row, sets the plan unless Team, and leaves the old subscriptions to be stopped |
| BillingTakeover.TakeOverTwice | internal/billing/handover.go:361-390 | repeating a takeover changes nothing |
| BillingTakeover.StepWaiting | internal/billing/handover.go:361-487 | at every step that is not one of the listed closers a confirmed subscription keeps waiting or takes over, and before its start date only a charge makes it take over |
| BillingTakeover.EndsWaitingCloses | internal/billing/webhook.go:1122-1134 | each listed closer (transfer, its cancel here or at Mollie, and a takeover by the sweep, by a delivery after its confirmation or for a charge that finds an uncancelled running subscription) does close the row |
| BillingTakeover.NoGap | internal/billing/downgrade.go:237-256 | from confirmation to takeover no run of sweeps, renewals, redeliveries and checkouts drops the project to Free, except by past-due grace or an immediate cancel |
| BillingProgress.TransferLeaves | internal/billing/handover.go:110-197 | from a transfer on, over any run: of the old rows none is open but a running one with both a cancel and an end date, and Mollie is asked to stop all that were open unless the process dies first |
| BillingProgress.TransferEnd | internal/billing/handover.go:161-192 | a known end is kept; a missing one is a month after the latest paid charge exactly when that is still ahead, else now |
| BillingProgress.KeepsRunningOut | internal/billing/handover.go:183-192 | a row that runs out keeps both dates until it closes |
| BillingProgress.SweepEnds | internal/billing/downgrade.go:324-452 | a sweep on its own, after the time is up, closes the row and leaves the successor active or the project on Free, unless comped |
| BillingDecisions.SweepClosesExactlyWhen | internal/billing/downgrade.go:113-256 | a sweep closes the subscription in force exactly when it is cancelled and a successor may start, or the project is on Pro and it is past due for more than seven days, or cancelled, over and without a successor; one it does not close stays as it is, with the plan |
| BillingDecisions.SweepStepClosesExactlyWhen | internal/billing/downgrade.go:201-256 | the same for each of the four steps by itself, with anything in between |
| BillingDecisions.PayingIsSpared | internal/billing/downgrade.go:234-256 | no step of the sweep touches an active subscription nobody cancelled, its Mollie subscription or the plan, however late its renewal is |
| BillingDecisions.SweepStopsExactlyWhen | internal/billing/downgrade.go:343-362 | the sweep asks Mollie to stop exactly what it expires |
| BillingPasses.GracePassEnds | internal/billing/downgrade.go:201-211 | a past-due row whose grace is up does not survive the four steps of a sweep, whatever others do in between |
| BillingPasses.SurvivesExactlyWhen | internal/billing/webhook.go:368-394 | whatever others do between the four steps: a row whose period is up survives the sweep exactly when a delivery confirmed a successor after the sweep's takeover and nobody had made it take over by the last step |
| BillingPasses.NextPassHandsOver | internal/billing/handover.go:361-472 | the first step of the next sweep then closes the row and starts that successor, if it still waits |
| BillingPasses.SurvivesTwiceByTwo | internal/billing/downgrade.go:113-145 | a row that survives two sweeps does so by two different successors, the second confirmed in the middle of the second sweep |
| BillingScenarios.LateConfirmationRun | internal/billing/webhook.go:368-394 | a run from a project never billed: paid, cancelled at the end of the period, a successor paid for, and its delivery confirms it in the middle of the sweep and goes no further; the old subscription survives on Pro |
| BillingStrands.TransferProgresses | internal/billing/downgrade.go:201-256 | after a transfer a sweep ends the old subscription when its past-due grace is up, and when its period is up exactly unless a successor is confirmed in the middle like that; the step that ends it leaves one running or the project on Free, but for Mollie's report and a deletion |
| BillingStrands.ClosesOnProExactlyWhen | internal/billing/webhook.go:1122-1150 | of all steps exactly Mollie's report and a deletion's cancel close the last running row of a Pro project that is not comped and leave the plan |
| BillingStrands.MovesExactlyWhen | internal/billing/downgrade.go:201-311 | a Pro project that is not comped leaves Pro or hands over by time and sweeps alone exactly when a subscription still runs out or waits, or a legacy grace is set |
| BillingStrands.StrandedForGood | internal/billing/downgrade.go:281-311 | with no open row and no legacy grace, no run of time and sweeps changes anything |
| BillingScenarios.ReportedCancelRun | internal/billing/webhook.go:1122-1134 | a run from a project never billed: paid, cancelled at period end, reported by Mollie, and stranded on Pro within the paid period |
| BillingDunning.StepDunning | internal/billing/webhook.go:1060-1066 | only recorded failures and successful renewals move the dunning state; a retry keeps past_due_since |
| BillingDunning.DunningTellsHistory | internal/billing/webhook.go:923-933 | past_due_since is the time of the first failure recorded since the last successful renewal, over whole histories |
| BillingDunning.GraceIsSevenDays | internal/billing/downgrade.go:201-211 | the past-due branch takes only rows whose first unrecovered failure is over seven days old, with no renewal since |
| BillingStore.Store.HandOverInTx | internal/billing/handover.go:110-197 | the transfer's updates and loop take exactly the transfer step, with the last paid charge found by a loop over the invoices |
| BillingStore.Store.StopAll | internal/billing/handover.go:199-213 | what runs after the commit: each owed stop is asked for in turn |
| BillingStore.Store.LastPaid | internal/billing/handover.go:165-172 | the maximum payment time of the subscription's paid invoices, none if there is none |
| BillingStore.Store.PromoteScheduled | internal/billing/handover.go:369-487 | the loop over predecessors with its early return takes exactly the takeover step |
| BillingStore.Store.ScheduleTarget | internal/billing/handover.go:217-253 | refuses while one with a mandate waits, allows at once when nothing is open or in force, schedules behind an active one that is cancelled and runs for more than an hour, and refuses beside any other |
| BillingStore.Store.CreateCheckout | internal/billing/service.go:337-435 | on the rows' columns: the owner is refused exactly when a subscription with a mandate waits, a checkout is open, or what is in force is past due, uncancelled or not known to run for over an hour; otherwise abandoned ones are closed and exactly the asked-for row starts, behind the one that runs out |
| BillingStore.Store.DowngradeEach | internal/billing/downgrade.go:324-431 | downgrading candidates one by one expires and stops them all, and drops the plan once unless comped |
| BillingStore.Store.RunSweep | internal/billing/downgrade.go:113-145 | takeover first, then the three branches: the sweep's four steps in order |
| BillingStore.Store.FinishActivation | internal/billing/webhook.go:364-455 | the second half of a delivery: its guarded update confirms, its transaction activates, or it abandons; the takeover after a confirmation is a call of `PromoteScheduled` |
| BillingStore.Store.LoadCharge | internal/billing/webhook.go:830-849 | the load of a charge's delivery, which finds its subscription scheduled exactly when a row of that Mollie id is |
| BillingStore.Store.TakeOverFirst | internal/billing/webhook.go:850-859 | then it makes it take over whatever its start date, and fails exactly when the live index refuses that |
| BillingStore.Store.BeginRecurring | internal/billing/webhook.go:855-884 | the (re)load and the cancel check |
| BillingStore.Store.RecordChargeFailure | internal/billing/webhook.go:1056-1088 | past due only from active, and the invoice failed |
| BillingStore.Store.CancelForProject | internal/billing/cancel.go:299-353 | goes through a list read earlier, asks Mollie for what the list says, and succeeds exactly when Mollie refuses nothing on it: then every listed row is closed; rows not on it stay |
| NewProject.Activation.Run | internal/billing/webhook.go:492-763 | a delivery that dies after any number of effects leaves exactly that prefix of the durable states |
| NewProject.CrashRefinement | internal/billing/webhook.go:492-763 | however many deliveries die, and wherever, the next complete one leaves what an uninterrupted one would: one project, row, Mollie subscription and paid invoice, no pending row |
| NewProject.LastCallDecides | internal/billing/webhook.go:665-706 | if the last delivery cannot reach Mollie, that holds exactly when no earlier one had created the subscription |
| NewProject.LastCallCanFail | internal/billing/webhook.go:665-706 | and one delivery that dies between its Mollie call and its transaction is enough for it to fail |
| NewProject.ActivatedStays | internal/billing/webhook.go:497-512 | a delivery after the activating one changes nothing |
| NewProject.RefundThenActivation | internal/billing/webhook.go:602-611 | a refunded payment can still be activated by a redelivery, exactly while the intent is there and the slug is free or adoptable |
| NewProject.FlightIsTrace | internal/billing/webhook.go:492-763 | the effects of a delivery taken one by one are its uninterrupted course |
| NewProject.AtMostOneActivation | internal/billing/webhook.go:497-514 | whatever others do between the effects of deliveries that die and repeat, one row at most carries the payment, together with the paid invoice |
| NewProject.DeliveryEnds | internal/billing/webhook.go:492-763 | what a complete delivery leaves, to the letter: nothing new after an activation; the project activated exactly when the intent is there, the price known and the slug free or the owner's own without a subscription; otherwise the refund |
| PendingProjects.PendingProjectsApart | internal/billing/service.go:690-809 | in every interleaving two pending projects of one owner were created at least five minutes apart and one at most has no payment |
| PendingProjects.StepKeeps | internal/billing/pending_sweep.go:69-80 | locks, reclaims, guards, inserts, commits, slow payments, rollbacks and sweeps all keep that |
| PendingProjects.IndexNeverRefuses | internal/billing/service.go:785-799 | under the lock the unique index never refuses an insert |
| PendingProjects.PendingStore.ReserveRow | internal/billing/service.go:690-809 | alone, a row is reserved exactly when resolved rows are past the cooldown and unresolved ones strictly so; otherwise all is rolled back |
| PendingProjects.PendingStore.NewestInFlight | internal/billing/service.go:731-748 | the newest row in flight, none exactly when there is none |
| PendingProjects.PendingStore.SweepUnresolved | internal/billing/pending_sweep.go:69-80 | deletes exactly the rows without a payment that are more than a day old |
| PendingProjects.RowsGo | internal/billing/pending_sweep.go:69-80 | over any run a checkout with a payment disappears only by its own rollback, activation or failed payment, one without also by the sweep after a day or by a later request of its owner that began more than five minutes after it; only its payment ever changes |
| PendingProjects.RowsCome | internal/billing/service.go:785-799 | over any run every row and every open transaction goes back to a request of that owner, from the moment it began |
| PendingProjects.PaymentIsStored | internal/billing/service.go:712-729 | over any run the payment can be stored while no request of its owner began more than five minutes later; a row with a payment is never locked |
| PendingProjects.ReservationIsARun | internal/billing/service.go:690-809 | a transaction that begins, waits for its lock and runs on, beside others that wait or hold other locks, is one of the interleavings: it reserves its row exactly when the owner is free to check out, else nothing is left of it |
| PendingProjects.DeathLeavesNothing | internal/billing/service.go:690-701 | one that dies at any moment leaves no trace, its lock included |
| PendingProjects.SlowLockIsReclaimed | internal/billing/service.go:712-729 | a run in which a row inserted after a lock wait longer than the cooldown is reclaimed by the next request at the same moment |
| Calendar.MonthStepLandsInNextMonth | internal/billing/webhook.go:1223-1231 | for every date the result is in the next calendar month, on the smaller of the day and that month's last |
| Calendar.MonthStepDistance | internal/billing/webhook.go:1223-1231 | 28 to 31 days later |
| Calendar.MonthStepMonotone | internal/billing/webhook.go:1223-1231 | later dates never step to earlier ones |
| Calendar.CarryDaysKeepsDay | internal/billing/webhook.go:1224-1230 | Go's carrying of out-of-range days never moves the point on the day line |
| Calendar.CivilRoundTrip | internal/billing/webhook.go:1223-1231 | the calendar date of a day number has that day number |
| Calendar.RenewalFallbackNeverMovesBack | internal/billing/webhook.go:1205-1219 | the fallback keeps a date still ahead and otherwise steps one month, never back |
| Proration.RefundWithinAmount | internal/billing/refunds.go:29-69 | for every input the refund is between zero and the amount |
| Proration.FallbacksReachedOnlyBelowOneSecond | internal/billing/refunds.go:42-68 | in range nothing wraps or saturates, the zero-length guard and the clamps never fire, and the zero-seconds guard fires only below one second |
| Proration.LaterCancelNeverRefundsMore | internal/billing/refunds.go:29-69 | the refund never grows as the cancel moves later |
| Proration.RefundJustBelowExactShare | internal/billing/refunds.go:56-68 | for whole-second periods it is at most the exact share and less than 1 + amount/seconds cents below it |
| Proration.RoundsDownExactlyForWholeSeconds | internal/billing/refunds.go:20-28 | it rounds down exactly for periods of whole seconds, or below one |
| SqlTokens.TokenizeSound | functions-runner/sql_guard.ts:51-111 | the tokens of any input concatenate back to it and each fits the grammar where it stands |
| SqlTokens.TokenizeUnique | functions-runner/sql_guard.ts:51-111 | no other cut of the input into fitting tokens exists |
| SqlTokens.NextTokenFinds | functions-runner/sql_guard.ts:56-108 | a token followed by anything it fits before is the one the scanner cuts off |
| SqlGuard.SkipQuoted | functions-runner/sql_guard.ts:26-46 | the loop returns the end and the content of the quoted region, doubled quotes and escapes undone |
| SqlGuard.SkipBlockComment | functions-runner/sql_guard.ts:70-77 | the depth-counting loop ends where the nested comment of the grammar ends |
| SqlGuard.SkipDollar | functions-runner/sql_guard.ts:78-86 | the dollar-quote branch ends at the first closing tag |
| SqlGuard.SqlStatements | functions-runner/sql_guard.ts:51-111 | the scanner's loops compute exactly the statements of the token grammar, or its refusal |
| SqlWords.WordStands | functions-runner/sql_guard.ts:58-106 | every identifier token of an input is a word of its statement at its place: a plain one with keyword and name, a quoted one with its value as name and no keyword |
| SqlWords.WordIsIdentifier | functions-runner/sql_guard.ts:58-106 | and every word of a statement is such a token |
| SqlRegions.RegionIsSkipped | functions-runner/sql_guard.ts:26-101 | character by character: a string with its quotes doubled, an escape string, a U& string, a line comment, a comment nested to any depth and a dollar quote are each cut off as one token |
| SqlRegions.RegionNeverMatters | functions-runner/sql_guard.ts:51-111 | whatever is written in one of these, the guard's verdict on the whole input is the same |
| StatementLaws.StatementsCount | functions-runner/sql_guard.ts:64-111 | one statement more than there are top-level semicolons, together exactly the word tokens |
| StatementLaws.StatementsConcat | functions-runner/sql_guard.ts:51-111 | the statements of two token sequences in a row |
| StatementLaws.CommentIsSpace | functions-runner/sql_guard.ts:68-77 | replacing any comment by a space leaves all other tokens unchanged |
| StatementLaws.JoinedBySemicolon | functions-runner/sql_guard.ts:64-67 | a semicolon after an input that ends in the default state separates its statements from the next ones |
| StatementLaws.RefusedStays | functions-runner/sql_guard.ts:98-102 | an input refused for a Unicode identifier stays refused whatever follows |
| StatementLaws.QuoteIdentRoundTrip | functions-runner/role.ts:40-42 | scanning undoes quoting: for every string the quoted identifier is one token with the original value |
| StatementLaws.QuoteIdentInjective | functions-runner/role.ts:40-42 | different identifiers quote differently |
| PrivilegeGuard.PrivilegeStatementError | functions-runner/sql_guard.ts:114-191 | the guard's loops return no error exactly for accepted input |
| GuardLaws.AcceptedExactlyWhen | functions-runner/sql_guard.ts:114-191 | the verdict in literal words: exactly the inputs without a U&".." identifier all of whose statements are harmless are accepted |
| GuardLaws.NameIsRefused | functions-runner/sql_guard.ts:156-160 | an identifier token that names one of the seven settings, quoted or not, is refused anywhere outside strings and comments |
| GuardLaws.QuotedNameIsRefused | functions-runner/sql_guard.ts:58-63 | quoting such a name does not hide it, whatever text is before and behind |
| GuardLaws.PlainWordIsRefused | functions-runner/sql_guard.ts:156-166 | the same written plainly, and for GRANT, REVOKE, REASSIGN and AUTHORIZATION |
| GuardLaws.OpeningIsRefused | functions-runner/sql_guard.ts:130-137 | a statement after a semicolon that opens with transaction control or DO is refused |
| GuardLaws.PairIsRefused | functions-runner/sql_guard.ts:167-187 | two neighbouring words that make up role, ownership or privilege management are refused, whatever comments stand between |
| GuardLaws.UnicodeIdentifierIsRefused | functions-runner/sql_guard.ts:98-102 | a U&".." identifier is refused whatever it spells |
| PrivilegeGuard.AcceptedJoin | functions-runner/sql_guard.ts:114-191 | two inputs joined by a semicolon are accepted exactly when both are |
| PrivilegeGuard.RefusedJoin | functions-runner/sql_guard.ts:114-191 | a refused first part refuses the whole |
| PrivilegeGuard.CommentKeepsVerdict | functions-runner/sql_guard.ts:114-191 | a comment never changes the verdict |
| TenantKeys.TargetKeyCollidesExactlyWhen | functions-runner/tenant_route.ts:61-63 | an instance has the key of another exactly when its id or host contains an @, or its host or database a ":number/" |
| TenantKeys.DedicatedKeyCollidesExactlyWhen | functions-runner/tenant_db.ts:73-76 | a tenant on a dedicated instance has the cache key of another one exactly when that holds or its schema name contains an @ |
| TenantKeys.KeyCollidesExactlyWhen | functions-runner/tenant_db.ts:73-76 | among all tenants a schema on the shared cluster shares its key exactly when it is spelled like a dedicated tenant's key; a dedicated tenant shares its own with the shared schema of that very name |
| TenantRoutes.RouteCache.Peek | functions-runner/tenant_route.ts:90-92 | a hit is what a lookup for that project answered less than the ttl ago, and was ready |
| TenantRoutes.RouteCache.Put | functions-runner/tenant_route.ts:26-97 | a project without a row is routed to the shared cluster, one with a row to that row's own instance exactly when it is active and completely known; a ready answer is cached, a not-ready one is not, and at most 10,000 entries stay |
| TenantPool.StepKeeps | functions-runner/tenant_db.ts:72-142 | acquire, connection, failure, release, invalidate and eviction keep the pool consistent in every interleaving |
| TenantPool.LeasedIsNeverClosed | functions-runner/tenant_db.ts:128-142 | a client with an outstanding lease is connected and was not closed |
| TenantPool.InUseCounts | functions-runner/tenant_db.ts:86-109 | inUse is the number of pending calls and unreleased leases |
| TenantPool.EvictionIsLru | functions-runner/tenant_db.ts:112-125 | eviction takes idle entries only, least recently used first, and stops as soon as there is room or all others are busy |
| TenantPool.LastUsedIsLastUse | functions-runner/tenant_db.ts:86-99 | the recency eviction goes by is the time of the entry's last acquire or first release of a lease, over whole runs |
| TenantPool.AcquireStaysInCap | functions-runner/tenant_db.ts:72-86 | a new acquire leaves the size within the cap or every other entry busy |
| TenantPool.SharedClientSameTenant | functions-runner/tenant_db.ts:76-77 | two calls that ever share a client asked with one key, so for the same tenant if no name contains the key's separators |
| TenantPoolLaws.AcquireJoins | functions-runner/tenant_db.ts:72-88 | a caller whose key is cached joins that entry, and nothing else changes |
| TenantPoolLaws.AcquireCreates | functions-runner/tenant_db.ts:72-88 | any other caller gets an entry of its own with a client to be created |
| TenantPoolLaws.ResumeOutcome | functions-runner/tenant_db.ts:90-109 | a waiting call gets its lease when the client is there; when it failed the call is rejected, and exactly its entry leaves the cache |
| TenantPoolLaws.SettledCallEnds | functions-runner/tenant_db.ts:90-109 | a client that connects gives each waiting caller its lease, one that fails rejects it and leaves the cache, and no other client changes |
| TenantPoolLaws.FailedIsReplaced | functions-runner/tenant_db.ts:104-107 | so the next caller of that tenant gets a new client |
| TenantPoolLaws.FailureDoesNotStay | functions-runner/tenant_db.ts:104-107 | in every interleaving a failed client is cached only while a call is still to hear of the failure |
| TenantPoolLaws.InvalidateOutcome | functions-runner/tenant_db.ts:100-142 | after invalidate the lease's entry is not cached, the others stay in order, and its client is closed at once exactly when it was cached and unused |
| TenantPoolLaws.ReleaseOutcome | functions-runner/tenant_db.ts:94-99 | the first release ends the use and stamps its time, later ones do nothing |
| TenantPool.TenantDBPool.Acquire | functions-runner/tenant_db.ts:72-88 | the synchronous part of acquire takes exactly its step |
| TenantPool.TenantDBPool.EvictIdle | functions-runner/tenant_db.ts:112-125 | the eviction loops compute exactly the eviction |
| TenantPool.TenantDBPool.ResumeCall | functions-runner/tenant_db.ts:90-109 | a lease, or the failure path that uncaches only the same entry |
| TenantPool.TenantDBPool.ReleaseLease | functions-runner/tenant_db.ts:94-99 | releases once per lease |
| TenantPool.TenantDBPool.InvalidateLease | functions-runner/tenant_db.ts:100-102 | drops the client only if it is still the cached one |
| AuditChain.Verify | internal/audit/verifier.go:47-105 | accepts exactly intact chains and otherwise stops at the first bad row, with its id and the right reason |
| AuditChain.SplitIntact | internal/audit/verifier.go:51-64 | a chain is intact exactly when a prefix is and the rest is from its last hash |
| AuditChain.AlteredRowRejected | internal/audit/verifier.go:86-91 | a changed field is rejected at that row |
| AuditChain.RehashedRowRejected | internal/audit/verifier.go:92-98 | a changed field with a recomputed hash is rejected at the next row |
| AuditChain.InsertedRowRejected | internal/audit/verifier.go:92-98 | a row inserted before another is rejected at itself or the next row |
| AuditChain.OnlyTailCutAccepted | internal/audit/verifier.go:92-98 | deleting, repeating or reordering rows is accepted exactly when a prefix is left |
| AuditChain.FirstMisplacedRejected | internal/audit/verifier.go:92-98 | anything else is rejected at the first row out of place |
| AuditChain.AppendedRowAcceptedIffLinked | internal/audit/service.go:247-266 | at the end exactly a correctly linked row passes |
| AuditChain.SameHeadSameRows | internal/audit/verifier.go:84-104 | two accepted chains with one last hash are the same up to ids |
| AuditLog.StepKeeps | internal/audit/service.go:222-283 | concurrent locked appends, aborts and checkpointed prunes keep every chain intact and histories append-only |
| AuditLog.EveryMixVerifies | internal/audit/verifier.go:39-105 | after any mix the table verifies from the checkpoint, and pruned rows and survivors are one chain from the empty seed |
| AuditLog.LogNeverForks | internal/audit/service.go:238-266 | no two rows ever logged follow the same row, and what was logged stays a prefix |
| AuditLog.StepLogs | internal/audit/service.go:197-283 | only a commit adds to a chain, one linked row with the contents to be logged at its end; only a prune takes rows, the first ones and not all |
| AuditLog.LoggedWasAsked | internal/audit/service.go:238-283 | over any run every row ever logged goes back to a Log call of its project with its contents |
| AuditLog.LogIsARun | internal/audit/service.go:238-283 | beside any other calls, a Log call that finds its lock free puts exactly its linked row at the end of its chain |
| AuditLog.PruningAllBreaks | internal/audit/verifier.go:51-64 | a prune must leave a row: after pruning everything the next append is rejected |
| AuditLog.AuditTable.Log | internal/audit/service.go:197-283 | the project's chain grows by one row linked to its last, no other chain changes |
| AuditLog.AuditTable.HeadHash | internal/audit/service.go:258-264 | the hash of the project's last row in seq order |
| ArchiveExport.OnlySiblingsAreLost | internal/audit/archive_export.go:135-276 | with crashes anywhere, concurrent exporters and new rows, every row ever archived is in the table or a row of its id is in a blob |
| ArchiveExport.NothingIsLost | internal/audit/archive_export.go:135-276 | so no row is lost as long as no id is archived twice |
| ArchiveExport.SiblingIsLost | internal/audit/archive_export.go:249-270 | for any two rows of one id there is a run that deletes the later one without exporting it |
| ArchiveExport.DrainsInCeilRuns | internal/audit/archive_export.go:135-146 | n rows take exactly ceil(n / batch) non-empty runs, each row in exactly one blob, the table empty |
| ArchiveExport.ArchiveExporter.SelectBatch | internal/audit/archive_export.go:153-162 | up to the limit, oldest first, each row once |
| ArchiveExport.ArchiveExporter.Run | internal/audit/archive_export.go:147-276 | read, upload, delete: what is left after dying at either point |
| Passkeys.AcceptanceWindow | internal/auth/passkey.go:558-597 | a login token is accepted for five minutes and for less than a second more |
| Passkeys.LoginTokenUsedOnce | internal/auth/passkey.go:558-663 | a token yields one session at most if verify-to-mark takes at most 59 seconds (and a nanosecond) |
| Passkeys.SlowRequestReplays | internal/auth/passkey.go:933-944 | with any longer delay there is a run with two sessions |
| Passkeys.StoredChallengeUsedOnce | internal/auth/passkey.go:1003-1029 | a stored challenge is consumed at most once, for its own purpose, before it expires |
| Passkeys.StoredChallengeStays | internal/auth/passkey.go:933-1029 | in every run a stored challenge stays as saved until it is consumed or a minute past its expiry |
| Passkeys.ChallengeStore.SaveChallenge | internal/auth/passkey.go:933-960 | a challenge is saved for five minutes, and exactly the rows a minute past their expiry are swept |
| Passkeys.ChallengeStore.MarkChallengeUsed | internal/auth/passkey.go:961-976 | succeeds exactly for the first use of an id |
| Passkeys.ChallengeStore.ConsumeChallenge | internal/auth/passkey.go:1003-1029 | removes exactly an unexpired row of that purpose |

## Left out

Billing

- Several projects at once: a state is one project with its rows; users enter as ids with a Mollie customer.
- `beta_grant` rows, Team provisioning, billing profiles, `billed_to`, invoice numbers, PDF and mails.
- Two deliveries of one payment at the same time: deliveries of a payment are serialised.
- The refund, the stop and the invoice update of a delivery that refuses a payment are one step; one that dies among them is repeated.
- Project deletion itself: the rows stay after a deletion's cancels.
- The prorated refund call inside an immediate cancel; the amount itself is in `Proration`.
- Candidates of a sweep that change between selection and downgrade: selecting and downgrading is one step, and so is reading and closing in `CreateCheckout`'s `BillingStore` form (its statements are separate steps in `BillingSteps`).
- A project with a legacy grace that gets its first row through a new-project activation: activation of a new project is taken to find no grace.
- The reads a first-payment delivery makes before its Mollie call are one moment, and consecutive statements of a delivery with no read in between (a row's update and its invoice's mark) are one step.
- The activation of a new project in a run: `ActivatesProject` creates the Mollie subscription and the row in one step, so `CreatedIsAccountedFor` does not see that delivery die in between; `NewProject` has its effects one by one.
- NewProject.Activation.Run: Mollie creates the subscription exactly when the delivery gets the answer; a subscription whose answer was lost is not modelled there.
- A checkout's invoice row comes before its first payment settles and a rollback comes before both, as the checkout's own statements run; a checkout has one first payment.
- Sub-second parts of billing times, and the expiry of Mollie's idempotency keys.
- BillingStore.Store: its methods take the answers of Mollie and the clock as parameters or fields.
- NewProject.CrashRefinement: needs the same price at every delivery, because a later price would differ from the one Mollie was given.
- NewProject: prices and project columns other than the owner, and the development setup without a project creator.
- PendingProjects: a lost lock; the unique index is modelled, but under the lock it never acts.

Function SQL

- Text is a sequence of Dafny characters, not UTF-16 units; `toLowerCase` is any function, the same everywhere.
- The wording of the guard's messages: a refusal is a value saying which rule refused.

Tenant clients

- Role names and passwords, and idle closing by the driver.
- TenantPool.SharedClientSameTenant: one key means one tenant for schemas and ids without `@` and hosts without `/`, which is what the platform issues; the `TenantKeys` lemmas say exactly which names collide.

Audit

- SHA-256: hashes are free constructors, so collisions and the byte layout under the hash are outside the model. A row's columns are one value.
- The prune's choice of rows: a prune takes a prefix of a chain and leaves at least one row.
- Row ids and positions, which no hash covers.
- Object keys and retention periods of the export.

Passkeys

- WebAuthn itself, signatures and JSON: a token with a good signature is a value only signing makes; user ids of challenges.
- Different clocks for the service and the database.

Everything else in the repository (HTTP handlers, console, storage, e-mail, workers, provisioning) is outside this model.
