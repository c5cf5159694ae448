/** When a Pro project whose subscriptions are over goes on being Pro: which steps leave it so, and
    that time and the sweep then never end it. */
module BillingStrands {
  import opened Prelude
  import opened Runs
  import opened Billing
  import opened BillingInvariant
  import opened BillingKept
  import opened BillingDeliveries
  import opened BillingSteps
  import opened BillingHistory
  import opened BillingTakeover
  import opened BillingBooks
  import opened BillingTrace
  import opened BillingStops
  import opened BillingProgress
  import opened BillingPasses

  predicate HasRunning(w: World) {
    exists i :: i in w.subs && Running(w.subs[i])
  }

  // ----- The step that closes the last running row -----

  /** Mollie's report about a running row, or the update of a project deletion's cancel. */
  predicate ClosesKeepingPlan(w: World, s: Step, i: SubId) {
    && i in w.subs && Running(w.subs[i])
    && ((s.Charges? && s.charge.MollieEnds? && HasMollie(w, i, s.charge.m))
        || (s.Cancels? && s.cancel.Updates? && s.cancel.c in w.cancels
            && w.cancels[s.cancel.c].id == i && w.cancels[s.cancel.c].kind.ForDeletion?))
  }

  /** What a step leaves of a running row: something runs still, or the project is on Free. */
  predicate RunsOrFree(w: World) {
    HasRunning(w) || w.plan.Free?
  }

  lemma RowRuns(w: World, i: SubId)
    requires i in w.subs && Running(w.subs[i])
    ensures RunsOrFree(w)
  {
  }

  lemma PromoteRuns(w: World, charged: bool, i: SubId)
    requires RowsOk(w) && i in w.subs && Running(w.subs[i])
    ensures HasRunning(Promote(w, charged))
  {
    var w' := Promote(w, charged);
    match PromotionOf(w, charged)
    case NothingDue =>
    case Superseded => SupersedeKeepsRunning(w, charged, i);
    case IndexViolation =>
    case TookOver =>
      var s :| s in w.subs && Due(w.subs[s], w.now, charged);
      TakeOverDoes(w, charged, s, w');
      assert Running(w'.subs[s]);
  }

  lemma DowngradeRuns(w: World, ids: set<SubId>, i: SubId)
    requires i in w.subs && Running(w.subs[i]) && !Comped(w)
    ensures RunsOrFree(Downgrade(w, ids))
  {
    DowngradeExpires(w, ids, i);
    DowngradeDrops(w, ids);
  }

  lemma SweepRuns(w: World, sweep: SweepStep, i: SubId)
    requires RowsOk(w) && i in w.subs && Running(w.subs[i]) && !Comped(w)
    ensures RunsOrFree(ApplySweep(w, sweep))
  {
    match sweep
    case TakesOver => PromoteRuns(w, false, i);
    case DropsPastDue => DowngradeRuns(w, PastDueIds(w), i);
    case DropsLegacy => ToFreeRows(w);
    case DropsEnded => DowngradeRuns(w, EndedIds(w), i);
  }

  lemma FlipRuns(w: World, p: PaymentId, i: SubId, mollie: MollieSubId, next: Option<Time>)
    requires i in w.subs
    ensures HasRunning(Flip(w, p, i, mollie, next))
  {
    if p in w.invoices {
    }
    assert Running(Flip(w, p, i, mollie, next).subs[i]);
  }

  lemma ConfirmRuns(w: World, p: PaymentId, j: SubId, mollie: MollieSubId, next: Option<Time>, i: SubId)
    requires j in w.subs && i in w.subs && Running(w.subs[i])
    ensures HasRunning(Confirm(w, p, j, mollie, next))
  {
    assert Running(Confirm(w, p, j, mollie, next).subs[i]);
  }

  lemma FinishFirstRuns(w: World, p: PaymentId, next: Option<Time>, i: SubId)
    requires Inv(w) && FirstEnabled(w, FirstFinishes(p, next)) && i in w.subs && Running(w.subs[i])
    ensures RunsOrFree(FinishFirst(w, p, next))
  {
    var a := w.activating[p];
    if Abandons(w, p) {
      RefundRows(w.(activating := w.activating - {p}, stopped := w.stopped + {a.mollie}), p, w.payments[p].amount);
      RowRuns(FinishFirst(w, p, next), i);
    } else if a.scheduled {
      ConfirmRuns(w, p, a.sub, a.mollie, next, i);
    } else {
      FlipRuns(w, p, a.sub, a.mollie, next);
    }
  }

  lemma BeginFirstRuns(w: World, p: PaymentId, answer: Option<MollieSubId>, i: SubId)
    requires Inv(w) && IsFirst(w, p) && i in w.subs && Running(w.subs[i])
    ensures RunsOrFree(BeginFirst(w, p, answer))
  {
    assert FirstOk(w, p);
    BeginFirstRows(w, p, answer);
    RowRuns(BeginFirst(w, p, answer), i);
  }

  lemma FirstFailedRuns(w: World, p: PaymentId, i: SubId)
    requires IsFirst(w, p) && i in w.subs && Running(w.subs[i])
    ensures RunsOrFree(FirstFailed(w, p))
  {
    MarkedRows(w, p, InvoiceFailed);
    var w', j := FirstFailed(w, p), w.payments[p].sub;
    assert w'.subs == w.subs || (j != i && w'.subs == w.subs[j := Cancel(w.subs[j], w.now)]);
    RowRuns(w', i);
  }

  lemma FirstStepRuns(w: World, f: FirstStep, i: SubId)
    requires Inv(w) && FirstEnabled(w, f) && i in w.subs && Running(w.subs[i])
    ensures RunsOrFree(ApplyFirst(w, f))
  {
    match f
    case FirstSettles(_, _) => RowRuns(ApplyFirst(w, f), i);
    case FirstBegins(p, answer) => BeginFirstRuns(w, p, answer, i);
    case FirstFinishes(p, next) => FinishFirstRuns(w, p, next, i);
    case FirstTakesOver(_) => PromoteRuns(w, false, i);
    case FirstCrashes(_) => RowRuns(ApplyFirst(w, f), i);
    case FirstFails(p) => FirstFailedRuns(w, p, i);
  }

  lemma RecordFailureRuns(w: World, p: PaymentId, i: SubId)
    requires IsCharge(w, p) && i in w.subs && Running(w.subs[i])
    ensures HasRunning(RecordFailure(w, p))
  {
    var w' := RecordFailure(w, p);
    assert i in w'.subs && w'.subs[i] == FailRow(w.subs[i], w.payments[p].mollieSub, w.now);
  }

  lemma FinishRenewalRuns(w: World, p: PaymentId, mollieDate: Option<Time>, i: SubId)
    requires p in w.renewing && w.renewing[p].Renewal? && i in w.subs && Running(w.subs[i])
    ensures HasRunning(FinishRenewal(w, p, mollieDate))
  {
    var w' := FinishRenewal(w, p, mollieDate);
    if w.renewing[p].sub in w.subs {
    }
    assert i in w'.subs && Running(w'.subs[i]);
  }

  lemma ChargeStepRuns(w: World, c: ChargeStep, i: SubId)
    requires Inv(w) && ChargeEnabled(w, c) && i in w.subs && Running(w.subs[i])
    requires !ClosesKeepingPlan(w, Charges(c), i)
    ensures RunsOrFree(ApplyCharge(w, c))
  {
    match c
    case MollieCharges(_, _) => RowRuns(ApplyCharge(w, c), i);
    case ChargeSettles(_, _) => RowRuns(ApplyCharge(w, c), i);
    case ChargeLoads(p) =>
      LoadRows(w, p);
      RowRuns(ApplyCharge(w, c), i);
    case ChargeTakesOver(p) => PromoteRuns(CrashRenewal(w, p), true, i);
    case RenewalBegins(p) =>
      RenewAnyRows(w, p);
      RowRuns(ApplyCharge(w, c), i);
    case RenewalFinishes(p, mollieDate) => FinishRenewalRuns(w, p, mollieDate, i);
    case RenewalCrashes(_) => RowRuns(ApplyCharge(w, c), i);
    case ChargeFails(p) =>
      RowRuns(w, i);
      RecordFailureRuns(w, p, i);
    case MollieEnds(_, _) => RowRuns(ApplyCharge(w, c), i);
  }

  lemma CancelStepRuns(w: World, c: CancelStep, i: SubId)
    requires RowsOk(w) && CancelEnabled(w, c) && i in w.subs && Running(w.subs[i]) && w.plan.Pro?
    requires !ClosesKeepingPlan(w, Cancels(c), i)
    ensures RunsOrFree(ApplyCancel(w, c))
  {
    match c
    case Reads(_, _, _) => RowRuns(ApplyCancel(w, c), i);
    case Asks(_) => RowRuns(ApplyCancel(w, c), i);
    case Updates(q) =>
      if !w.cancels[q].kind.Immediately? {
        RowRuns(ApplyCancel(w, c), i);
      }
  }

  lemma CheckoutKeepsRunning(w: World, c: CheckoutStep, i: SubId)
    requires Inv(w) && CheckoutEnabled(w, c) && i in w.subs && Running(w.subs[i])
    ensures i in ApplyCheckout(w, c).subs && Running(ApplyCheckout(w, c).subs[i])
  {
    match c
    case ClosesAbandoned =>
    case Inserts(user, customer, plan, price) => InsertSameRow(w, user, customer, plan, price, i);
    case Schedules(user, customer, plan, price, startsAt, predecessor) =>
      ScheduleSameRow(w, user, customer, plan, price, startsAt, predecessor, i);
    case Pays(_, _) =>
    case Invoices(_) =>
    case RollsBack(id) =>
      RollbackSameRow(w, id, i);
      RollbackRemoves(w, id, i);
    case RollsBackScheduled(id) =>
      RollbackSameRow(w, id, i);
      RollbackRemoves(w, id, i);
    case ActivatesProject(_, _, _, _, _) =>
  }

  lemma RollbackRemoves(w: World, id: SubId, i: SubId)
    requires i in w.subs && Running(w.subs[i])
    ensures i in RollbackIncomplete(w, id).subs && i in RollbackScheduled(w, id).subs
  {
  }

  lemma CheckoutStepRuns(w: World, c: CheckoutStep, i: SubId)
    requires Inv(w) && CheckoutEnabled(w, c) && i in w.subs && Running(w.subs[i])
    ensures RunsOrFree(ApplyCheckout(w, c))
  {
    CheckoutKeepsRunning(w, c, i);
    RowRuns(ApplyCheckout(w, c), i);
  }

  lemma StepRuns(w: World, s: Step, i: SubId)
    requires Sound(w) && Enabled(w, s) && i in w.subs && Running(w.subs[i]) && w.plan.Pro? && !Comped(w)
    requires !ClosesKeepingPlan(w, s, i)
    ensures RunsOrFree(Apply(w, s))
  {
    match s
    case Tick(_) => RowRuns(Apply(w, s), i);
    case SetCustomer(_, _) => RowRuns(Apply(w, s), i);
    case SetComp(_) => RowRuns(Apply(w, s), i);
    case Transfer(newOwner, lastPaid) =>
      TransferRow(w, newOwner, lastPaid, i);
      RowRuns(Apply(w, s), i);
    case Checkouts(c) => CheckoutStepRuns(w, c, i);
    case FirstPayments(f) => FirstStepRuns(w, f, i);
    case Charges(c) => ChargeStepRuns(w, c, i);
    case Cancels(c) => CancelStepRuns(w, c, i);
    case Sweeps(sweep) => SweepRuns(w, sweep, i);
    case Stops(stop) =>
      StopStepRows(w, stop);
      RowRuns(Apply(w, s), i);
  }

  lemma NothingElseLive(w: World, i: SubId)
    requires RowsOk(w) && i in w.subs && Running(w.subs[i])
    ensures forall j | j in w.subs && Live(w.subs[j]) :: j == i
  {
    forall j | j in w.subs && Live(w.subs[j]) ensures j == i {
      OnlyRunning(w, i, j);
    }
  }

  lemma ClosingKeepsPlan(w: World, s: Step, i: SubId)
    requires Inv(w) && Enabled(w, s) && ClosesKeepingPlan(w, s, i)
    ensures !HasRunning(Apply(w, s)) && Apply(w, s).plan == w.plan
  {
    var w' := Apply(w, s);
    NothingElseLive(w, i);
    forall j | j in w'.subs ensures !Running(w'.subs[j]) {
      assert j in w.subs && (j != i ==> w'.subs[j] == w.subs[j]);
    }
  }

  /** Of all steps, exactly Mollie's report and a project deletion close the last running
      subscription of a Pro project that is not comped and leave it on Pro. */
  lemma ClosesOnProExactlyWhen(w: World, s: Step)
    requires Sound(w) && Enabled(w, s) && HasRunning(w) && w.plan.Pro? && !Comped(w)
    ensures !RunsOrFree(Apply(w, s)) <==> exists i :: ClosesKeepingPlan(w, s, i)
  {
    if i :| ClosesKeepingPlan(w, s, i) {
      ClosingKeepsPlan(w, s, i);
    } else {
      var i :| i in w.subs && Running(w.subs[i]);
      StepRuns(w, s, i);
    }
  }

  // ----- From there on -----

  predicate TimeOrSweep(s: Step) {
    s.Tick? || s.Sweeps?
  }

  /** Pro, not comped, and every subscription is closed, running out or waiting for its start. */
  predicate Settling(w: World) {
    && w.plan.Pro? && !Comped(w)
    && forall i | i in w.subs :: Closed(w.subs[i]) || RunsOut(w.subs[i]) || Confirmed(w.subs[i])
  }

  /** The project left Pro, or a waiting subscription took over. */
  ghost predicate Moved(w: World, w': World) {
    || !w'.plan.Pro?
    || exists s :: s in w.subs && Confirmed(w.subs[s]) && s in w'.subs && Running(w'.subs[s])
  }

  /** A run of time and sweeps only. */
  ghost predicate SettlingRun(w: World, ws: seq<World>, steps: seq<Step>) {
    IsRun(ws, steps) && ws[0] == w && forall k | 0 <= k < |steps| :: TimeOrSweep(steps[k])
  }

  ghost predicate MovesAlong(w: World, ws: seq<World>, steps: seq<Step>) {
    SettlingRun(w, ws, steps) && Moved(w, ws[|steps|])
  }

  /** Nothing for the sweep to do, ever: no open row and no legacy grace. */
  predicate Stranded(w: World) {
    w.plan.Pro? && w.graceUntil.None? && forall i | i in w.subs :: Closed(w.subs[i])
  }

  lemma StrandedStep(w: World, s: Step)
    requires Stranded(w) && Enabled(w, s) && TimeOrSweep(s)
    ensures Apply(w, s) == w.(now := Apply(w, s).now)
  {
    if s.Sweeps? {
      assert !AnyDue(w, false);
      NothingDuePromotes(w, false);
      forall i | i in w.subs ensures !GraceElapsed(w.subs[i], w.now) && !PeriodElapsed(w.subs[i], w.now) {
        assert Closed(w.subs[i]);
      }
      assert PastDueIds(w) == {};
      assert EndedIds(w) == {};
    }
  }

  lemma StrandedForGood(ws: seq<World>, steps: seq<Step>, a: nat, n: nat)
    requires IsRun(ws, steps) && a <= n <= |steps| && Stranded(ws[a])
    requires forall k | a <= k < n :: TimeOrSweep(steps[k])
    ensures Stranded(ws[n]) && ws[n].subs == ws[a].subs
  {
    if a < n {
      StrandedForGood(ws, steps, a, n - 1);
      StrandedStep(ws[n - 1], steps[n - 1]);
    }
  }

  lemma ClosedHasNoRow(w: World, w': World)
    requires (forall i | i in w.subs :: Closed(w.subs[i])) && w'.subs == w.subs && w'.plan.Pro?
    ensures !Moved(w, w')
  {
  }

  /** The run that ticks until `t` and then takes one step of the sweep. */
  lemma WaitThenSweep(w: World, t: Time, sweep: SweepStep) returns (ws: seq<World>, steps: seq<Step>)
    ensures SettlingRun(w, ws, steps) && |steps| == 2
    ensures var w1 := Elapse(w, if t > w.now then t - w.now else 0);
      ws[1] == w1 && w1.now >= t && ws[2] == ApplySweep(w1, sweep)
  {
    var seconds: nat := if t > w.now then t - w.now else 0;
    var w1 := Elapse(w, seconds);
    ws, steps := [w, w1, ApplySweep(w1, sweep)], [Tick(seconds), Sweeps(sweep)];
  }

  /** A waiting subscription takes over once its start has come. */
  lemma WaitingMoves(w: World, s: SubId) returns (ws: seq<World>, steps: seq<Step>)
    requires Sound(w) && Settling(w) && s in w.subs && Confirmed(w.subs[s])
    ensures MovesAlong(w, ws, steps)
  {
    assert RowOk(w.subs[s], w.now);
    ElapsedRows(w);
    ws, steps := StartMoves(w, s);
  }

  lemma ElapsedRows(w: World)
    requires RowsOk(w)
    ensures forall seconds: nat :: RowsOk(Elapse(w, seconds))
  {
  }

  lemma StartMoves(w: World, s: SubId) returns (ws: seq<World>, steps: seq<Step>)
    requires forall seconds: nat :: RowsOk(Elapse(w, seconds))
    requires forall i | i in w.subs :: Closed(w.subs[i]) || RunsOut(w.subs[i]) || Confirmed(w.subs[i])
    requires s in w.subs && Confirmed(w.subs[s]) && w.subs[s].startsAt.Some?
    ensures MovesAlong(w, ws, steps)
  {
    ws, steps := WaitThenSweep(w, w.subs[s].startsAt.value, TakesOver);
    SettledTakesOver(ws[1], s);
    assert Running(ws[2].subs[s]);
  }

  lemma SettledTakesOver(w: World, s: SubId)
    requires RowsOk(w) && s in w.subs && Due(w.subs[s], w.now, false)
    requires forall i | i in w.subs :: Closed(w.subs[i]) || RunsOut(w.subs[i]) || Confirmed(w.subs[i])
    ensures s in Promote(w, false).subs && Running(Promote(w, false).subs[s])
  {
    assert !Uncancelled(w) && !HasIncomplete(w);
    TakeOverDoes(w, false, s, Promote(w, false));
  }

  lemma PastDueMoves(w: World, i: SubId) returns (ws: seq<World>, steps: seq<Step>)
    requires w.plan.Pro? && !Comped(w) && i in w.subs && w.subs[i].status.PastDue? && w.subs[i].pastDueSince.Some?
    ensures MovesAlong(w, ws, steps)
  {
    ws, steps := WaitThenSweep(w, w.subs[i].pastDueSince.value + PAST_DUE_GRACE + 1, DropsPastDue);
    DropsWhenPastDue(ws[1], i);
  }

  lemma PeriodMoves(w: World, i: SubId) returns (ws: seq<World>, steps: seq<Step>)
    requires w.plan.Pro? && !Comped(w) && i in w.subs && RunsOut(w.subs[i]) && w.subs[i].status.Active? && !HasConfirmed(w)
    ensures MovesAlong(w, ws, steps)
  {
    ws, steps := WaitThenSweep(w, w.subs[i].nextChargeAt.value + 1, DropsEnded);
    DropsWhenEnded(ws[1], i);
  }

  /** One that runs out is ended by the sweep once its time is up. */
  lemma RunningOutMoves(w: World, i: SubId) returns (ws: seq<World>, steps: seq<Step>)
    requires Sound(w) && Settling(w) && i in w.subs && RunsOut(w.subs[i]) && !HasConfirmed(w)
    ensures MovesAlong(w, ws, steps)
  {
    assert RowOk(w.subs[i], w.now);
    if w.subs[i].status.PastDue? {
      ws, steps := PastDueMoves(w, i);
    } else {
      ws, steps := PeriodMoves(w, i);
    }
  }

  lemma DropsWhenPastDue(w: World, i: SubId)
    requires w.plan.Pro? && !Comped(w) && i in w.subs && GraceElapsed(w.subs[i], w.now)
    ensures SweepPastDue(w).plan.Free?
  {
    assert i in PastDueIds(w);
    DowngradeDrops(w, PastDueIds(w));
  }

  lemma DropsWhenEnded(w: World, i: SubId)
    requires w.plan.Pro? && !Comped(w) && i in w.subs && PeriodElapsed(w.subs[i], w.now) && !HasConfirmed(w)
    ensures SweepEnded(w).plan.Free?
  {
    assert i in EndedIds(w);
    DowngradeDrops(w, EndedIds(w));
  }

  lemma GraceMoves(w: World) returns (ws: seq<World>, steps: seq<Step>)
    requires Sound(w) && Settling(w) && w.graceUntil.Some? && forall i | i in w.subs :: Closed(w.subs[i])
    ensures MovesAlong(w, ws, steps)
  {
    ws, steps := WaitThenSweep(w, w.graceUntil.value + 1, DropsLegacy);
    DropsLegacyGrace(ws[1]);
  }

  lemma DropsLegacyGrace(w: World)
    requires w.plan.Pro? && !Comped(w) && w.graceUntil.Some? && w.graceUntil.value < w.now
    requires forall i | i in w.subs :: Closed(w.subs[i])
    ensures SweepLegacy(w).plan.Free?
  {
    assert LegacyElapsed(w);
  }

  /** A settling project leaves Pro, or hands over, by time and sweeps alone exactly when a
      subscription still runs out or waits, or a legacy grace is set. */
  lemma MovesExactlyWhen(w: World)
    requires Sound(w) && Settling(w)
    ensures (exists ws, steps :: MovesAlong(w, ws, steps))
       <==> w.graceUntil.Some? || exists i :: i in w.subs && !Closed(w.subs[i])
  {
    if s :| s in w.subs && Confirmed(w.subs[s]) {
      var ws, steps := WaitingMoves(w, s);
    } else if i :| i in w.subs && !Closed(w.subs[i]) {
      assert !HasConfirmed(w);
      var ws, steps := RunningOutMoves(w, i);
    } else if w.graceUntil.Some? {
      var ws, steps := GraceMoves(w);
    } else {
      forall ws, steps | SettlingRun(w, ws, steps) ensures !MovesAlong(w, ws, steps) {
        StrandedForGood(ws, steps, 0, |steps|);
        ClosedHasNoRow(w, ws[|steps|]);
      }
    }
  }

  // ----- Transfers -----

  /** If row `i` runs at moment `k`, on a Pro project that is not comped, then after the step
      something still runs or the project is on Free, but for Mollie's report and a deletion. */
  ghost predicate LeavesRunning(ws: seq<World>, steps: seq<Step>, k: nat, i: SubId)
    requires k < |steps| && |ws| == |steps| + 1
  {
    i in ws[k].subs && Running(ws[k].subs[i]) && ws[k].plan.Pro? && !Comped(ws[k]) ==>
      RunsOrFree(ws[k + 1]) || exists j :: ClosesKeepingPlan(ws[k], steps[k], j)
  }

  /** From the transfer on: a pass of the sweep at which the old subscription's past-due grace is
      up closes it, one at which its period is up closes it unless a successor is confirmed in the
      middle and does not take over, and whichever step closes it leaves something running or the
      project on Free. */
  lemma TransferProgresses(ws: seq<World>, steps: seq<Step>, a: nat, k1: nat, k2: nat, k3: nat, k4: nat, i: SubId)
    requires IsRun(ws, steps) && Sound(ws[0]) && a < k1 && Pass(steps, k1, k2, k3, k4)
    requires steps[a].Transfer? && i in ws[a].subs && Running(ws[a].subs[i])
    ensures i in ws[k2].subs && i in ws[k4].subs && i in ws[k4 + 1].subs
    ensures GraceElapsed(ws[k2].subs[i], ws[k2].now) && ws[k2].plan.Pro? ==> Closed(ws[k4 + 1].subs[i])
    ensures ClosedOrUp(ws[k1], i) && ClosedOrUp(ws[k4], i) ==>
      (!Closed(ws[k4 + 1].subs[i]) <==> !Closed(ws[k4].subs[i]) && exists s :: LateSuccessor(ws, steps, k1, k4, s))
    ensures forall k: nat | a <= k <= k4 :: LeavesRunning(ws, steps, k, i)
  {
    TransferLeaves(ws, steps, a, k2, i);
    TransferLeaves(ws, steps, a, k4, i);
    TransferLeaves(ws, steps, a, k4 + 1, i);
    if GraceElapsed(ws[k2].subs[i], ws[k2].now) && ws[k2].plan.Pro? {
      GracePassEnds(ws, steps, k1, k2, k3, k4, i);
    }
    if ClosedOrUp(ws[k1], i) && ClosedOrUp(ws[k4], i) {
      SurvivesExactlyWhen(ws, steps, k1, k2, k3, k4, i);
    }
    forall k: nat | a <= k <= k4 ensures LeavesRunning(ws, steps, k, i) {
      RunKeeps(ws, steps, k, k);
      if i in ws[k].subs && Running(ws[k].subs[i]) && ws[k].plan.Pro? && !Comped(ws[k]) {
        ClosesOnProExactlyWhen(ws[k], steps[k]);
      }
    }
  }
}
