/** Handing a project from one subscription to the next without a gap. */
module BillingTakeover {
  import opened Prelude
  import opened Billing
  import opened BillingInvariant
  import opened BillingFrames
  import opened BillingKept
  import opened BillingDeliveries
  import opened BillingSteps
  import opened BillingRuns
  import opened BillingHistory
  import opened BillingTrace

  // ----- The takeover itself -----

  /** A takeover never touches a running subscription nobody cancelled. */
  lemma UncancelledIsNotRetired(w: World, charged: bool, i: SubId)
    requires i in w.subs && Running(w.subs[i]) && w.subs[i].canceledAt.None?
    ensures i in Promote(w, charged).subs && Promote(w, charged).subs[i] == w.subs[i]
  {
    assert Uncancelled(w);
    match PromotionOf(w, charged)
    case NothingDue =>
    case Superseded => SupersedeKeepsRunning(w, charged, i);
    case IndexViolation =>
  }

  lemma SupersedeKeepsRunning(w: World, charged: bool, i: SubId)
    requires i in w.subs && Running(w.subs[i])
    ensures i in Supersede(w, charged).subs && Supersede(w, charged).subs[i] == w.subs[i]
  {
  }

  /** One transaction: the due subscription goes live, everything that was running is expired,
      and a project not on a Team plan gets the new plan. */
  lemma TakeOverDoes(w: World, charged: bool, s: SubId, w': World)
    requires RowsOk(w) && PromotionOf(w, charged).TookOver? && s in w.subs && Due(w.subs[s], w.now, charged)
    requires w' == Promote(w, charged)
    ensures w'.subs.Keys == w.subs.Keys
    ensures w'.subs[s].status.Active? && w'.subs[s].startedAt.Some? && w'.subs[s].mollieSub == w.subs[s].mollieSub
    ensures forall i | i in w.subs && Running(w.subs[i]) ::
              w'.subs[i].status.Expired? && w'.subs[i].canceledAt == w.subs[i].canceledAt && w.subs[i].canceledAt.Some?
    ensures forall i | i in w.subs && Running(w.subs[i]) && w.subs[i].mollieSub.Some? :: w.subs[i].mollieSub.value in w'.owed
    ensures forall i | i in w.subs && i != s && !Running(w.subs[i]) :: w'.subs[i] == w.subs[i]
    ensures if w.plan.Team? || w.plan.LegalTeam? then w'.plan == w.plan else w'.plan == w.subs[s].plan && w'.graceUntil.None?
  {
    assert w' == TakeOver(w, charged);
    var q :| q in w.subs && Due(w.subs[q], w.now, charged) && PlanAfter(w, charged) == if w.plan.Team? || w.plan.LegalTeam? then w.plan else w.subs[q].plan;
    assert q == s;
    forall i | i in w.subs && Running(w.subs[i])
      ensures w'.subs[i] == Expire(w.subs[i], w.now) && w.subs[i].canceledAt.Some?
      ensures w.subs[i].mollieSub.Some? ==> w.subs[i].mollieSub.value in w'.owed
    {
      assert !Uncancelled(w);
    }
  }

  lemma NoneDueAfterSupersede(w: World, charged: bool)
    ensures !AnyDue(Supersede(w, charged), charged)
  {
  }

  lemma NoneDueAfterTakeOver(w: World, charged: bool)
    requires RowsOk(w) && PromotionOf(w, charged).TookOver?
    ensures !AnyDue(TakeOver(w, charged), charged)
  {
    var s := TakeOverRows(w, charged);
    var w' := TakeOver(w, charged);
    forall i | i in w'.subs ensures !Due(w'.subs[i], w'.now, charged) {
      assert !w'.subs[i].status.Scheduled?;
    }
  }

  lemma NothingDuePromotes(w: World, charged: bool)
    requires !AnyDue(w, charged)
    ensures Promote(w, charged) == w
  {
  }

  /** Repeating a takeover changes nothing. */
  lemma TakeOverTwice(w: World, charged: bool)
    requires RowsOk(w)
    ensures Promote(Promote(w, charged), charged) == Promote(w, charged)
  {
    match PromotionOf(w, charged)
    case NothingDue =>
    case IndexViolation =>
    case Superseded =>
      NoneDueAfterSupersede(w, charged);
      NothingDuePromotes(Supersede(w, charged), charged);
    case TookOver =>
      NoneDueAfterTakeOver(w, charged);
      NothingDuePromotes(TakeOver(w, charged), charged);
  }

  // ----- Rows keep their Mollie subscription -----

  lemma TakeOverMollie(w: World, charged: bool, i: SubId)
    requires i in w.subs && AnyDue(w, charged)
    ensures i in TakeOver(w, charged).subs && TakeOver(w, charged).subs[i].mollieSub == w.subs[i].mollieSub
  {
  }

  lemma SupersedeMollie(w: World, charged: bool, i: SubId)
    requires i in w.subs
    ensures i in Supersede(w, charged).subs && Supersede(w, charged).subs[i].mollieSub == w.subs[i].mollieSub
  {
  }

  // ----- Checkouts leave the other rows alone -----

  lemma InsertSameRow(w: World, user: UserId, customer: Customer, plan: Plan, price: nat, i: SubId)
    requires i in w.subs && i < w.nextId
    ensures i in InsertIncomplete(w, user, customer, plan, price).subs
    ensures InsertIncomplete(w, user, customer, plan, price).subs[i] == w.subs[i]
  {
  }

  lemma ScheduleSameRow(w: World, user: UserId, customer: Customer, plan: Plan, price: nat, startsAt: Time, predecessor: SubId, i: SubId)
    requires i in w.subs && i < w.nextId
    ensures i in InsertScheduled(w, user, customer, plan, price, startsAt, predecessor).subs
    ensures InsertScheduled(w, user, customer, plan, price, startsAt, predecessor).subs[i] == w.subs[i]
  {
  }

  lemma RollbackSameRow(w: World, id: SubId, i: SubId)
    requires i in w.subs
    ensures i in RollbackIncomplete(w, id).subs ==> RollbackIncomplete(w, id).subs[i] == w.subs[i]
    ensures i in RollbackScheduled(w, id).subs ==> RollbackScheduled(w, id).subs[i] == w.subs[i]
  {
  }

  lemma ActivatedSameRow(w: World, p: PaymentId, customer: Customer, price: nat, mollie: Option<MollieSubId>, next: Option<Time>, i: SubId)
    requires i in w.subs && i < w.nextId
    ensures var w' := InsertActivated(w, p, customer, price, mollie, next); i in w'.subs && w'.subs[i] == w.subs[i]
  {
    if HasLive(w) || p in w.invoices {
    }
  }

  // ----- A subscription waiting for its start -----

  predicate Waiting(w: World, s: SubId) {
    s in w.subs && Confirmed(w.subs[s])
  }

  /** What can close a waiting subscription before it starts: a transfer, its cancellation here
      or at Mollie, or a takeover, of the sweep, of a late confirmation or of a charge, that finds
      a running subscription nobody cancelled. */
  ghost predicate EndsWaiting(w: World, step: Step, s: SubId)
    requires Waiting(w, s)
  {
    match step
    case Transfer(_, _) => true
    case Cancels(Updates(c)) => c in w.cancels && w.cancels[c].id == s && !w.cancels[c].kind.AtPeriodEnd?
    case Charges(MollieEnds(m, completed)) => !completed && HasMollie(w, s, m)
    case Charges(ChargeTakesOver(_)) => Uncancelled(w)
    case FirstPayments(FirstTakesOver(_)) => Uncancelled(w) && Due(w.subs[s], w.now, false)
    case Sweeps(TakesOver) => Uncancelled(w) && Due(w.subs[s], w.now, false)
    case _ => false
  }

  /** The two steps that may take the plan away: the past-due grace that has run out, and an
      immediate cancel. */
  predicate DropsPlan(w: World, step: Step) {
    || (step == Sweeps(DropsPastDue) && PastDueIds(w) != {})
    || (step.Cancels? && step.cancel.Updates? && step.cancel.c in w.cancels && w.cancels[step.cancel.c].kind.Immediately?)
  }

  /** The waiting subscription took over: in one step it is running, every subscription that
      was running is expired, and the project is on its plan unless it is a Team project. */
  ghost predicate Handed(w: World, w': World, s: SubId) {
    && s in w.subs && s in w'.subs && Running(w'.subs[s])
    && (forall i | i in w.subs && Running(w.subs[i]) :: i in w'.subs && w'.subs[i].status.Expired?)
    && (if w.plan.Team? || w.plan.LegalTeam? then w'.plan == w.plan else w'.plan == w.subs[s].plan)
  }

  /** It waits on, or took over; before its start date only a charge makes it. */
  ghost predicate WaitsOrHanded(w: World, w': World, charged: bool, s: SubId)
    requires Waiting(w, s)
  {
    Waiting(w', s) || (Handed(w, w', s) && Due(w.subs[s], w.now, charged))
  }

  lemma OneScheduled(w: World, s: SubId, i: SubId)
    requires RowsOk(w) && Waiting(w, s) && i in w.subs && w.subs[i].status.Scheduled?
    ensures i == s
  {
  }

  lemma OnlyDue(w: World, charged: bool, s: SubId)
    requires RowsOk(w) && Waiting(w, s)
    ensures AnyDue(w, charged) ==> Due(w.subs[s], w.now, charged)
  {
    if AnyDue(w, charged) {
      var q :| q in w.subs && Due(w.subs[q], w.now, charged);
      OneScheduled(w, s, q);
    }
  }

  lemma PromoteWaiting(w: World, charged: bool, s: SubId)
    requires RowsOk(w) && Waiting(w, s) && (Due(w.subs[s], w.now, charged) ==> !Uncancelled(w))
    ensures WaitsOrHanded(w, Promote(w, charged), charged, s)
  {
    OnlyDue(w, charged, s);
    match PromotionOf(w, charged)
    case NothingDue =>
    case IndexViolation =>
    case TookOver => TakeOverDoes(w, charged, s, Promote(w, charged));
  }

  lemma RefundRows(w: World, p: PaymentId, amount: nat)
    ensures RefundFirst(w, p, amount).subs == w.subs && RefundFirst(w, p, amount).plan == w.plan
  {
  }

  lemma FirstStepWaiting(w: World, f: FirstStep, s: SubId)
    requires Inv(w) && FirstEnabled(w, f) && Waiting(w, s) && !EndsWaiting(w, FirstPayments(f), s)
    ensures WaitsOrHanded(w, ApplyFirst(w, f), false, s)
  {
    match f
    case FirstSettles(_, _) =>
    case FirstTakesOver(_) => PromoteWaiting(w, false, s);
    case FirstCrashes(_) =>
    case FirstFails(_) =>
    case FirstBegins(p, answer) => BeginFirstRows(w, p, answer);
    case FirstFinishes(p, next) => FinishFirstWaiting(w, p, next, s);
  }

  /** Up to the Mollie call a delivery changes at most its own checkout's row, and never the plan. */
  lemma BeginFirstRows(w: World, p: PaymentId, answer: Option<MollieSubId>)
    requires IsFirst(w, p)
    ensures var w', i := BeginFirst(w, p, answer), w.payments[p].sub;
      && w'.plan == w.plan && w'.subs.Keys == w.subs.Keys
      && (forall j | j in w.subs && j != i :: w'.subs[j] == w.subs[j])
      && (i in w.subs && w.subs[i].mollieSub.Some? ==> w'.subs == w.subs)
  {
    var f := w.payments[p];
    if f.sub in w.subs {
      var r := w.subs[f.sub];
      if r.mollieSub.Some? {
        MarkedRows(w, p, InvoicePaid);
      } else if (!r.status.Incomplete? && !r.status.Scheduled?) || !PayerIsOwner(w, r, f.customer) {
        RefundRows(CloseUnconfirmed(w, f.sub), p, f.amount);
        CloseUnconfirmedRow(w, f.sub);
      } else if r.status.Scheduled? && Conflicting(w) {
      } else if answer.Some? {
        StartActivationRows(w, p, f.sub, answer.value, r.status.Scheduled?);
      }
    }
  }

  lemma MarkedRows(w: World, p: PaymentId, status: InvoiceStatus)
    ensures MarkInvoice(w, p, status).subs == w.subs && MarkInvoice(w, p, status).plan == w.plan
  {
  }

  lemma StartActivationRows(w: World, p: PaymentId, i: SubId, mollie: MollieSubId, scheduled: bool)
    ensures var w' := StartActivation(w, p, i, mollie, scheduled); w'.subs == w.subs && w'.plan == w.plan
  {
  }

  lemma CloseUnconfirmedRow(w: World, id: SubId)
    ensures var w' := CloseUnconfirmed(w, id);
      w'.plan == w.plan && w'.subs.Keys == w.subs.Keys && forall j | j in w.subs && j != id :: w'.subs[j] == w.subs[j]
  {
    if id in w.subs && Unconfirmed(w.subs[id]) {
    }
  }

  lemma FlipOther(w: World, p: PaymentId, i: SubId, mollie: MollieSubId, next: Option<Time>, s: SubId)
    requires i in w.subs && s in w.subs && s != i
    ensures s in Flip(w, p, i, mollie, next).subs && Flip(w, p, i, mollie, next).subs[s] == w.subs[s]
  {
  }

  lemma FinishFirstWaiting(w: World, p: PaymentId, next: Option<Time>, s: SubId)
    requires RowsOk(w) && IsFirst(w, p) && p in w.activating && Waiting(w, s)
    ensures Waiting(FinishFirst(w, p, next), s)
  {
    var a := w.activating[p];
    RefundRows(w.(activating := w.activating - {p}, stopped := w.stopped + {a.mollie}), p, w.payments[p].amount);
    if a.scheduled {
      if a.sub in w.subs && w.subs[a.sub].status.Scheduled? { OneScheduled(w, s, a.sub); }
    } else if a.sub in w.subs && w.subs[a.sub].status.Incomplete? {
      FlipOther(w, p, a.sub, a.mollie, next, s);
    }
  }

  lemma LoadRows(w: World, p: PaymentId)
    requires IsCharge(w, p) && ScheduledFor(w, w.payments[p].mollieSub)
    ensures LoadScheduled(w, p).subs == w.subs && LoadScheduled(w, p).plan == w.plan
  {
  }

  lemma TakeOverChargedWaiting(w: World, p: PaymentId, s: SubId)
    requires RowsOk(w) && Waiting(w, s) && !Uncancelled(w)
    ensures WaitsOrHanded(w, TakeOverCharged(w, p), true, s)
  {
    PromoteWaiting(CrashRenewal(w, p), true, s);
  }

  lemma RenewAnyRows(w: World, p: PaymentId)
    requires IsCharge(w, p)
    ensures RenewAny(w, p).subs == w.subs && RenewAny(w, p).plan == w.plan
  {
    if exists i :: HasMollie(w, i, w.payments[p].mollieSub) {
      RenewRowRows(w, p, RowOf(w, w.payments[p].mollieSub));
    }
  }

  lemma RenewRowRows(w: World, p: PaymentId, i: SubId)
    requires IsCharge(w, p) && i in w.subs
    ensures RenewRow(w, p, i).subs == w.subs && RenewRow(w, p, i).plan == w.plan
  {
    if w.subs[i].canceledAt.Some? && w.payments[p].createdAt > w.subs[i].canceledAt.value {
    }
  }

  lemma RecordFailureWaiting(w: World, p: PaymentId, s: SubId)
    requires IsCharge(w, p) && Waiting(w, s)
    ensures Waiting(RecordFailure(w, p), s)
  {
    MarkedRows(w.(subs := FailedRows(w.subs, w.payments[p].mollieSub, w.now)), p, InvoiceFailed);
  }

  lemma ChargeStepWaiting(w: World, c: ChargeStep, s: SubId)
    requires Inv(w) && ChargeEnabled(w, c) && Waiting(w, s) && !EndsWaiting(w, Charges(c), s)
    ensures WaitsOrHanded(w, ApplyCharge(w, c), c.ChargeTakesOver?, s)
  {
    match c
    case MollieCharges(_, _) =>
    case ChargeSettles(_, _) =>
    case ChargeLoads(p) => LoadRows(w, p);
    case ChargeTakesOver(p) => TakeOverChargedWaiting(w, p, s);
    case RenewalBegins(p) => RenewAnyRows(w, p);
    case RenewalFinishes(_, _) =>
    case RenewalCrashes(_) =>
    case ChargeFails(p) => RecordFailureWaiting(w, p, s);
    case MollieEnds(_, _) =>
  }

  lemma CheckoutStepWaiting(w: World, c: CheckoutStep, s: SubId)
    requires Inv(w) && CheckoutEnabled(w, c) && Waiting(w, s)
    ensures Waiting(ApplyCheckout(w, c), s)
  {
    match c
    case ClosesAbandoned =>
    case Inserts(_, _, _, _) =>
    case Schedules(_, _, _, _, _, _) =>
    case Pays(_, _) =>
    case Invoices(_) =>
    case RollsBack(_) =>
    case RollsBackScheduled(_) =>
    case ActivatesProject(_, _, _, _, _) =>
  }

  lemma DowngradeWaiting(w: World, ids: set<SubId>, s: SubId)
    requires Waiting(w, s) && s !in ids
    ensures Waiting(Downgrade(w, ids), s)
  {
    if w.plan.Pro? && ids != {} {
      ToFreeRows(ExpireAll(w, ids));
    }
  }

  lemma ToFreeRows(w: World)
    ensures ToFree(w).subs == w.subs
  {
  }

  lemma SweepStepWaiting(w: World, sweep: SweepStep, s: SubId)
    requires RowsOk(w) && Waiting(w, s) && !EndsWaiting(w, Sweeps(sweep), s)
    ensures WaitsOrHanded(w, ApplySweep(w, sweep), false, s)
  {
    match sweep
    case TakesOver => PromoteWaiting(w, false, s);
    case DropsPastDue => DowngradeWaiting(w, PastDueIds(w), s);
    case DropsLegacy => ToFreeRows(w);
    case DropsEnded => DowngradeWaiting(w, EndedIds(w), s);
  }

  lemma CancelStepWaiting(w: World, c: CancelStep, s: SubId)
    requires CancelEnabled(w, c) && Waiting(w, s) && !EndsWaiting(w, Cancels(c), s)
    ensures Waiting(ApplyCancel(w, c), s)
  {
    match c
    case Reads(_, _, _) =>
    case Asks(_) =>
    case Updates(_) =>
  }

  lemma StopStepRows(w: World, s: StopStep)
    ensures ApplyStop(w, s).subs == w.subs && ApplyStop(w, s).plan == w.plan
  {
  }

  /** Nothing else ends the wait. */
  lemma StepWaiting(w: World, step: Step, s: SubId)
    requires Inv(w) && Enabled(w, step) && Waiting(w, s) && !EndsWaiting(w, step, s)
    ensures WaitsOrHanded(w, Apply(w, step), step.Charges? && step.charge.ChargeTakesOver?, s)
  {
    match step
    case Tick(_) =>
    case SetCustomer(_, _) =>
    case SetComp(_) =>
    case Checkouts(c) => CheckoutStepWaiting(w, c, s);
    case FirstPayments(f) => FirstStepWaiting(w, f, s);
    case Charges(c) => ChargeStepWaiting(w, c, s);
    case Cancels(c) => CancelStepWaiting(w, c, s);
    case Sweeps(sweep) => SweepStepWaiting(w, sweep, s);
    case Stops(stop) => StopStepRows(w, stop);
  }

  /** ... and each of these does end it: the row is closed. */
  lemma EndsWaitingCloses(w: World, step: Step, s: SubId)
    requires Inv(w) && Enabled(w, step) && Waiting(w, s) && EndsWaiting(w, step, s)
    ensures s in Apply(w, step).subs && Closed(Apply(w, step).subs[s])
  {
    match step
    case Transfer(_, _) =>
    case Cancels(c) => CancelCloses(w, c.c, s);
    case Charges(c) =>
      if c.ChargeTakesOver? { SupersededCloses(CrashRenewal(w, c.p), true, s); }
    case FirstPayments(_) => SupersededCloses(w, false, s);
    case Sweeps(_) => SupersededCloses(w, false, s);
  }

  lemma CancelCloses(w: World, c: RequestId, s: SubId)
    requires c in w.cancels && Waiting(w, s) && w.cancels[c].id == s && !w.cancels[c].kind.AtPeriodEnd?
    ensures s in UpdateCanceled(w, c).subs && Closed(UpdateCanceled(w, c).subs[s])
  {
  }

  lemma SupersededCloses(w: World, charged: bool, s: SubId)
    requires Waiting(w, s) && Uncancelled(w) && Due(w.subs[s], w.now, charged)
    ensures PromotionOf(w, charged).Superseded?
    ensures s in Promote(w, charged).subs && Closed(Promote(w, charged).subs[s])
  {
  }

  // ----- The plan -----

  lemma PromotePlan(w: World, charged: bool)
    requires PaidPlans(w) && w.plan != Free
    ensures Promote(w, charged).plan != Free
  {
    match PromotionOf(w, charged)
    case NothingDue =>
    case Superseded =>
    case IndexViolation =>
    case TookOver => TakeOverPlan(w, charged);
  }

  lemma TakeOverPlan(w: World, charged: bool)
    requires PaidPlans(w) && w.plan != Free && AnyDue(w, charged)
    ensures TakeOver(w, charged).plan != Free
  {
  }

  lemma FinishFirstPlan(w: World, p: PaymentId, next: Option<Time>)
    requires IsFirst(w, p) && p in w.activating && PaidPlans(w) && w.plan != Free
    ensures FinishFirst(w, p, next).plan != Free
  {
    var a := w.activating[p];
    RefundRows(w.(activating := w.activating - {p}, stopped := w.stopped + {a.mollie}), p, w.payments[p].amount);
    if a.sub in w.subs && a.scheduled && w.subs[a.sub].status.Scheduled? && w.subs[a.sub].mollieSub.None? {
    }
  }

  lemma FirstStepPlan(w: World, f: FirstStep)
    requires FirstEnabled(w, f) && PaidPlans(w) && w.plan != Free
    ensures ApplyFirst(w, f).plan != Free
  {
    match f
    case FirstSettles(_, _) =>
    case FirstCrashes(_) =>
    case FirstFails(_) =>
    case FirstBegins(p, answer) => BeginFirstRows(w, p, answer);
    case FirstFinishes(p, next) => FinishFirstPlan(w, p, next);
    case FirstTakesOver(_) => PromotePlan(w, false);
  }

  lemma CheckoutStepPlan(w: World, c: CheckoutStep)
    requires CheckoutEnabled(w, c)
    ensures ApplyCheckout(w, c).plan == w.plan
  {
    match c
    case ClosesAbandoned =>
    case Inserts(_, _, _, _) =>
    case Schedules(_, _, _, _, _, _) =>
    case Pays(_, _) =>
    case Invoices(_) =>
    case RollsBack(_) =>
    case RollsBackScheduled(_) =>
    case ActivatesProject(_, _, _, _, _) =>
  }

  lemma CancelStepPlan(w: World, c: CancelStep)
    requires CancelEnabled(w, c) && !DropsPlan(w, Cancels(c))
    ensures ApplyCancel(w, c).plan == w.plan
  {
    match c
    case Reads(_, _, _) =>
    case Asks(_) =>
    case Updates(_) =>
  }

  lemma ChargeStepPlan(w: World, c: ChargeStep)
    requires ChargeEnabled(w, c) && PaidPlans(w) && w.plan != Free
    ensures ApplyCharge(w, c).plan != Free
  {
    match c
    case MollieCharges(_, _) =>
    case ChargeSettles(_, _) =>
    case ChargeLoads(p) => LoadRows(w, p);
    case ChargeTakesOver(p) => PromotePlan(CrashRenewal(w, p), true);
    case RenewalBegins(p) => RenewAnyRows(w, p);
    case RenewalFinishes(_, _) =>
    case RenewalCrashes(_) =>
    case ChargeFails(_) =>
    case MollieEnds(_, _) =>
  }

  /** While a confirmed subscription waits, neither the end of the old period nor the legacy
      grace drops the project. */
  lemma SweepStepPlan(w: World, sweep: SweepStep, s: SubId)
    requires Inv(w) && PaidPlans(w) && w.plan != Free && Waiting(w, s) && !DropsPlan(w, Sweeps(sweep))
    ensures ApplySweep(w, sweep).plan != Free
  {
    match sweep
    case TakesOver => PromotePlan(w, false);
    case DropsPastDue =>
    case DropsLegacy => ScheduledHasNoGrace(w, s);
    case DropsEnded => assert HasConfirmed(w);
  }

  lemma StepPlan(w: World, step: Step, s: SubId)
    requires Sound(w) && Enabled(w, step) && w.plan != Free && Waiting(w, s) && !DropsPlan(w, step)
    ensures Apply(w, step).plan != Free
  {
    match step
    case Tick(_) =>
    case SetCustomer(_, _) =>
    case SetComp(_) =>
    case Transfer(_, _) =>
    case Checkouts(c) => CheckoutStepPlan(w, c);
    case FirstPayments(f) => FirstStepPlan(w, f);
    case Charges(c) => ChargeStepPlan(w, c);
    case Cancels(c) => CancelStepPlan(w, c);
    case Sweeps(sweep) => SweepStepPlan(w, sweep, s);
    case Stops(stop) => StopStepRows(w, stop);
  }

  // ----- No gap -----

  /** From the confirmation of a scheduled subscription to the moment it is running, whatever
      sweeps, renewals, redeliveries and checkouts come in between, the project never drops to
      Free, unless a past-due grace runs out or a subscription is cancelled immediately; and the
      wait only ends by the takeover or by one of the steps that close the row. */
  lemma {:induction false} NoGap(ws: seq<World>, steps: seq<Step>, s: SubId, n: nat)
    requires IsRun(ws, steps) && Sound(ws[0]) && n <= |steps| && ws[0].plan != Free
    requires Waiting(ws[0], s) && forall k | 0 <= k < n :: Waiting(ws[k], s)
    requires forall k | 0 <= k < n :: !DropsPlan(ws[k], steps[k])
    requires n > 0 ==> !EndsWaiting(ws[n - 1], steps[n - 1], s)
    ensures ws[n].plan != Free
    ensures Waiting(ws[n], s) || Handed(ws[n - 1], ws[n], s)
  {
    PlanHolds(ws, steps, s, n);
    if n > 0 {
      RunKeeps(ws, steps, n - 1, n - 1);
      StepWaiting(ws[n - 1], steps[n - 1], s);
    }
  }

  lemma {:induction false} PlanHolds(ws: seq<World>, steps: seq<Step>, s: SubId, n: nat)
    requires IsRun(ws, steps) && Sound(ws[0]) && n <= |steps| && ws[0].plan != Free
    requires forall k | 0 <= k < n :: Waiting(ws[k], s) && !DropsPlan(ws[k], steps[k])
    ensures ws[n].plan != Free
  {
    if n > 0 {
      PlanHolds(ws, steps, s, n - 1);
      RunKeeps(ws, steps, n - 1, n - 1);
      StepPlan(ws[n - 1], steps[n - 1], s);
    }
  }
}
