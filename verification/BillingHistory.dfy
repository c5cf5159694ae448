/** What no step takes back, and the plans rows are for. */
module BillingHistory {
  import opened Prelude
  import opened Billing
  import opened BillingInvariant
  import opened BillingFrames
  import opened BillingKept
  import opened BillingDeliveries
  import opened BillingSteps
  import opened BillingRuns

  predicate SamePayment(x: Payment, x': Payment) {
    match x
    case First(i, c, a, _) => x'.First? && x'.sub == i && x'.customer == c && x'.amount == a
    case Charge(m, t, _) => x'.Charge? && x'.mollieSub == m && x'.createdAt == t
    case NewProject => x'.NewProject?
  }

  /** A cancel request keeps what it read. */
  predicate SameRequest(q: Request, q': Request) {
    q'.id == q.id && q'.mollie == q.mollie && q'.kind == q.kind
    && (q'.phase.HasRead? ==> q.phase.HasRead?) && (q.phase.Done? ==> q'.phase.Done?)
  }

  /** Payments, invoices, refunds, stops and cancel requests are never taken back. */
  ghost predicate Accumulates(w: World, w': World) {
    && w.refunds <= w'.refunds && w.stopped <= w'.stopped
    && (forall p | p in w.payments :: p in w'.payments && SamePayment(w.payments[p], w'.payments[p]))
    && (forall p | p in w.invoices :: p in w'.invoices && w'.invoices[p].sub == w.invoices[p].sub)
    && (forall c | c in w.cancels :: c in w'.cancels && SameRequest(w.cancels[c], w'.cancels[c]))
  }

  lemma SameBooksAccumulate(w: World, w': World)
    requires w'.payments == w.payments && w'.cancels == w.cancels && w.refunds <= w'.refunds && w.stopped <= w'.stopped
    requires forall p | p in w.invoices :: p in w'.invoices && w'.invoices[p].sub == w.invoices[p].sub
    ensures Accumulates(w, w')
  {
  }

  lemma MarkAccumulates(w: World, p: PaymentId, status: InvoiceStatus)
    ensures Accumulates(w, MarkInvoice(w, p, status))
    ensures MarkInvoice(w, p, status).nextId == w.nextId
  {
    if p in w.invoices {
    }
    SameBooksAccumulate(w, MarkInvoice(w, p, status));
  }

  lemma RefundAccumulates(w: World, p: PaymentId, amount: nat)
    ensures Accumulates(w, RefundFirst(w, p, amount))
    ensures RefundFirst(w, p, amount).nextId == w.nextId
  {
    if amount != 0 {
      MarkAccumulates(w.(refunds := w.refunds + {p}), p, Refunded);
    }
  }

  lemma RefuseFirstAccumulates(w: World, id: SubId, p: PaymentId, amount: nat)
    ensures var w' := RefundFirst(CloseUnconfirmed(w, id), p, amount); Accumulates(w, w') && w'.nextId == w.nextId
  {
    RefundAccumulates(CloseUnconfirmed(w, id), p, amount);
  }

  lemma BeginFirstAccumulates(w: World, p: PaymentId, answer: Option<MollieSubId>)
    requires IsFirst(w, p)
    ensures Accumulates(w, BeginFirst(w, p, answer))
    ensures BeginFirst(w, p, answer).nextId == w.nextId
  {
    SameBooksAccumulate(w, w);
    var f := w.payments[p];
    if f.sub in w.subs {
      var r := w.subs[f.sub];
      if r.mollieSub.Some? {
        MarkAccumulates(w, p, InvoicePaid);
      } else if (!r.status.Incomplete? && !r.status.Scheduled?) || !PayerIsOwner(w, r, f.customer) {
        RefuseFirstAccumulates(w, f.sub, p, f.amount);
      } else if r.status.Scheduled? && Conflicting(w) {
        SameBooksAccumulate(w, w.(subs := w.subs[f.sub := Cancel(r, w.now)]));
      } else if answer.Some? {
        SameBooksAccumulate(w, StartActivation(w, p, f.sub, answer.value, r.status.Scheduled?));
      }
    }
  }

  lemma FlipAccumulates(w: World, p: PaymentId, i: SubId, mollie: MollieSubId, next: Option<Time>)
    requires i in w.subs
    ensures Accumulates(w, Flip(w, p, i, mollie, next))
    ensures Flip(w, p, i, mollie, next).nextId == w.nextId
  {
  }

  lemma AbandonAccumulates(w: World, p: PaymentId, mollie: MollieSubId, amount: nat)
    ensures Accumulates(w, Abandon(w, p, mollie, amount))
    ensures Abandon(w, p, mollie, amount).nextId == w.nextId
  {
    RefundAccumulates(w.(stopped := w.stopped + {mollie}), p, amount);
  }

  lemma FinishFirstAccumulates(w: World, p: PaymentId, next: Option<Time>)
    requires IsFirst(w, p) && p in w.activating
    ensures Accumulates(w, FinishFirst(w, p, next))
    ensures FinishFirst(w, p, next).nextId == w.nextId
  {
    var a := w.activating[p];
    AbandonAccumulates(w.(activating := w.activating - {p}), p, a.mollie, w.payments[p].amount);
    if a.sub in w.subs {
      if a.scheduled {
        SameBooksAccumulate(w, Confirm(w, p, a.sub, a.mollie, next));
      } else {
        FlipAccumulates(w, p, a.sub, a.mollie, next);
      }
    }
  }

  lemma FirstStepAccumulates(w: World, s: FirstStep)
    requires FirstEnabled(w, s)
    ensures Accumulates(w, ApplyFirst(w, s))
    ensures ApplyFirst(w, s).nextId == w.nextId
  {
    match s
    case FirstSettles(p, paid) =>
    case FirstBegins(p, answer) => BeginFirstAccumulates(w, p, answer);
    case FirstFinishes(p, next) => FinishFirstAccumulates(w, p, next);
    case FirstTakesOver(_) => PromoteFrame(w, false);
    case FirstCrashes(p) =>
    case FirstFails(p) => MarkAccumulates(w, p, InvoiceFailed);
  }

  lemma LoadAccumulates(w: World, p: PaymentId)
    requires IsCharge(w, p) && ScheduledFor(w, w.payments[p].mollieSub)
    ensures Accumulates(w, LoadScheduled(w, p)) && LoadScheduled(w, p).nextId == w.nextId
  {
    SameBooksAccumulate(w, LoadScheduled(w, p));
  }

  lemma TakeOverAccumulates(w: World, p: PaymentId)
    ensures Accumulates(w, TakeOverCharged(w, p)) && TakeOverCharged(w, p).nextId == w.nextId
  {
    PromoteFrame(CrashRenewal(w, p), true);
    SameBooksAccumulate(w, TakeOverCharged(w, p));
  }

  lemma RenewAnyAccumulates(w: World, p: PaymentId)
    requires IsCharge(w, p)
    ensures Accumulates(w, RenewAny(w, p))
    ensures RenewAny(w, p).nextId == w.nextId
  {
    SameBooksAccumulate(w, w);
    if exists i :: HasMollie(w, i, w.payments[p].mollieSub) {
      RenewRowAccumulates(w, p, RowOf(w, w.payments[p].mollieSub));
    }
  }

  lemma RenewRowAccumulates(w: World, p: PaymentId, i: SubId)
    requires IsCharge(w, p) && i in w.subs
    ensures Accumulates(w, RenewRow(w, p, i)) && RenewRow(w, p, i).nextId == w.nextId
  {
    if w.subs[i].canceledAt.Some? && w.payments[p].createdAt > w.subs[i].canceledAt.value {
      SameBooksAccumulate(w, w.(refunds := w.refunds + {p}, stopped := w.stopped + {w.payments[p].mollieSub}));
    } else {
      SameBooksAccumulate(w, RenewRow(w, p, i));
    }
  }

  lemma BeginRenewalAccumulates(w: World, p: PaymentId)
    requires IsCharge(w, p)
    ensures Accumulates(w, BeginRenewal(w, p))
    ensures BeginRenewal(w, p).nextId == w.nextId
  {
    SameBooksAccumulate(w, w);
    RenewAnyAccumulates(w, p);
  }

  lemma RecordFailureAccumulates(w: World, p: PaymentId)
    requires IsCharge(w, p)
    ensures Accumulates(w, RecordFailure(w, p))
    ensures RecordFailure(w, p).nextId == w.nextId
  {
  }

  lemma ChargeFailedAccumulates(w: World, p: PaymentId)
    requires IsCharge(w, p)
    ensures Accumulates(w, ChargeFailed(w, p))
    ensures ChargeFailed(w, p).nextId == w.nextId
  {
    SameBooksAccumulate(w, w);
    RecordFailureAccumulates(w, p);
  }

  lemma FinishRenewalAccumulates(w: World, p: PaymentId, mollieDate: Option<Time>)
    requires p in w.renewing && w.renewing[p].Renewal?
    ensures Accumulates(w, FinishRenewal(w, p, mollieDate))
    ensures FinishRenewal(w, p, mollieDate).nextId == w.nextId
  {
    if w.renewing[p].sub in w.subs {
      FinishedInvoices(w, p, mollieDate);
    }
    SameBooksAccumulate(w, FinishRenewal(w, p, mollieDate));
  }

  lemma FinishedInvoices(w: World, p: PaymentId, mollieDate: Option<Time>)
    requires p in w.renewing && w.renewing[p].Renewal? && w.renewing[p].sub in w.subs
    ensures var w' := FinishRenewal(w, p, mollieDate);
      && w'.payments == w.payments && w'.cancels == w.cancels && w'.refunds == w.refunds && w'.stopped == w.stopped
      && w'.nextId == w.nextId && w.invoices.Keys <= w'.invoices.Keys
      && forall q | q in w.invoices :: w'.invoices[q] == w.invoices[q]
  {
  }

  lemma ChargeStepAccumulates(w: World, s: ChargeStep)
    requires ChargeEnabled(w, s)
    ensures Accumulates(w, ApplyCharge(w, s))
    ensures ApplyCharge(w, s).nextId == w.nextId
  {
    match s
    case MollieCharges(p, m) =>
    case ChargeSettles(p, paid) =>
    case ChargeLoads(p) => LoadAccumulates(w, p);
    case ChargeTakesOver(p) => TakeOverAccumulates(w, p);
    case RenewalBegins(p) => BeginRenewalAccumulates(w, p);
    case RenewalFinishes(p, mollieDate) => FinishRenewalAccumulates(w, p, mollieDate);
    case RenewalCrashes(p) =>
    case ChargeFails(p) => ChargeFailedAccumulates(w, p);
    case MollieEnds(m, completed) =>
  }

  lemma ToFreeAccumulates(w: World)
    ensures SameTables(w, ToFree(w)) && ToFree(w).nextId == w.nextId && ToFree(w).stopped == w.stopped
  {
    if w.plan.Pro? && !Comped(w) {
    }
  }

  lemma DowngradeAccumulates(w: World, ids: set<SubId>)
    ensures SameTables(w, Downgrade(w, ids))
    ensures Downgrade(w, ids).nextId == w.nextId
  {
    if w.plan.Pro? && ids != {} {
      ToFreeAccumulates(ExpireAll(w, ids));
    }
  }

  lemma SweepStepAccumulates(w: World, s: SweepStep)
    ensures SameTables(w, ApplySweep(w, s))
    ensures ApplySweep(w, s).nextId == w.nextId
  {
    match s
    case TakesOver => PromoteFrame(w, false);
    case DropsPastDue => DowngradeAccumulates(w, PastDueIds(w));
    case DropsLegacy => ToFreeAccumulates(w);
    case DropsEnded => DowngradeAccumulates(w, EndedIds(w));
  }

  lemma CancelStepAccumulates(w: World, s: CancelStep)
    requires CancelEnabled(w, s)
    ensures Accumulates(w, ApplyCancel(w, s)) && ApplyCancel(w, s).nextId == w.nextId
  {
    match s
    case Reads(_, _, _) =>
    case Asks(_) =>
    case Updates(_) =>
  }

  lemma InsertActivatedAccumulates(w: World, p: PaymentId, customer: Customer, price: nat,
                                   mollie: Option<MollieSubId>, next: Option<Time>)
    requires Unused(w, p)
    ensures Accumulates(w, InsertActivated(w, p, customer, price, mollie, next))
  {
    if HasLive(w) || p in w.invoices {
    }
  }

  lemma InsertAccumulates(w: World, user: UserId, customer: Customer, plan: Plan, price: nat)
    ensures Accumulates(w, InsertIncomplete(w, user, customer, plan, price))
  {
    if !MayCheckOut(w, user) || HasLive(w) {
    }
    SameBooksAccumulate(w, InsertIncomplete(w, user, customer, plan, price));
  }

  lemma ScheduleAccumulates(w: World, user: UserId, customer: Customer, plan: Plan, price: nat, startsAt: Time, predecessor: SubId)
    ensures Accumulates(w, InsertScheduled(w, user, customer, plan, price, startsAt, predecessor))
  {
    if !MayCheckOut(w, user) || HasScheduled(w) {
    }
    SameBooksAccumulate(w, InsertScheduled(w, user, customer, plan, price, startsAt, predecessor));
  }

  lemma RollbackAccumulates(w: World, id: SubId)
    ensures Accumulates(w, RollbackIncomplete(w, id)) && Accumulates(w, RollbackScheduled(w, id))
  {
    SameBooksAccumulate(w, w);
    SameBooksAccumulate(w, w.(subs := Remove(w.subs, id)));
  }

  lemma PaysAccumulates(w: World, s: CheckoutStep)
    requires CheckoutEnabled(w, s) && (s.Pays? || s.Invoices?)
    ensures Accumulates(w, ApplyCheckout(w, s))
  {
  }

  lemma CheckoutStepAccumulates(w: World, s: CheckoutStep)
    requires CheckoutEnabled(w, s)
    ensures Accumulates(w, ApplyCheckout(w, s))
  {
    match s
    case ClosesAbandoned => SameBooksAccumulate(w, CloseAbandoned(w));
    case Inserts(user, customer, plan, price) => InsertAccumulates(w, user, customer, plan, price);
    case Schedules(user, customer, plan, price, startsAt, predecessor) =>
      ScheduleAccumulates(w, user, customer, plan, price, startsAt, predecessor);
    case Pays(_, _) => PaysAccumulates(w, s);
    case Invoices(_) => PaysAccumulates(w, s);
    case RollsBack(id) => RollbackAccumulates(w, id);
    case RollsBackScheduled(id) => RollbackAccumulates(w, id);
    case ActivatesProject(p, customer, price, mollie, next) => InsertActivatedAccumulates(w, p, customer, price, mollie, next);
  }

  lemma StopStepAccumulates(w: World, s: StopStep)
    ensures Accumulates(w, ApplyStop(w, s)) && ApplyStop(w, s).nextId == w.nextId
  {
    SameBooksAccumulate(w, ApplyStop(w, s));
  }

  /** No step takes back a payment, an invoice, a refund request, a stop at Mollie or a cancel. */
  lemma StepAccumulates(w: World, s: Step)
    requires Enabled(w, s)
    ensures Accumulates(w, Apply(w, s))
  {
    match s
    case Tick(seconds) => SameBooksAccumulate(w, Elapse(w, seconds));
    case SetCustomer(user, customer) => SameBooksAccumulate(w, WithCustomer(w, user, customer));
    case SetComp(until) => SameBooksAccumulate(w, WithComp(w, until));
    case Transfer(newOwner, lastPaid) => SameBooksAccumulate(w, HandOver(w, newOwner, lastPaid));
    case Checkouts(c) => CheckoutStepAccumulates(w, c);
    case FirstPayments(f) => FirstStepAccumulates(w, f);
    case Charges(c) => ChargeStepAccumulates(w, c);
    case Cancels(c) => CancelStepAccumulates(w, c);
    case Sweeps(sweep) => SweepStepAccumulates(w, sweep);
    case Stops(stop) => StopStepAccumulates(w, stop);
  }

  // ----- Plans -----

  /** No row is for the Free plan. */
  predicate PaidPlans(w: World) {
    forall i | i in w.subs :: w.subs[i].plan != Free
  }

  lemma HandOverInserts(w: World, newOwner: UserId, lastPaid: Option<Time>)
    ensures HandOver(w, newOwner, lastPaid).nextId == w.nextId
  {
  }

  /** Only a checkout adds rows. */
  lemma OnlyCheckoutsInsert(w: World, s: Step)
    requires Enabled(w, s) && !s.Checkouts?
    ensures Apply(w, s).nextId == w.nextId
  {
    match s
    case Tick(_) =>
    case SetCustomer(_, _) =>
    case SetComp(_) =>
    case Transfer(newOwner, lastPaid) => HandOverInserts(w, newOwner, lastPaid);
    case FirstPayments(f) => FirstStepAccumulates(w, f);
    case Charges(c) => ChargeStepAccumulates(w, c);
    case Cancels(c) => CancelStepAccumulates(w, c);
    case Sweeps(sweep) => SweepStepAccumulates(w, sweep);
    case Stops(stop) => StopStepAccumulates(w, stop);
  }

  lemma InsertedPlan(w: World, c: CheckoutStep, i: SubId)
    requires CheckoutEnabled(w, c) && i in ApplyCheckout(w, c).subs && i !in w.subs
    ensures ApplyCheckout(w, c).subs[i].plan != Free
  {
  }

  lemma StepKeepsPlans(w: World, s: Step)
    requires Inv(w) && PaidPlans(w) && Enabled(w, s)
    ensures PaidPlans(Apply(w, s))
  {
    var w' := Apply(w, s);
    StepKeeps(w, s);
    if !s.Checkouts? { OnlyCheckoutsInsert(w, s); }
    forall i | i in w'.subs ensures w'.subs[i].plan != Free {
      if i in w.subs {
        assert Evolves(w.subs[i], w'.subs[i], w.now);
      } else {
        assert w.nextId <= i < w'.nextId;
        InsertedPlan(w, s.checkout, i);
      }
    }
  }
}
