/** The actors of the billing protocol as one step relation. */
module BillingSteps {
  import opened Prelude
  import opened Billing

  /** Checkouts, statement by statement. */
  datatype CheckoutStep =
    | ClosesAbandoned
    | Inserts(user: UserId, customer: Customer, plan: Plan, price: nat)
    | Schedules(user: UserId, customer: Customer, plan: Plan, price: nat, startsAt: Time, predecessor: SubId)
    | Pays(p: PaymentId, id: SubId)
    | Invoices(p: PaymentId)
    | RollsBack(id: SubId)
    | RollsBackScheduled(id: SubId)
    | ActivatesProject(p: PaymentId, customer: Customer, price: nat, mollie: Option<MollieSubId>, next: Option<Time>)

  datatype FirstStep =
    | FirstSettles(p: PaymentId, paid: bool)
    | FirstBegins(p: PaymentId, answer: Option<MollieSubId>)
    | FirstFinishes(p: PaymentId, next: Option<Time>)
    | FirstTakesOver(p: PaymentId)
    | FirstCrashes(p: PaymentId)
    | FirstFails(p: PaymentId)

  datatype ChargeStep =
    | MollieCharges(p: PaymentId, m: MollieSubId)
    | ChargeSettles(p: PaymentId, paid: bool)
    | ChargeLoads(p: PaymentId)
    | ChargeTakesOver(p: PaymentId)
    | RenewalBegins(p: PaymentId)
    | RenewalFinishes(p: PaymentId, mollieDate: Option<Time>)
    | RenewalCrashes(p: PaymentId)
    | ChargeFails(p: PaymentId)
    | MollieEnds(m: MollieSubId, completed: bool)

  /** A cancel request reads a row, asks Mollie to stop what it read there, and updates the row. */
  datatype CancelStep =
    | Reads(c: RequestId, id: SubId, mode: CancelKind)
    | Asks(c: RequestId)
    | Updates(c: RequestId)

  /** After a commit: Mollie is asked for a stop that is owed, or the process dies before it. */
  datatype StopStep = StopsOwed(m: MollieSubId) | DiesOwing(m: MollieSubId)

  /** The four parts of the hourly sweep. */
  datatype SweepStep = TakesOver | DropsPastDue | DropsLegacy | DropsEnded

  datatype Step =
    | Tick(seconds: nat)
    | SetCustomer(user: UserId, customer: Customer)
    | SetComp(until: Option<Time>)
    | Transfer(newOwner: UserId, lastPaid: Option<Time>)
    | Checkouts(checkout: CheckoutStep)
    | FirstPayments(first: FirstStep)
    | Charges(charge: ChargeStep)
    | Cancels(cancel: CancelStep)
    | Sweeps(sweep: SweepStep)
    | Stops(stop: StopStep)

  predicate Unused(w: World, p: PaymentId) {
    p !in w.payments && p !in w.invoices && p !in w.refunds && p !in w.activating && p !in w.renewing
  }

  /** A scheduled checkout read that its predecessor had started, which no step undoes. A
      checkout that is rolled back has not reached its invoice. A project activated with its
      first payment has no subscription and no legacy grace. */
  ghost predicate CheckoutEnabled(w: World, s: CheckoutStep) {
    match s
    case Inserts(_, _, plan, _) => !plan.Free?
    case Schedules(_, _, plan, _, _, predecessor) =>
      !plan.Free? && predecessor in w.subs && w.subs[predecessor].startedAt.Some?
    case Pays(p, id) =>
      && Unused(w, p)
      && id in w.subs && w.subs[id].startedAt.None? && w.subs[id].mollieSub.None?
      && forall q | q in w.payments && w.payments[q].First? :: w.payments[q].sub != id
    case Invoices(p) =>
      && IsFirst(w, p) && w.payments[p].state.Open? && p !in w.invoices
      && w.payments[p].sub in w.subs && w.subs[w.payments[p].sub].startsAt.None?
    case RollsBack(id) => forall p | p in w.invoices :: w.invoices[p].sub != id
    case ActivatesProject(p, _, _, mollie, _) =>
      Unused(w, p) && w.subs == map[] && w.graceUntil.None? && Answers(w, w.nextId, mollie)
    case _ => true
  }

  /** Deliveries of one payment are serialised. One that confirmed a scheduled checkout may still
      come to its takeover; that it dies or fails before it, is the step that is never taken. */
  ghost predicate FirstEnabled(w: World, s: FirstStep) {
    match s
    case FirstSettles(p, _) => IsFirst(w, p) && w.payments[p].state.Open?
    case FirstBegins(p, answer) =>
      IsFirst(w, p) && w.payments[p].state.Paid? && p !in w.activating && Answers(w, w.payments[p].sub, answer)
    case FirstFinishes(p, _) => IsFirst(w, p) && p in w.activating
    case FirstTakesOver(p) =>
      IsFirst(w, p) && w.payments[p].state.Paid? && w.payments[p].sub in w.subs
      && w.subs[w.payments[p].sub].mollieSub.Some? && w.subs[w.payments[p].sub].startsAt.Some?
    case FirstCrashes(p) => p in w.activating
    case FirstFails(p) => IsFirst(w, p) && w.payments[p].state.Failed?
  }

  ghost predicate ChargeEnabled(w: World, s: ChargeStep) {
    match s
    case MollieCharges(p, m) => Unused(w, p) && exists i :: i in w.created && w.created[i] == m
    case ChargeSettles(p, _) => IsCharge(w, p) && w.payments[p].state.Open?
    case ChargeLoads(p) =>
      IsCharge(w, p) && !w.payments[p].state.Open? && p !in w.renewing && ScheduledFor(w, w.payments[p].mollieSub)
    case ChargeTakesOver(p) => p in w.renewing && w.renewing[p].TakingOver?
    case RenewalBegins(p) => IsCharge(w, p) && w.payments[p].state.Paid? && p !in w.renewing
    case RenewalFinishes(p, _) => p in w.renewing && w.renewing[p].Renewal?
    case ChargeFails(p) => IsCharge(w, p) && w.payments[p].state.Failed? && p !in w.renewing
    case _ => true
  }

  /** A closed row is refused. */
  predicate CancelEnabled(w: World, s: CancelStep) {
    match s
    case Reads(c, id, mode) => c !in w.cancels && id in w.subs && !Closed(w.subs[id]) && !mode.OfScheduled?
    case Asks(c) => c in w.cancels && w.cancels[c].phase.HasRead?
    case Updates(c) => c in w.cancels && w.cancels[c].phase.HasAsked?
  }

  ghost predicate Enabled(w: World, s: Step) {
    match s
    case SetCustomer(user, _) => user !in w.customerOf
    case Transfer(_, lastPaid) => forall i | i in RunningIds(w.subs) :: IsLastPaid(w.invoices, i, lastPaid)
    case Checkouts(c) => CheckoutEnabled(w, c)
    case FirstPayments(f) => FirstEnabled(w, f)
    case Charges(c) => ChargeEnabled(w, c)
    case Cancels(c) => CancelEnabled(w, c)
    case Stops(t) => t.m in w.owed
    case _ => true
  }

  function Settled(paid: bool): PaymentState {
    if paid then Paid else Failed
  }

  ghost function ApplyCheckout(w: World, s: CheckoutStep): World
    requires CheckoutEnabled(w, s)
  {
    match s
    case ClosesAbandoned => CloseAbandoned(w)
    case Inserts(user, customer, plan, price) => InsertIncomplete(w, user, customer, plan, price)
    case Schedules(user, customer, plan, price, startsAt, predecessor) =>
      InsertScheduled(w, user, customer, plan, price, startsAt, predecessor)
    case Pays(p, id) =>
      var r := w.subs[id];
      w.(payments := w.payments[p := First(id, r.customer, if r.startsAt.Some? then 0 else r.price, Open)])
    case Invoices(p) =>
      var id := w.payments[p].sub;
      w.(invoices := w.invoices[p := Invoice(id, w.subs[id].price, Pending, None)])
    case RollsBack(id) => RollbackIncomplete(w, id)
    case RollsBackScheduled(id) => RollbackScheduled(w, id)
    case ActivatesProject(p, customer, price, mollie, next) => InsertActivated(w, p, customer, price, mollie, next)
  }

  ghost function ApplyFirst(w: World, s: FirstStep): World
    requires FirstEnabled(w, s)
  {
    match s
    case FirstSettles(p, paid) =>
      var f := w.payments[p];
      w.(payments := w.payments[p := First(f.sub, f.customer, f.amount, Settled(paid))])
    case FirstBegins(p, answer) => BeginFirst(w, p, answer)
    case FirstFinishes(p, next) => FinishFirst(w, p, next)
    case FirstTakesOver(_) => Promote(w, false)
    case FirstCrashes(p) => CrashFirst(w, p)
    case FirstFails(p) => FirstFailed(w, p)
  }

  ghost function ApplyCharge(w: World, s: ChargeStep): World
    requires ChargeEnabled(w, s)
  {
    match s
    case MollieCharges(p, m) => w.(payments := w.payments[p := Charge(m, w.now, Open)])
    case ChargeSettles(p, paid) =>
      var c := w.payments[p];
      w.(payments := w.payments[p := Charge(c.mollieSub, c.createdAt, Settled(paid))])
    case ChargeLoads(p) => LoadScheduled(w, p)
    case ChargeTakesOver(p) => TakeOverCharged(w, p)
    case RenewalBegins(p) => BeginRenewal(w, p)
    case RenewalFinishes(p, mollieDate) => FinishRenewal(w, p, mollieDate)
    case RenewalCrashes(p) => CrashRenewal(w, p)
    case ChargeFails(p) => ChargeFailed(w, p)
    case MollieEnds(m, completed) => SubscriptionEnded(w, m, completed)
  }

  function ApplyCancel(w: World, s: CancelStep): World
    requires CancelEnabled(w, s)
  {
    match s
    case Reads(c, id, mode) => ReadForCancel(w, c, id, mode)
    case Asks(c) => AskToStop(w, c)
    case Updates(c) => UpdateCanceled(w, c)
  }

  function ApplyStop(w: World, s: StopStep): World {
    match s
    case StopsOwed(m) => StopOwed(w, m)
    case DiesOwing(m) => DieOwing(w, m)
  }

  ghost function ApplySweep(w: World, s: SweepStep): World {
    match s
    case TakesOver => Promote(w, false)
    case DropsPastDue => SweepPastDue(w)
    case DropsLegacy => SweepLegacy(w)
    case DropsEnded => SweepEnded(w)
  }

  ghost function Apply(w: World, s: Step): World
    requires Enabled(w, s)
  {
    match s
    case Tick(seconds) => Elapse(w, seconds)
    case SetCustomer(user, customer) => WithCustomer(w, user, customer)
    case SetComp(until) => WithComp(w, until)
    case Transfer(newOwner, lastPaid) => HandOver(w, newOwner, lastPaid)
    case Checkouts(c) => ApplyCheckout(w, c)
    case FirstPayments(f) => ApplyFirst(w, f)
    case Charges(c) => ApplyCharge(w, c)
    case Cancels(c) => ApplyCancel(w, c)
    case Sweeps(s) => ApplySweep(w, s)
    case Stops(t) => ApplyStop(w, t)
  }
}
