/** What happens to one payment: itself, its invoice and its refund, as a table over what every
    step finds. */
module BillingMoney {
  import opened Prelude
  import opened Billing
  import opened BillingInvariant
  import opened BillingFrames
  import opened BillingDeliveries
  import opened BillingSteps
  import opened BillingTakeover
  import opened BillingFirstPayments
  import opened BillingLifecycle

  datatype Money = Money(payment: Option<Payment>, invoice: Option<Invoice>, refunded: bool)

  function MoneyOf(w: World, p: PaymentId): Money {
    Money(if p in w.payments then Some(w.payments[p]) else None, if p in w.invoices then Some(w.invoices[p]) else None, p in w.refunds)
  }

  /** The invoice, if there is one, is paid: with the first time it was. */
  function PaidUp(m: Money, now: Time): Money {
    match m.invoice
    case None => m
    case Some(v) => m.(invoice := Some(v.(status := InvoicePaid, paidAt := FirstDate(v.paidAt, now))))
  }

  function FailedUp(m: Money): Money {
    match m.invoice
    case None => m
    case Some(v) => m.(invoice := Some(v.(status := InvoiceFailed)))
  }

  /** A first payment that took money is refunded, and its invoice says so. */
  function GivenUp(m: Money, amount: nat): Money {
    if amount == 0 then m
    else
      match m.invoice
      case None => m.(refunded := true)
      case Some(v) => m.(refunded := true, invoice := Some(v.(status := Refunded)))
  }

  function AfterBeginMoney(w: World, p: PaymentId): Money
    requires IsFirst(w, p)
  {
    var m, f := MoneyOf(w, p), w.payments[p];
    if f.sub !in w.subs then m
    else
      var r := w.subs[f.sub];
      if r.mollieSub.Some? then (if r.status.Active? || r.status.Scheduled? then PaidUp(m, w.now) else m)
      else if !(r.status.Incomplete? || r.status.Scheduled?) || !OwnerPays(w, r, f.customer) then GivenUp(m, f.amount)
      else m
  }

  function AfterFinishMoney(w: World, p: PaymentId): Money
    requires IsFirst(w, p) && p in w.activating
  {
    var m, a := MoneyOf(w, p), w.activating[p];
    if a.scheduled then
      if a.sub in w.subs && w.subs[a.sub].status.Scheduled? && w.subs[a.sub].mollieSub.None? then m
      else GivenUp(m, w.payments[p].amount)
    else if a.sub in w.subs && w.subs[a.sub].status.Incomplete? then PaidUp(m, w.now)
    else GivenUp(m, w.payments[p].amount)
  }

  predicate StillScheduled(w: World, m: MollieSubId) {
    exists i | i in w.subs :: w.subs[i].mollieSub == Some(m) && w.subs[i].status.Scheduled?
  }

  /** A charge Mollie created after its subscription was cancelled. */
  predicate ChargedTooLate(w: World, m: MollieSubId, createdAt: Time) {
    exists i | i in w.subs :: w.subs[i].mollieSub == Some(m) && w.subs[i].canceledAt.Some? && createdAt > w.subs[i].canceledAt.value
  }

  ghost function MoneyAfter(w: World, s: Step, p: PaymentId): Money
    requires Enabled(w, s)
  {
    var m := MoneyOf(w, p);
    match s
    case Checkouts(Pays(q, id)) =>
      if q != p then m
      else m.(payment := Some(First(id, w.subs[id].customer, if w.subs[id].startsAt.Some? then 0 else w.subs[id].price, Open)))
    case Checkouts(Invoices(q)) =>
      if q != p then m
      else m.(invoice := Some(Invoice(w.payments[p].sub, w.subs[w.payments[p].sub].price, Pending, None)))
    case Checkouts(ActivatesProject(q, _, price, _, _)) =>
      if q != p then m
      else m.(payment := Some(NewProject), invoice := Some(Invoice(w.nextId, price, InvoicePaid, Some(w.now))))
    case FirstPayments(FirstSettles(q, paid)) =>
      if q != p then m
      else
        var f := w.payments[p];
        m.(payment := Some(First(f.sub, f.customer, f.amount, if paid then Paid else Failed)))
    case FirstPayments(FirstBegins(q, _)) => if q != p then m else AfterBeginMoney(w, p)
    case FirstPayments(FirstFinishes(q, _)) => if q != p then m else AfterFinishMoney(w, p)
    case FirstPayments(FirstFails(q)) => if q != p then m else FailedUp(m)
    case Charges(MollieCharges(q, sub)) => if q != p then m else m.(payment := Some(Charge(sub, w.now, Open)))
    case Charges(ChargeSettles(q, paid)) =>
      if q != p then m
      else
        var c := w.payments[p];
        m.(payment := Some(Charge(c.mollieSub, c.createdAt, if paid then Paid else Failed)))
    case Charges(RenewalBegins(q)) =>
      if q == p && !StillScheduled(w, w.payments[p].mollieSub) && ChargedTooLate(w, w.payments[p].mollieSub, w.payments[p].createdAt)
      then m.(refunded := true) else m
    case Charges(RenewalFinishes(q, _)) =>
      if q != p || m.invoice.Some? || w.renewing[p].sub !in w.subs then m
      else m.(invoice := Some(Invoice(w.renewing[p].sub, w.subs[w.renewing[p].sub].price, InvoicePaid, Some(w.now))))
    case Charges(ChargeFails(q)) =>
      if q != p || StillScheduled(w, w.payments[p].mollieSub) then m else FailedUp(m)
    case _ => m
  }

  // ----- The statements -----

  lemma PaidMark(w: World, q: PaymentId, p: PaymentId)
    ensures MoneyOf(MarkInvoice(w, q, InvoicePaid), p) == if q == p then PaidUp(MoneyOf(w, p), w.now) else MoneyOf(w, p)
  {
    if q in w.invoices {
    }
  }

  lemma FailedMark(w: World, q: PaymentId, p: PaymentId)
    ensures MoneyOf(MarkInvoice(w, q, InvoiceFailed), p) == if q == p then FailedUp(MoneyOf(w, p)) else MoneyOf(w, p)
  {
    if q in w.invoices {
    }
  }

  lemma RefundMoney(w: World, q: PaymentId, amount: nat, p: PaymentId)
    ensures MoneyOf(RefundFirst(w, q, amount), p) == if q == p then GivenUp(MoneyOf(w, p), amount) else MoneyOf(w, p)
  {
    if amount != 0 && q in w.invoices {
    }
  }

  lemma RefuseMoney(w: World, id: SubId, q: PaymentId, amount: nat, p: PaymentId)
    ensures MoneyOf(RefundFirst(CloseUnconfirmed(w, id), q, amount), p) == if q == p then GivenUp(MoneyOf(w, p), amount) else MoneyOf(w, p)
  {
    RefundMoney(CloseUnconfirmed(w, id), q, amount, p);
    ClosingKeepsMoney(w, id, p);
  }

  lemma ClosingKeepsMoney(w: World, id: SubId, p: PaymentId)
    ensures MoneyOf(CloseUnconfirmed(w, id), p) == MoneyOf(w, p)
  {
  }

  lemma StartMoney(w: World, q: PaymentId, i: SubId, mollie: MollieSubId, scheduled: bool, p: PaymentId)
    ensures MoneyOf(StartActivation(w, q, i, mollie, scheduled), p) == MoneyOf(w, p)
  {
  }

  lemma BeginMoney(w: World, q: PaymentId, answer: Option<MollieSubId>, p: PaymentId)
    requires IsFirst(w, q)
    ensures MoneyOf(BeginFirst(w, q, answer), p) == if q == p then AfterBeginMoney(w, p) else MoneyOf(w, p)
  {
    var f := w.payments[q];
    if f.sub in w.subs {
      var r := w.subs[f.sub];
      PayerMeans(w, r, f.customer);
      if r.mollieSub.Some? {
        PaidMark(w, q, p);
      } else if (!r.status.Incomplete? && !r.status.Scheduled?) || !PayerIsOwner(w, r, f.customer) {
        RefuseMoney(w, f.sub, q, f.amount, p);
      } else if answer.Some? {
        StartMoney(w, q, f.sub, answer.value, r.status.Scheduled?, p);
      }
    }
  }

  lemma FlipMoney(w: World, q: PaymentId, i: SubId, mollie: MollieSubId, next: Option<Time>, p: PaymentId)
    requires i in w.subs
    ensures MoneyOf(Flip(w, q, i, mollie, next), p) == if q == p then PaidUp(MoneyOf(w, p), w.now) else MoneyOf(w, p)
  {
    if q in w.invoices {
    }
  }

  lemma AbandonMoney(w: World, q: PaymentId, mollie: MollieSubId, amount: nat, p: PaymentId)
    ensures MoneyOf(Abandon(w.(activating := w.activating - {q}), q, mollie, amount), p)
         == if q == p then GivenUp(MoneyOf(w, p), amount) else MoneyOf(w, p)
  {
    RefundMoney(w.(activating := w.activating - {q}, stopped := w.stopped + {mollie}), q, amount, p);
  }

  lemma ConfirmMoney(w: World, q: PaymentId, i: SubId, mollie: MollieSubId, next: Option<Time>, p: PaymentId)
    requires i in w.subs
    ensures MoneyOf(Confirm(w, q, i, mollie, next), p) == MoneyOf(w, p)
  {
  }

  lemma FinishMoney(w: World, q: PaymentId, next: Option<Time>, p: PaymentId)
    requires IsFirst(w, q) && q in w.activating
    ensures MoneyOf(FinishFirst(w, q, next), p) == if q == p then AfterFinishMoney(w, p) else MoneyOf(w, p)
  {
    var a := w.activating[q];
    AbandonMoney(w, q, a.mollie, w.payments[q].amount, p);
    if a.sub in w.subs {
      FlipMoney(w, q, a.sub, a.mollie, next, p);
      ConfirmMoney(w, q, a.sub, a.mollie, next, p);
    }
  }

  lemma TakeoverMoney(w: World, charged: bool, p: PaymentId)
    ensures MoneyOf(Promote(w, charged), p) == MoneyOf(w, p)
  {
    PromoteFrame(w, charged);
  }

  lemma FirstMoney(w: World, f: FirstStep, p: PaymentId)
    requires FirstEnabled(w, f)
    ensures MoneyOf(ApplyFirst(w, f), p) == MoneyAfter(w, FirstPayments(f), p)
  {
    match f
    case FirstSettles(_, _) =>
    case FirstBegins(q, answer) => BeginMoney(w, q, answer, p);
    case FirstFinishes(q, next) => FinishMoney(w, q, next, p);
    case FirstTakesOver(_) => TakeoverMoney(w, false, p);
    case FirstCrashes(_) =>
    case FirstFails(q) => FailedMark(w, q, p);
  }

  lemma ScheduledIs(w: World, m: MollieSubId)
    ensures ScheduledFor(w, m) <==> StillScheduled(w, m)
  {
    if i :| i in w.subs && HasMollie(w, i, m) && w.subs[i].status.Scheduled? { assert StillScheduled(w, m); }
  }

  lemma BeginRenewalMoney(w: World, q: PaymentId, p: PaymentId)
    requires MollieOk(w) && IsCharge(w, q)
    ensures MoneyOf(BeginRenewal(w, q), p)
         == if q == p && !StillScheduled(w, w.payments[p].mollieSub) && ChargedTooLate(w, w.payments[p].mollieSub, w.payments[p].createdAt)
            then MoneyOf(w, p).(refunded := true) else MoneyOf(w, p)
  {
    var m := w.payments[q].mollieSub;
    ScheduledIs(w, m);
    if ScheduledFor(w, m) {
    } else if exists i :: HasMollie(w, i, m) {
      OneRowOf(w, m, RowOf(w, m));
      LateIs(w, m, w.payments[q].createdAt, RowOf(w, m));
      RenewRowMoney(w, q, RowOf(w, m), p);
    } else {
      assert forall i | i in w.subs :: !HasMollie(w, i, m);
    }
  }

  lemma LateIs(w: World, m: MollieSubId, createdAt: Time, i: SubId)
    requires HasMollie(w, i, m) && forall j | HasMollie(w, j, m) :: j == i
    ensures ChargedTooLate(w, m, createdAt) <==> w.subs[i].canceledAt.Some? && createdAt > w.subs[i].canceledAt.value
  {
    assert forall j | j in w.subs && w.subs[j].mollieSub == Some(m) :: HasMollie(w, j, m);
  }

  lemma RenewRowMoney(w: World, q: PaymentId, i: SubId, p: PaymentId)
    requires IsCharge(w, q) && i in w.subs
    ensures MoneyOf(RenewRow(w, q, i), p)
         == if q == p && w.subs[i].canceledAt.Some? && w.payments[q].createdAt > w.subs[i].canceledAt.value
            then MoneyOf(w, p).(refunded := true) else MoneyOf(w, p)
  {
    if w.subs[i].canceledAt.Some? && w.payments[q].createdAt > w.subs[i].canceledAt.value {
    }
  }

  lemma FinishRenewalMoney(w: World, q: PaymentId, mollieDate: Option<Time>, p: PaymentId)
    requires ChargeEnabled(w, RenewalFinishes(q, mollieDate))
    ensures MoneyOf(FinishRenewal(w, q, mollieDate), p) == MoneyAfter(w, Charges(RenewalFinishes(q, mollieDate)), p)
  {
    if w.renewing[q].sub in w.subs {
    }
  }

  lemma ChargeFailedMoney(w: World, q: PaymentId, p: PaymentId)
    requires IsCharge(w, q)
    ensures MoneyOf(ChargeFailed(w, q), p)
         == if q != p || StillScheduled(w, w.payments[p].mollieSub) then MoneyOf(w, p) else FailedUp(MoneyOf(w, p))
  {
    ScheduledIs(w, w.payments[q].mollieSub);
    FailedMark(w.(subs := FailedRows(w.subs, w.payments[q].mollieSub, w.now)), q, p);
  }

  lemma ChargeTakeoverMoney(w: World, q: PaymentId, p: PaymentId)
    ensures MoneyOf(TakeOverCharged(w, q), p) == MoneyOf(w, p)
  {
    TakeoverMoney(CrashRenewal(w, q), true, p);
  }

  lemma LoadMoney(w: World, q: PaymentId, p: PaymentId)
    requires IsCharge(w, q) && ScheduledFor(w, w.payments[q].mollieSub)
    ensures MoneyOf(LoadScheduled(w, q), p) == MoneyOf(w, p)
  {
  }

  lemma ChargeMoney(w: World, c: ChargeStep, p: PaymentId)
    requires MollieOk(w) && ChargeEnabled(w, c)
    ensures MoneyOf(ApplyCharge(w, c), p) == MoneyAfter(w, Charges(c), p)
  {
    match c
    case MollieCharges(_, _) =>
    case ChargeSettles(_, _) =>
    case ChargeLoads(q) => LoadMoney(w, q, p);
    case ChargeTakesOver(q) => ChargeTakeoverMoney(w, q, p);
    case RenewalBegins(q) => BeginRenewalMoney(w, q, p);
    case RenewalFinishes(q, mollieDate) => FinishRenewalMoney(w, q, mollieDate, p);
    case RenewalCrashes(_) =>
    case ChargeFails(q) => ChargeFailedMoney(w, q, p);
    case MollieEnds(_, _) =>
  }

  lemma CheckoutMoney(w: World, c: CheckoutStep, p: PaymentId)
    requires Inv(w) && CheckoutEnabled(w, c)
    ensures MoneyOf(ApplyCheckout(w, c), p) == MoneyAfter(w, Checkouts(c), p)
  {
    match c
    case ClosesAbandoned =>
    case Inserts(_, _, _, _) =>
    case Schedules(_, _, _, _, _, _) =>
    case Pays(_, _) =>
    case Invoices(_) =>
    case RollsBack(_) =>
    case RollsBackScheduled(_) =>
    case ActivatesProject(_, _, _, _, _) => assert !HasLive(w);
  }

  lemma CancelMoney(w: World, c: CancelStep, p: PaymentId)
    requires CancelEnabled(w, c)
    ensures MoneyOf(ApplyCancel(w, c), p) == MoneyOf(w, p)
  {
  }

  lemma DowngradeMoney(w: World, ids: set<SubId>, p: PaymentId)
    ensures MoneyOf(Downgrade(w, ids), p) == MoneyOf(w, p)
  {
  }

  lemma SweepMoney(w: World, sweep: SweepStep, p: PaymentId)
    ensures MoneyOf(ApplySweep(w, sweep), p) == MoneyOf(w, p)
  {
    match sweep
    case TakesOver => TakeoverMoney(w, false, p);
    case DropsPastDue => DowngradeMoney(w, PastDueIds(w), p);
    case DropsLegacy =>
    case DropsEnded => DowngradeMoney(w, EndedIds(w), p);
  }

  lemma TransferMoney(w: World, newOwner: UserId, lastPaid: Option<Time>, p: PaymentId)
    ensures MoneyOf(HandOver(w, newOwner, lastPaid), p) == MoneyOf(w, p)
  {
  }

  lemma StopMoney(w: World, stop: StopStep, p: PaymentId)
    ensures MoneyOf(ApplyStop(w, stop), p) == MoneyOf(w, p)
  {
  }

  /** Whatever step is taken, every payment, its invoice and its refund are what the table says. */
  lemma MoneyLives(w: World, s: Step, p: PaymentId)
    requires Inv(w) && Enabled(w, s)
    ensures MoneyOf(Apply(w, s), p) == MoneyAfter(w, s, p)
  {
    match s
    case Tick(_) =>
    case SetCustomer(_, _) =>
    case SetComp(_) =>
    case Transfer(newOwner, lastPaid) => TransferMoney(w, newOwner, lastPaid, p);
    case Checkouts(c) => CheckoutMoney(w, c, p);
    case FirstPayments(f) => FirstMoney(w, f, p);
    case Charges(c) => ChargeMoney(w, c, p);
    case Cancels(c) => CancelMoney(w, c, p);
    case Sweeps(sweep) => SweepMoney(w, sweep, p);
    case Stops(stop) => StopMoney(w, stop, p);
  }
}
