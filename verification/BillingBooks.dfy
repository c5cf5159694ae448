/** What each step asks of Mollie, to the letter: which subscriptions are stopped, which stops are
    left owed, and which deliveries and cancels are in flight. */
module BillingBooks {
  import opened Prelude
  import opened Billing
  import opened BillingInvariant
  import opened BillingFrames
  import opened BillingKept
  import opened BillingDeliveries
  import opened BillingSteps
  import opened BillingHistory
  import opened BillingTakeover

  function OpenRows(subs: map<SubId, Row>): set<SubId> {
    set i | i in subs && !Closed(subs[i])
  }

  predicate SameMollie(subs: map<SubId, Row>, subs': map<SubId, Row>) {
    forall i | i in subs && i in subs' :: subs'[i].mollieSub == subs[i].mollieSub
  }

  /** A step that asks for exactly these stops, leaves exactly those owed, and otherwise leaves
      Mollie and the requests alone. */
  ghost predicate Books(w: World, w': World, asked: set<MollieSubId>, owes: multiset<MollieSubId>) {
    && w'.stopped == w.stopped + asked && w'.owed == w.owed + owes
    && w'.cancels == w.cancels && w'.created == w.created && w'.activating == w.activating
    && SameMollie(w.subs, w'.subs)
  }

  /** A delivery finds its checkout closed when Mollie has answered. */
  predicate Abandons(w: World, p: PaymentId)
    requires p in w.activating
  {
    var a := w.activating[p];
    a.sub !in w.subs
    || if a.scheduled then !(w.subs[a.sub].status.Scheduled? && w.subs[a.sub].mollieSub.None?)
       else !w.subs[a.sub].status.Incomplete?
  }

  predicate ChargedAfterCancel(w: World, p: PaymentId, i: SubId) {
    && IsCharge(w, p) && HasMollie(w, i, w.payments[p].mollieSub)
    && w.subs[i].canceledAt.Some? && w.payments[p].createdAt > w.subs[i].canceledAt.value
  }

  /** The charge is refunded and its subscription stopped again. */
  ghost predicate RefusesCharge(w: World, p: PaymentId)
    requires IsCharge(w, p)
  {
    !ScheduledFor(w, w.payments[p].mollieSub) && exists i :: ChargedAfterCancel(w, p, i)
  }

  function Downgraded(w: World, ids: set<SubId>): set<MollieSubId> {
    if w.plan.Pro? then MollieSubs(w.subs, ids) else {}
  }

  /** The Mollie subscriptions a step asks to stop, or Mollie reports ended. */
  ghost function AskedBy(w: World, s: Step): set<MollieSubId>
    requires Enabled(w, s)
  {
    match s
    case FirstPayments(FirstFinishes(p, _)) => if Abandons(w, p) then {w.activating[p].mollie} else {}
    case Charges(RenewalBegins(p)) => if RefusesCharge(w, p) then {w.payments[p].mollieSub} else {}
    case Charges(MollieEnds(m, _)) => {m}
    case Cancels(Asks(c)) => if w.cancels[c].mollie.Some? then {w.cancels[c].mollie.value} else {}
    case Sweeps(DropsPastDue) => Downgraded(w, PastDueIds(w))
    case Sweeps(DropsEnded) => Downgraded(w, EndedIds(w))
    case Stops(StopsOwed(m)) => {m}
    case _ => {}
  }

  function TakeOverOwes(w: World, charged: bool): multiset<MollieSubId> {
    match PromotionOf(w, charged)
    case NothingDue => multiset{}
    case IndexViolation => multiset{}
    case Superseded => multiset(MollieSubs(w.subs, DueIds(w, charged)))
    case TookOver => multiset(MollieSubs(w.subs, RunningIds(w.subs)))
  }

  /** The stops a step leaves to be asked for after its commit: those of a transfer and of a takeover. */
  function OwedBy(w: World, s: Step): multiset<MollieSubId> {
    match s
    case Transfer(_, _) => multiset(MollieSubs(w.subs, OpenRows(w.subs)))
    case Sweeps(TakesOver) => TakeOverOwes(w, false)
    case FirstPayments(FirstTakesOver(_)) => TakeOverOwes(w, false)
    case Charges(ChargeTakesOver(_)) => TakeOverOwes(w, true)
    case _ => multiset{}
  }

  lemma OwedIsOpen(w: World, s: Step, m: MollieSubId) returns (i: SubId)
    requires m in OwedBy(w, s)
    ensures HasMollie(w, i, m) && !Closed(w.subs[i])
  {
    match s
    case Transfer(_, _) =>
      i :| i in OpenRows(w.subs) && i in w.subs && w.subs[i].mollieSub == Some(m);
    case Sweeps(_) => i := TakeOverOwesOpen(w, false, m);
    case FirstPayments(_) => i := TakeOverOwesOpen(w, false, m);
    case Charges(_) => i := TakeOverOwesOpen(w, true, m);
  }

  lemma TakeOverOwesOpen(w: World, charged: bool, m: MollieSubId) returns (i: SubId)
    requires m in TakeOverOwes(w, charged)
    ensures HasMollie(w, i, m) && !Closed(w.subs[i])
  {
    match PromotionOf(w, charged)
    case Superseded => i :| i in DueIds(w, charged) && i in w.subs && w.subs[i].mollieSub == Some(m);
    case TookOver => i :| i in RunningIds(w.subs) && i in w.subs && w.subs[i].mollieSub == Some(m);
  }

  /** The step lets a delivery create a Mollie subscription for its open checkout. */
  predicate Starts(w: World, s: Step, p: PaymentId) {
    && s.FirstPayments? && s.first.FirstBegins? && s.first.p == p && IsFirst(w, p)
    && w.payments[p].sub in w.subs && Unconfirmed(w.subs[w.payments[p].sub])
  }

  /** The step is a delivery recording its Mollie subscription on row `i`, which had none. */
  predicate Records(w: World, s: Step, i: SubId) {
    && s.FirstPayments? && s.first.FirstFinishes? && s.first.p in w.activating && w.activating[s.first.p].sub == i
    && i in w.subs && Unconfirmed(w.subs[i])
  }

  ghost predicate StepBooks(w: World, s: Step, w': World)
    requires Enabled(w, s)
  {
    && w'.stopped == w.stopped + AskedBy(w, s)
    && w'.owed == (if s.Stops? then w.owed - multiset{s.stop.m} else w.owed + OwedBy(w, s))
    && (!s.Cancels? ==> w'.cancels == w.cancels)
    && (forall i | i in w.subs && i in w'.subs :: w'.subs[i].mollieSub == w.subs[i].mollieSub || Records(w, s, i))
    && (forall p | p in w'.activating :: (p in w.activating && w'.activating[p] == w.activating[p]) || Starts(w, s, p))
    && (forall p | p in w.activating && p !in w'.activating ::
          s.FirstPayments? && s.first.p == p && (s.first.FirstFinishes? || s.first.FirstCrashes?))
    && (forall i | i in w.created :: i in w'.created && w'.created[i] == w.created[i])
    && (forall i | i in w'.created && i !in w.created ::
          || (s.Checkouts? && HasMollie(w', i, w'.created[i]))
          || (s.FirstPayments? && s.first.p in w'.activating && w'.activating[s.first.p].sub == i))
  }

  lemma BooksAre(w: World, s: Step, w': World, asked: set<MollieSubId>)
    requires Enabled(w, s) && Books(w, w', asked, OwedBy(w, s)) && asked == AskedBy(w, s) && !s.Stops?
    ensures StepBooks(w, s, w')
  {
  }

  lemma SameBooks(w: World, w': World)
    requires w'.stopped == w.stopped && w'.owed == w.owed
    requires w'.cancels == w.cancels && w'.created == w.created && w'.activating == w.activating
    requires SameMollie(w.subs, w'.subs)
    ensures Books(w, w', {}, multiset{})
  {
  }

  // ----- Takeovers and downgrades -----

  lemma HandOverBooks(w: World, newOwner: UserId, lastPaid: Option<Time>)
    ensures Books(w, HandOver(w, newOwner, lastPaid), {}, multiset(MollieSubs(w.subs, OpenRows(w.subs))))
  {
    assert OpenRows(w.subs) == set i | i in w.subs && !Closed(w.subs[i]);
  }

  lemma SupersedeBooks(w: World, charged: bool)
    ensures Books(w, Supersede(w, charged), {}, multiset(MollieSubs(w.subs, DueIds(w, charged))))
  {
    forall i | i in w.subs ensures i in Supersede(w, charged).subs && Supersede(w, charged).subs[i].mollieSub == w.subs[i].mollieSub {
      SupersedeMollie(w, charged, i);
    }
  }

  lemma TakeOverBooks(w: World, charged: bool)
    requires AnyDue(w, charged)
    ensures Books(w, TakeOver(w, charged), {}, multiset(MollieSubs(w.subs, RunningIds(w.subs))))
  {
    forall i | i in w.subs ensures i in TakeOver(w, charged).subs && TakeOver(w, charged).subs[i].mollieSub == w.subs[i].mollieSub {
      TakeOverMollie(w, charged, i);
    }
  }

  lemma PromoteBooks(w: World, charged: bool)
    ensures Books(w, Promote(w, charged), {}, TakeOverOwes(w, charged))
  {
    SameBooks(w, w);
    match PromotionOf(w, charged)
    case NothingDue =>
    case Superseded => SupersedeBooks(w, charged);
    case IndexViolation =>
    case TookOver => TakeOverBooks(w, charged);
  }

  lemma ToFreeBooks(w: World)
    ensures Books(w, ToFree(w), {}, multiset{})
  {
    if w.plan.Pro? && !Comped(w) {
    }
    SameBooks(w, ToFree(w));
  }

  lemma ExpireBooks(w: World, ids: set<SubId>)
    ensures Books(w, ExpireAll(w, ids), MollieSubs(w.subs, ids), multiset{})
  {
  }

  lemma DowngradeBooks(w: World, ids: set<SubId>)
    ensures Books(w, Downgrade(w, ids), Downgraded(w, ids), multiset{})
  {
    SameBooks(w, w);
    if w.plan.Pro? && ids != {} {
      ToFreeBooks(ExpireAll(w, ids));
      ExpireBooks(w, ids);
    } else {
      assert Downgraded(w, ids) == {};
    }
  }

  // ----- First payments -----

  lemma MarkBooks(w: World, p: PaymentId, status: InvoiceStatus)
    ensures Books(w, MarkInvoice(w, p, status), {}, multiset{}) && MarkInvoice(w, p, status).owed == w.owed
    ensures MarkInvoice(w, p, status).subs == w.subs
  {
    if p in w.invoices {
    }
    SameBooks(w, MarkInvoice(w, p, status));
  }

  lemma RefundBooks(w: World, p: PaymentId, amount: nat)
    ensures Books(w, RefundFirst(w, p, amount), {}, multiset{}) && RefundFirst(w, p, amount).owed == w.owed
  {
    SameBooks(w, w);
    if amount != 0 {
      MarkBooks(w.(refunds := w.refunds + {p}), p, Refunded);
      SameBooks(w, RefundFirst(w, p, amount));
    }
  }

  lemma CloseUnconfirmedBooks(w: World, id: SubId)
    ensures Books(w, CloseUnconfirmed(w, id), {}, multiset{}) && CloseUnconfirmed(w, id).owed == w.owed
  {
    if id in w.subs && Unconfirmed(w.subs[id]) {
    }
    SameBooks(w, CloseUnconfirmed(w, id));
  }

  lemma RefuseBooks(w: World, id: SubId, p: PaymentId, amount: nat)
    ensures Books(w, RefundFirst(CloseUnconfirmed(w, id), p, amount), {}, multiset{})
  {
    CloseUnconfirmedBooks(w, id);
    RefundBooks(CloseUnconfirmed(w, id), p, amount);
    RefundRows(CloseUnconfirmed(w, id), p, amount);
    SameBooks(w, RefundFirst(CloseUnconfirmed(w, id), p, amount));
  }

  lemma BeginFirstBooks(w: World, p: PaymentId, answer: Option<MollieSubId>)
    requires Inv(w) && FirstEnabled(w, FirstBegins(p, answer))
    ensures StepBooks(w, FirstPayments(FirstBegins(p, answer)), BeginFirst(w, p, answer))
  {
    var s, f := FirstPayments(FirstBegins(p, answer)), w.payments[p];
    SameBooks(w, w);
    BooksAre(w, s, w, {});
    if f.sub in w.subs {
      var r := w.subs[f.sub];
      if r.mollieSub.Some? {
        MarkBooks(w, p, InvoicePaid);
        BooksAre(w, s, MarkInvoice(w, p, InvoicePaid), {});
      } else if (!r.status.Incomplete? && !r.status.Scheduled?) || !PayerIsOwner(w, r, f.customer) {
        RefuseBooks(w, f.sub, p, f.amount);
        BooksAre(w, s, RefundFirst(CloseUnconfirmed(w, f.sub), p, f.amount), {});
      } else if r.status.Scheduled? && Conflicting(w) {
        SameBooks(w, w.(subs := w.subs[f.sub := Cancel(r, w.now)]));
        BooksAre(w, s, w.(subs := w.subs[f.sub := Cancel(r, w.now)]), {});
      } else if answer.Some? {
        StartBooks(w, p, answer);
      }
    }
  }

  lemma StartBooks(w: World, p: PaymentId, answer: Option<MollieSubId>)
    requires FirstEnabled(w, FirstBegins(p, answer)) && answer.Some? && w.payments[p].sub in w.subs
    requires Unconfirmed(w.subs[w.payments[p].sub])
    ensures var i := w.payments[p].sub;
      StepBooks(w, FirstPayments(FirstBegins(p, answer)), StartActivation(w, p, i, answer.value, w.subs[i].status.Scheduled?))
  {
  }

  /** Books of the rest of a delivery, which ends it. */
  ghost predicate EndBooks(w: World, p: PaymentId, recorded: set<SubId>, w': World, asked: set<MollieSubId>) {
    && w'.stopped == w.stopped + asked
    && w'.owed == w.owed
    && w'.cancels == w.cancels && w'.created == w.created && w'.activating == w.activating - {p}
    && forall i | i in w.subs && i in w'.subs && i !in recorded :: w'.subs[i].mollieSub == w.subs[i].mollieSub
  }

  lemma EndBooksAre(w: World, p: PaymentId, next: Option<Time>, w': World)
    requires FirstEnabled(w, FirstFinishes(p, next))
    requires if Abandons(w, p) then EndBooks(w, p, {}, w', {w.activating[p].mollie})
             else Unconfirmed(w.subs[w.activating[p].sub]) && EndBooks(w, p, {w.activating[p].sub}, w', {})
    ensures StepBooks(w, FirstPayments(FirstFinishes(p, next)), w')
  {
  }

  lemma ConfirmBooks(w: World, p: PaymentId, i: SubId, mollie: MollieSubId, next: Option<Time>)
    requires i in w.subs
    ensures EndBooks(w, p, {i}, Confirm(w, p, i, mollie, next), {})
  {
  }

  lemma FlipBooks(w: World, p: PaymentId, i: SubId, mollie: MollieSubId, next: Option<Time>)
    requires i in w.subs
    ensures EndBooks(w, p, {i}, Flip(w, p, i, mollie, next), {})
  {
    var r := w.subs[i];
    var r' := r.(mollieSub := Some(mollie), status := Active, startedAt := r.startedAt.Or(Some(w.now)), nextChargeAt := next);
    MarkBooks(w.(activating := w.activating - {p}, subs := w.subs[i := r'], plan := r.plan, graceUntil := None), p, InvoicePaid);
  }

  lemma AbandonBooks(w: World, p: PaymentId, mollie: MollieSubId, amount: nat)
    ensures EndBooks(w, p, {}, Abandon(w.(activating := w.activating - {p}), p, mollie, amount), {mollie})
  {
    RefundBooks(w.(activating := w.activating - {p}, stopped := w.stopped + {mollie}), p, amount);
  }

  lemma FinishFirstBooks(w: World, p: PaymentId, next: Option<Time>)
    requires FirstEnabled(w, FirstFinishes(p, next)) && EachRowOk(w.subs, w.now)
    ensures StepBooks(w, FirstPayments(FirstFinishes(p, next)), FinishFirst(w, p, next))
  {
    var a := w.activating[p];
    assert a.sub in w.subs ==> RowOk(w.subs[a.sub], w.now);
    if Abandons(w, p) {
      AbandonBooks(w, p, a.mollie, w.payments[p].amount);
    } else if a.scheduled {
      ConfirmBooks(w, p, a.sub, a.mollie, next);
    } else {
      FlipBooks(w, p, a.sub, a.mollie, next);
    }
    EndBooksAre(w, p, next, FinishFirst(w, p, next));
  }

  lemma CancelRowBooks(w: World, i: SubId)
    requires i in w.subs
    ensures var w' := w.(subs := w.subs[i := Cancel(w.subs[i], w.now)]);
      && w'.stopped == w.stopped && w'.owed == w.owed && w'.cancels == w.cancels && w'.created == w.created
      && w'.activating == w.activating && SameMollie(w.subs, w'.subs)
  {
  }

  lemma FirstFailedBooks(w: World, p: PaymentId)
    requires IsFirst(w, p)
    ensures Books(w, FirstFailed(w, p), {}, multiset{})
  {
    MarkBooks(w, p, InvoiceFailed);
    var w1, i := MarkInvoice(w, p, InvoiceFailed), w.payments[p].sub;
    if i in w.subs && (w.subs[i].status.Incomplete? || (w.subs[i].status.Scheduled? && w.subs[i].mollieSub.None?)) {
      CancelRowBooks(w1, i);
      SameBooks(w, w1.(subs := w.subs[i := Cancel(w.subs[i], w.now)]));
    }
  }

  lemma SettleBooks(w: World, p: PaymentId, paid: bool)
    requires FirstEnabled(w, FirstSettles(p, paid))
    ensures StepBooks(w, FirstPayments(FirstSettles(p, paid)), ApplyFirst(w, FirstSettles(p, paid)))
  {
  }

  lemma CrashBooks(w: World, p: PaymentId)
    requires FirstEnabled(w, FirstCrashes(p))
    ensures StepBooks(w, FirstPayments(FirstCrashes(p)), CrashFirst(w, p))
  {
  }

  lemma FirstStepBooks(w: World, f: FirstStep)
    requires Inv(w) && FirstEnabled(w, f)
    ensures StepBooks(w, FirstPayments(f), ApplyFirst(w, f))
  {
    match f
    case FirstSettles(p, paid) => SettleBooks(w, p, paid);
    case FirstBegins(p, answer) => BeginFirstBooks(w, p, answer);
    case FirstFinishes(p, next) => FinishFirstBooks(w, p, next);
    case FirstTakesOver(_) => PromoteBooks(w, false);
    case FirstCrashes(p) => CrashBooks(w, p);
    case FirstFails(p) => FirstFailedBooks(w, p);
  }

  // ----- Charges -----

  lemma LoadBooks(w: World, p: PaymentId)
    requires IsCharge(w, p) && ScheduledFor(w, w.payments[p].mollieSub)
    ensures Books(w, LoadScheduled(w, p), {}, multiset{})
  {
    SameBooks(w, LoadScheduled(w, p));
  }

  lemma TakeOverChargedBooks(w: World, p: PaymentId)
    ensures Books(w, TakeOverCharged(w, p), {}, TakeOverOwes(w, true))
  {
    PromoteBooks(CrashRenewal(w, p), true);
    assert TakeOverOwes(CrashRenewal(w, p), true) == TakeOverOwes(w, true);
  }

  lemma RenewRowBooks(w: World, p: PaymentId, i: SubId)
    requires IsCharge(w, p) && HasMollie(w, i, w.payments[p].mollieSub)
    ensures Books(w, RenewRow(w, p, i), if ChargedAfterCancel(w, p, i) then {w.payments[p].mollieSub} else {}, multiset{})
    ensures RenewRow(w, p, i).owed == w.owed && RenewRow(w, p, i).subs == w.subs
  {
    if ChargedAfterCancel(w, p, i) {
    }
  }

  lemma BeginRenewalBooks(w: World, p: PaymentId)
    requires Inv(w) && ChargeEnabled(w, RenewalBegins(p))
    ensures Books(w, BeginRenewal(w, p), if RefusesCharge(w, p) then {w.payments[p].mollieSub} else {}, multiset{})
  {
    var m := w.payments[p].mollieSub;
    SameBooks(w, w);
    if !ScheduledFor(w, m) && exists i :: HasMollie(w, i, m) {
      var i := RowOf(w, m);
      OneRowOf(w, m, i);
      RenewRowBooks(w, p, i);
      assert RefusesCharge(w, p) <==> ChargedAfterCancel(w, p, i);
    }
  }

  lemma RecordFailureBooks(w: World, p: PaymentId)
    requires IsCharge(w, p)
    ensures var w' := RecordFailure(w, p); Books(w, w', {}, multiset{})
    ensures var w' := RecordFailure(w, p);
      w'.subs.Keys == w.subs.Keys && forall i | i in w.subs :: w'.subs[i].mollieSub == w.subs[i].mollieSub
  {
    MarkBooks(w.(subs := FailedRows(w.subs, w.payments[p].mollieSub, w.now)), p, InvoiceFailed);
  }

  lemma ChargeFailedBooks(w: World, p: PaymentId)
    requires IsCharge(w, p)
    ensures Books(w, ChargeFailed(w, p), {}, multiset{})
  {
    SameBooks(w, w);
    if !ScheduledFor(w, w.payments[p].mollieSub) {
      RecordFailureBooks(w, p);
    }
  }

  lemma FinishRenewalBooks(w: World, p: PaymentId, mollieDate: Option<Time>)
    requires p in w.renewing && w.renewing[p].Renewal?
    ensures Books(w, FinishRenewal(w, p, mollieDate), {}, multiset{})
  {
    FinishRenewalRows(w, p, mollieDate);
    var w' := FinishRenewal(w, p, mollieDate);
    if w.renewing[p].sub in w.subs {
      SameBooks(w, w');
    } else {
      SameBooks(w, w');
    }
  }

  lemma FinishRenewalRows(w: World, p: PaymentId, mollieDate: Option<Time>)
    requires p in w.renewing && w.renewing[p].Renewal?
    ensures SameMollie(w.subs, FinishRenewal(w, p, mollieDate).subs)
  {
    if w.renewing[p].sub in w.subs {
    }
  }

  lemma ChargeStepBooks(w: World, c: ChargeStep)
    requires Inv(w) && ChargeEnabled(w, c)
    ensures Books(w, ApplyCharge(w, c), AskedBy(w, Charges(c)), OwedBy(w, Charges(c)))
  {
    match c
    case MollieCharges(_, _) =>
    case ChargeSettles(_, _) =>
    case ChargeLoads(p) => LoadBooks(w, p);
    case ChargeTakesOver(p) => TakeOverChargedBooks(w, p);
    case RenewalBegins(p) => BeginRenewalBooks(w, p);
    case RenewalFinishes(p, mollieDate) => FinishRenewalBooks(w, p, mollieDate);
    case RenewalCrashes(_) =>
    case ChargeFails(p) => ChargeFailedBooks(w, p);
    case MollieEnds(_, _) =>
  }

  // ----- Every step -----

  lemma InsertBooks(w: World, user: UserId, customer: Customer, plan: Plan, price: nat)
    requires RowsOk(w)
    ensures Books(w, InsertIncomplete(w, user, customer, plan, price), {}, multiset{})
  {
    if !MayCheckOut(w, user) || HasLive(w) {
    }
    SameBooks(w, InsertIncomplete(w, user, customer, plan, price));
  }

  lemma ScheduleBooks(w: World, user: UserId, customer: Customer, plan: Plan, price: nat, startsAt: Time, predecessor: SubId)
    requires RowsOk(w)
    ensures Books(w, InsertScheduled(w, user, customer, plan, price, startsAt, predecessor), {}, multiset{})
  {
    if !MayCheckOut(w, user) || HasScheduled(w) {
    }
    SameBooks(w, InsertScheduled(w, user, customer, plan, price, startsAt, predecessor));
  }

  lemma RollbackBooks(w: World, id: SubId)
    ensures Books(w, RollbackIncomplete(w, id), {}, multiset{}) && Books(w, RollbackScheduled(w, id), {}, multiset{})
  {
    SameBooks(w, w);
    SameBooks(w, w.(subs := Remove(w.subs, id)));
  }

  lemma PaymentBooks(w: World, c: CheckoutStep)
    requires CheckoutEnabled(w, c) && (c.Pays? || c.Invoices?)
    ensures Books(w, ApplyCheckout(w, c), {}, multiset{})
  {
    SameBooks(w, ApplyCheckout(w, c));
  }

  lemma CheckoutStepBooks(w: World, c: CheckoutStep)
    requires Inv(w) && CheckoutEnabled(w, c)
    ensures StepBooks(w, Checkouts(c), ApplyCheckout(w, c))
  {
    if c.ActivatesProject? {
      ActivatedBooks(w, c);
    } else {
      match c {
        case ClosesAbandoned => SameBooks(w, CloseAbandoned(w));
        case Inserts(user, customer, plan, price) => InsertBooks(w, user, customer, plan, price);
        case Schedules(user, customer, plan, price, startsAt, predecessor) =>
          ScheduleBooks(w, user, customer, plan, price, startsAt, predecessor);
        case Pays(_, _) => PaymentBooks(w, c);
        case Invoices(_) => PaymentBooks(w, c);
        case RollsBack(id) => RollbackBooks(w, id);
        case RollsBackScheduled(id) => RollbackBooks(w, id);
      }
      BooksAre(w, Checkouts(c), ApplyCheckout(w, c), {});
    }
  }

  lemma ActivatedBooks(w: World, c: CheckoutStep)
    requires Inv(w) && CheckoutEnabled(w, c) && c.ActivatesProject?
    ensures StepBooks(w, Checkouts(c), ApplyCheckout(w, c))
  {
    assert w.nextId !in w.created;
    InsertedActivated(w, c.p, c.customer, c.price, c.mollie, c.next);
    CreatesOnRow(w, c, ApplyCheckout(w, c));
  }

  lemma InsertedActivated(w: World, p: PaymentId, customer: Customer, price: nat, mollie: Option<MollieSubId>, next: Option<Time>)
    requires w.subs == map[] && p !in w.invoices
    ensures var w' := InsertActivated(w, p, customer, price, mollie, next);
      && w'.stopped == w.stopped && w'.owed == w.owed && w'.cancels == w.cancels && w'.activating == w.activating
      && w'.subs.Keys == {w.nextId} && w'.subs[w.nextId].mollieSub == mollie
      && w'.created == if mollie.Some? then w.created[w.nextId := mollie.value] else w.created
  {
    if mollie.Some? {
    }
  }

  lemma CreatesOnRow(w: World, c: CheckoutStep, w': World)
    requires CheckoutEnabled(w, c) && w.subs == map[] && w.nextId !in w.created
    requires w'.stopped == w.stopped && w'.owed == w.owed && w'.cancels == w.cancels && w'.activating == w.activating
    requires w.nextId in w'.subs
    requires w'.created == if w'.subs[w.nextId].mollieSub.Some? then w.created[w.nextId := w'.subs[w.nextId].mollieSub.value] else w.created
    ensures StepBooks(w, Checkouts(c), w')
  {
  }

  lemma SweepStepBooks(w: World, sweep: SweepStep)
    ensures Books(w, ApplySweep(w, sweep), AskedBy(w, Sweeps(sweep)), OwedBy(w, Sweeps(sweep)))
  {
    match sweep
    case TakesOver => PromoteBooks(w, false);
    case DropsPastDue => DowngradeBooks(w, PastDueIds(w));
    case DropsLegacy =>
      SameBooks(w, w);
      ToFreeBooks(w);
    case DropsEnded => DowngradeBooks(w, EndedIds(w));
  }

  lemma CancelStepBooks(w: World, c: CancelStep)
    requires CancelEnabled(w, c)
    ensures StepBooks(w, Cancels(c), ApplyCancel(w, c))
  {
    match c
    case Reads(_, _, _) =>
    case Asks(_) =>
    case Updates(_) =>
  }

  lemma StopStepBooks(w: World, t: StopStep)
    requires t.m in w.owed
    ensures StepBooks(w, Stops(t), ApplyStop(w, t))
  {
    match t
    case StopsOwed(_) =>
    case DiesOwing(_) =>
  }

  lemma QuietStepBooks(w: World, s: Step)
    requires s.Tick? || s.SetCustomer? || s.SetComp?
    requires Enabled(w, s)
    ensures StepBooks(w, s, Apply(w, s))
  {
    match s
    case Tick(seconds) => SameBooks(w, Elapse(w, seconds));
    case SetCustomer(user, customer) => SameBooks(w, WithCustomer(w, user, customer));
    case SetComp(until) => SameBooks(w, WithComp(w, until));
  }

  /** Whichever step is next: Mollie is asked to stop exactly what `AskedBy` says, exactly what
      `OwedBy` says is left to be asked for, and only an open checkout's delivery creates a
      subscription. */
  lemma StepAsks(w: World, s: Step)
    requires Inv(w) && Enabled(w, s)
    ensures StepBooks(w, s, Apply(w, s))
  {
    match s
    case Tick(_) => QuietStepBooks(w, s);
    case SetCustomer(_, _) => QuietStepBooks(w, s);
    case SetComp(_) => QuietStepBooks(w, s);
    case Transfer(newOwner, lastPaid) => HandOverBooks(w, newOwner, lastPaid);
    case Checkouts(c) => CheckoutStepBooks(w, c);
    case FirstPayments(f) => FirstStepBooks(w, f);
    case Charges(c) => ChargeStepBooks(w, c);
    case Cancels(c) => CancelStepBooks(w, c);
    case Sweeps(sweep) => SweepStepBooks(w, sweep);
    case Stops(t) => StopStepBooks(w, t);
  }
}
