/** Runs of the protocol: any interleaving of its steps keeps the invariant. */
module BillingRuns {
  import opened Prelude
  import opened Billing
  import opened BillingInvariant
  import opened BillingFrames
  import opened BillingQuiet
  import opened BillingKept
  import opened BillingPayments
  import opened BillingDeliveries
  import opened BillingSteps

  // ----- One step -----

  lemma CheckoutInsertsKeeps(w: World, user: UserId, customer: Customer, plan: Plan, price: nat)
    requires Inv(w)
    ensures Kept(w, InsertIncomplete(w, user, customer, plan, price))
  {
    if !MayCheckOut(w, user) || HasLive(w) {
      NothingKeeps(w);
    } else {
      InsertKeeps(w, NewRow(Incomplete, customer, plan, price), InsertIncomplete(w, user, customer, plan, price));
    }
  }

  lemma CheckoutSchedulesKeeps(w: World, user: UserId, customer: Customer, plan: Plan, price: nat,
                               startsAt: Time, predecessor: SubId)
    requires Inv(w) && predecessor in w.subs && w.subs[predecessor].startedAt.Some?
    ensures Kept(w, InsertScheduled(w, user, customer, plan, price, startsAt, predecessor))
  {
    if !MayCheckOut(w, user) || HasScheduled(w) {
      NothingKeeps(w);
    } else {
      var r := NewRow(Scheduled, customer, plan, price).(startsAt := Some(startsAt), predecessor := Some(predecessor));
      InsertKeeps(w, r, InsertScheduled(w, user, customer, plan, price, startsAt, predecessor));
    }
  }

  lemma ScheduledHasNoInvoice(w: World, id: SubId)
    requires Inv(w) && id in w.subs && w.subs[id].status.Scheduled?
    ensures forall p | p in w.invoices && IsFirst(w, p) :: w.invoices[p].sub != id
  {
    forall p | p in w.invoices && IsFirst(w, p) ensures w.invoices[p].sub != id {
      assert FirstOk(w, p) && RowOk(w.subs[id], w.now);
    }
  }

  lemma CheckoutRollsBackKeeps(w: World, id: SubId)
    requires Inv(w) && forall p | p in w.invoices :: w.invoices[p].sub != id
    ensures Kept(w, RollbackIncomplete(w, id))
  {
    if id in w.subs && w.subs[id].status.Incomplete? {
      assert RowOk(w.subs[id], w.now);
      RemoveKeeps(w, id, RollbackIncomplete(w, id));
    } else {
      NothingKeeps(w);
    }
  }

  lemma ScheduledRollsBackKeeps(w: World, id: SubId)
    requires Inv(w)
    ensures Kept(w, RollbackScheduled(w, id))
  {
    if id in w.subs && w.subs[id].status.Scheduled? && w.subs[id].mollieSub.None? {
      ScheduledHasNoInvoice(w, id);
      RemoveKeeps(w, id, RollbackScheduled(w, id));
    } else {
      NothingKeeps(w);
    }
  }

  lemma ActivatedRows(w: World, r: Row, w': World)
    requires RowsPart(w) && w.subs == map[] && w.graceUntil.None? && RowOk(r, w.now) && r.status.Active?
    requires w'.subs == map[w.nextId := r] && w'.now == w.now && w'.nextId == w.nextId + 1 && w'.graceUntil.None?
    requires w.nextId !in w.created
    requires w'.created == if r.mollieSub.Some? then w.created[w.nextId := r.mollieSub.value] else w.created
    requires Answers(w, w.nextId, r.mollieSub)
    ensures RowsPart(w') && Follows(w, w')
  {
  }

  lemma ActivatedTables(w: World, w': World)
    requires FirstsOk(w) && w.subs == map[]
    requires w.nextId !in w.created && w'.nextId == w.nextId + 1
    requires forall i | i in w.created :: i in w'.created && w'.created[i] == w.created[i]
    requires w'.activating == w.activating && w'.refunds == w.refunds
    requires forall p | p in w.payments :: p in w'.payments && w'.payments[p] == w.payments[p]
    requires forall p | p in w'.payments && p !in w.payments :: w'.payments[p].NewProject?
    requires forall p | p in w.invoices :: p in w'.invoices && w'.invoices[p] == w.invoices[p]
    requires forall p | p in w'.invoices && p !in w.invoices :: p in w'.payments && w'.payments[p].NewProject?
    requires forall i | i in w'.subs :: i == w.nextId
    ensures FirstsOk(w')
  {
    forall q | q in w'.payments && w'.payments[q].First? ensures FirstOk(w', q) {
      assert FirstOk(w, q);
    }
  }

  lemma ActivatedRow(w: World, p: PaymentId, customer: Customer, price: nat, mollie: Option<MollieSubId>, next: Option<Time>)
    requires MollieOk(w) && Unused(w, p) && w.subs == map[]
    ensures w.nextId !in w.created
    ensures var w' := InsertActivated(w, p, customer, price, mollie, next);
      && w.nextId in w'.subs && var r := w'.subs[w.nextId];
         w' == w.(subs := map[w.nextId := r], nextId := w.nextId + 1,
                  payments := w.payments[p := NewProject],
                  created := if mollie.Some? then w.created[w.nextId := mollie.value] else w.created,
                  invoices := w.invoices[p := Invoice(w.nextId, price, InvoicePaid, Some(w.now))])
         && RowOk(r, w.now) && r.status.Active? && r.mollieSub == mollie
  {
  }

  lemma ActivatedCharges(w: World, w': World)
    requires ChargesOk(w) && w.subs == map[] && w'.now == w.now && w'.renewing == w.renewing
    requires forall p | p in w.payments :: p in w'.payments && w'.payments[p] == w.payments[p]
    requires forall p | p in w'.payments && p !in w.payments :: w'.payments[p].NewProject?
    requires forall p | p in w'.invoices :: if p in w.invoices then w'.invoices[p] == w.invoices[p]
                                            else p in w'.payments && w'.payments[p].NewProject?
    ensures ChargesOk(w')
  {
  }

  lemma ProjectActivatedKeeps(w: World, p: PaymentId, customer: Customer, price: nat,
                              mollie: Option<MollieSubId>, next: Option<Time>)
    requires Inv(w) && Unused(w, p) && w.subs == map[] && w.graceUntil.None? && Answers(w, w.nextId, mollie)
    ensures Kept(w, InsertActivated(w, p, customer, price, mollie, next))
  {
    var w' := InsertActivated(w, p, customer, price, mollie, next);
    ActivatedRow(w, p, customer, price, mollie, next);
    ActivatedRows(w, w'.subs[w.nextId], w');
    ActivatedTables(w, w');
    ActivatedCharges(w, w');
  }

  lemma CheckoutStepKeeps(w: World, s: CheckoutStep)
    requires Inv(w) && CheckoutEnabled(w, s)
    ensures Kept(w, ApplyCheckout(w, s))
  {
    match s
    case ClosesAbandoned => CloseAbandonedKeeps(w);
    case Inserts(user, customer, plan, price) => CheckoutInsertsKeeps(w, user, customer, plan, price);
    case Schedules(user, customer, plan, price, startsAt, predecessor) =>
      CheckoutSchedulesKeeps(w, user, customer, plan, price, startsAt, predecessor);
    case Pays(p, id) =>
      PaysKeeps(w, p, id, w.subs[id].customer, if w.subs[id].startsAt.Some? then 0 else w.subs[id].price);
    case Invoices(p) => InvoiceFirstKeeps(w, p);
    case RollsBack(id) => CheckoutRollsBackKeeps(w, id);
    case RollsBackScheduled(id) => ScheduledRollsBackKeeps(w, id);
    case ActivatesProject(p, customer, price, mollie, next) => ProjectActivatedKeeps(w, p, customer, price, mollie, next);
  }

  lemma FirstStepKeeps(w: World, s: FirstStep)
    requires Inv(w) && FirstEnabled(w, s)
    ensures Kept(w, ApplyFirst(w, s))
  {
    match s
    case FirstSettles(p, paid) => FirstSettlesKeeps(w, p, Settled(paid));
    case FirstBegins(p, answer) => BeginFirstKeeps(w, p, answer);
    case FirstFinishes(p, next) => FinishFirstKeeps(w, p, next);
    case FirstTakesOver(_) => PromoteKeeps(w, false);
    case FirstCrashes(p) => CrashFirstKeeps(w, p);
    case FirstFails(p) => FirstFailedKeeps(w, p);
  }

  lemma ChargeStepKeeps(w: World, s: ChargeStep)
    requires Inv(w) && ChargeEnabled(w, s)
    ensures Kept(w, ApplyCharge(w, s))
  {
    match s
    case MollieCharges(p, m) => ChargeStateKeeps(w, p, m, w.now, Open);
    case ChargeSettles(p, paid) => ChargeStateKeeps(w, p, w.payments[p].mollieSub, w.payments[p].createdAt, Settled(paid));
    case ChargeLoads(p) => LoadScheduledKeeps(w, p);
    case ChargeTakesOver(p) => TakeOverChargedKeeps(w, p);
    case RenewalBegins(p) => BeginRenewalKeeps(w, p);
    case RenewalFinishes(p, mollieDate) => FinishRenewalKeeps(w, p, mollieDate);
    case RenewalCrashes(p) => CrashRenewalKeeps(w, p);
    case ChargeFails(p) => ChargeFailedKeeps(w, p);
    case MollieEnds(m, completed) => EndedKeeps(w, m, completed);
  }

  lemma CancelStepKeeps(w: World, s: CancelStep)
    requires Inv(w) && CancelEnabled(w, s)
    ensures Kept(w, ApplyCancel(w, s))
  {
    match s
    case Reads(_, _, _) => SameRowsKeep(w, ApplyCancel(w, s));
    case Asks(_) => SameRowsKeep(w, ApplyCancel(w, s));
    case Updates(c) => UpdateCanceledKeeps(w, c);
  }

  lemma SweepLegacyKeeps(w: World)
    requires Inv(w)
    ensures Kept(w, SweepLegacy(w))
  {
    if LegacyElapsed(w) {
      ToFreeKeeps(w);
    } else {
      NothingKeeps(w);
    }
  }

  lemma SweepStepKeeps(w: World, s: SweepStep)
    requires Inv(w)
    ensures Kept(w, ApplySweep(w, s))
  {
    match s
    case TakesOver => PromoteKeeps(w, false);
    case DropsPastDue => DowngradeKeeps(w, PastDueIds(w));
    case DropsLegacy => SweepLegacyKeeps(w);
    case DropsEnded => DowngradeKeeps(w, EndedIds(w));
  }

  lemma StopStepKeeps(w: World, s: StopStep)
    requires Inv(w)
    ensures Kept(w, ApplyStop(w, s))
  {
    SameRowsKeep(w, ApplyStop(w, s));
  }

  lemma SetCustomerKeeps(w: World, user: UserId, customer: Customer)
    requires Inv(w)
    ensures Kept(w, WithCustomer(w, user, customer))
  {
    SurroundingsKeep(w, WithCustomer(w, user, customer));
  }

  lemma SetCompKeeps(w: World, until: Option<Time>)
    requires Inv(w)
    ensures Kept(w, WithComp(w, until))
  {
    SurroundingsKeep(w, WithComp(w, until));
  }

  /** The invariant is kept, and rows only progress, whichever step is next. */
  lemma StepKeeps(w: World, s: Step)
    requires Inv(w) && Enabled(w, s)
    ensures Kept(w, Apply(w, s))
  {
    match s
    case Transfer(newOwner, lastPaid) => HandOverKeeps(w, newOwner, lastPaid);
    case Checkouts(c) => CheckoutStepKeeps(w, c);
    case FirstPayments(f) => FirstStepKeeps(w, f);
    case Charges(c) => ChargeStepKeeps(w, c);
    case Cancels(c) => CancelStepKeeps(w, c);
    case Sweeps(sweep) => SweepStepKeeps(w, sweep);
    case Stops(stop) => StopStepKeeps(w, stop);
    case Tick(seconds) => TickKeeps(w, seconds);
    case SetCustomer(user, customer) => SetCustomerKeeps(w, user, customer);
    case SetComp(until) => SetCompKeeps(w, until);
  }
}
