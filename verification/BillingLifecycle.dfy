/** The life of one subscription row, and of the project's plan, as tables over their own columns:
    what every step of every actor makes of them. The protocol changes them by whole statements. */
module BillingLifecycle {
  import opened Prelude
  import Calendar
  import opened Billing
  import opened BillingInvariant
  import opened BillingFrames
  import opened BillingKept
  import opened BillingSteps
  import opened BillingRuns
  import opened BillingHistory
  import opened BillingTakeover
  import opened BillingTrace
  import opened BillingFirstPayments

  // ----- Columns -----

  predicate InForce(r: Row) {
    r.status.Active? || r.status.PastDue?
  }

  /** A scheduled row with its mandate in place. */
  predicate Mandated(r: Row) {
    r.status.Scheduled? && r.mollieSub.Some?
  }

  /** ... that may start: its date has come, or it was charged. */
  predicate MayStartBy(r: Row, now: Time, charged: bool) {
    Mandated(r) && (charged || (r.startsAt.Some? && r.startsAt.value <= now))
  }

  predicate SomeMayStart(w: World, charged: bool) {
    exists s | s in w.subs :: MayStartBy(w.subs[s], w.now, charged)
  }

  /** Somebody is paying: a subscription in force that nobody cancelled. */
  predicate Paying(w: World) {
    exists j | j in w.subs :: InForce(w.subs[j]) && w.subs[j].canceledAt.None?
  }

  predicate OpenCheckout(w: World) {
    exists j | j in w.subs :: w.subs[j].status.Incomplete?
  }

  predicate SomeMandated(w: World) {
    exists s | s in w.subs :: Mandated(w.subs[s])
  }

  /** The payer is the row's customer and the owner's own, or nobody's if the owner has none. */
  predicate OwnerPays(w: World, r: Row, customer: Customer) {
    && r.customer == customer
    && (if w.owner in w.customerOf
        then w.customerOf[w.owner] == customer && forall u | u in w.customerOf && u < w.owner :: w.customerOf[u] != customer
        else forall u | u in w.customerOf :: w.customerOf[u] != customer)
  }

  predicate PastGrace(r: Row, now: Time) {
    r.status.PastDue? && r.pastDueSince.Some? && r.pastDueSince.value + 7 * 24 * 3600 < now
  }

  /** Cancelled, and the paid period is over. */
  predicate Over(r: Row, now: Time) {
    r.status.Active? && r.canceledAt.Some? && r.nextChargeAt.Some? && r.nextChargeAt.value < now
  }

  predicate CompRuns(w: World) {
    w.compedUntil.Some? && w.compedUntil.value >= w.now
  }

  function FirstDate(t: Option<Time>, now: Time): Option<Time> {
    if t.Some? then t else Some(now)
  }

  // ----- The row table -----

  function AfterTransfer(r: Row, lastPaid: Option<Time>, now: Time): Row {
    match r.status
    case Incomplete => r.(status := Canceled, canceledAt := Some(now))
    case Scheduled => r.(status := Canceled, canceledAt := Some(now))
    case Canceled => r
    case Expired => r
    case _ =>
      var end := if lastPaid.Some? && Calendar.AddMonth(lastPaid.value) > now then Calendar.AddMonth(lastPaid.value) else now;
      r.(canceledAt := FirstDate(r.canceledAt, now), nextChargeAt := if r.nextChargeAt.Some? then r.nextChargeAt else Some(end))
  }

  function AfterTakeover(w: World, charged: bool, r: Row): Row {
    if !SomeMayStart(w, charged) then r
    else if Paying(w) then
      if MayStartBy(r, w.now, charged) then r.(status := Canceled, canceledAt := Some(w.now)) else r
    else if OpenCheckout(w) then r
    else if InForce(r) then r.(status := Expired)
    else if MayStartBy(r, w.now, charged) then r.(status := Active, startedAt := Some(w.now))
    else r
  }

  function AfterCheckout(w: World, c: CheckoutStep, r: Row): Row {
    if c.ClosesAbandoned? && r.status.Scheduled? && r.mollieSub.None? then r.(status := Canceled, canceledAt := Some(w.now)) else r
  }

  /** A delivery before its Mollie call, of the row's own payment. */
  function AfterBegin(w: World, customer: Customer, r: Row): Row {
    if r.mollieSub.Some? || !(r.status.Incomplete? || r.status.Scheduled?) then r
    else if !OwnerPays(w, r, customer) then r.(status := Canceled, canceledAt := FirstDate(r.canceledAt, w.now))
    else if r.status.Scheduled? && (OpenUncancelled(w) || Paying(w)) then r.(status := Canceled, canceledAt := Some(w.now))
    else r
  }

  predicate OpenUncancelled(w: World) {
    exists j | j in w.subs :: w.subs[j].status.Incomplete? && w.subs[j].canceledAt.None?
  }

  /** ... and after it. */
  function AfterFinish(a: Activation, next: Option<Time>, now: Time, r: Row): Row {
    if a.scheduled then
      if r.status.Scheduled? && r.mollieSub.None? then r.(mollieSub := Some(a.mollie), nextChargeAt := next) else r
    else if r.status.Incomplete? then
      r.(mollieSub := Some(a.mollie), status := Active, startedAt := Some(now), nextChargeAt := next)
    else r
  }

  function AfterFirst(w: World, f: FirstStep, i: SubId, r: Row): Row {
    match f
    case FirstBegins(p, _) => if IsFirst(w, p) && w.payments[p].sub == i then AfterBegin(w, w.payments[p].customer, r) else r
    case FirstFinishes(p, next) => if p in w.activating && w.activating[p].sub == i then AfterFinish(w.activating[p], next, w.now, r) else r
    case FirstTakesOver(_) => AfterTakeover(w, false, r)
    case FirstFails(p) =>
      if IsFirst(w, p) && w.payments[p].sub == i && (r.status.Incomplete? || (r.status.Scheduled? && r.mollieSub.None?))
      then r.(status := Canceled, canceledAt := Some(w.now)) else r
    case _ => r
  }

  function AfterCharge(w: World, c: ChargeStep, i: SubId, r: Row): Row {
    match c
    case ChargeTakesOver(_) => AfterTakeover(w, true, r)
    case RenewalFinishes(p, mollieDate) =>
      if p in w.renewing && w.renewing[p].Renewal? && w.renewing[p].sub == i && InForce(r) then
        var next := Calendar.RenewalNextCharge(mollieDate, w.renewing[p].previous, w.now);
        r.(status := Active, pastDueSince := None, nextChargeAt := if next.Some? then next else r.nextChargeAt)
      else r
    case ChargeFails(p) =>
      if IsCharge(w, p) && r.status.Active? && r.mollieSub == Some(w.payments[p].mollieSub)
      then r.(status := PastDue, pastDueSince := Some(w.now)) else r
    case MollieEnds(m, completed) =>
      if r.mollieSub != Some(m) then r
      else if completed && InForce(r) then r.(status := Expired, canceledAt := FirstDate(r.canceledAt, w.now))
      else if !completed && (InForce(r) || r.status.Scheduled?) then r.(status := Canceled, canceledAt := FirstDate(r.canceledAt, w.now))
      else r
    case _ => r
  }

  /** A cancel's update. */
  function AfterCancel(w: World, c: CancelStep, i: SubId, r: Row): Row {
    if !c.Updates? || c.c !in w.cancels || w.cancels[c.c].id != i then r
    else
      match w.cancels[c.c].kind
      case AtPeriodEnd => r.(canceledAt := FirstDate(r.canceledAt, w.now))
      case OfScheduled =>
        if r.status.Scheduled? then r.(status := Canceled, canceledAt := Some(w.now))
        else r.(canceledAt := FirstDate(r.canceledAt, w.now))
      case _ => r.(status := Canceled, canceledAt := FirstDate(r.canceledAt, w.now))
  }

  function AfterSweep(w: World, sweep: SweepStep, r: Row): Row {
    match sweep
    case TakesOver => AfterTakeover(w, false, r)
    case DropsPastDue =>
      if w.plan.Pro? && PastGrace(r, w.now) then r.(status := Expired, canceledAt := FirstDate(r.canceledAt, w.now)) else r
    case DropsLegacy => r
    case DropsEnded => if w.plan.Pro? && Over(r, w.now) && !SomeMandated(w) then r.(status := Expired) else r
  }

  function RowAfter(w: World, s: Step, i: SubId): Row
    requires i in w.subs
  {
    var r := w.subs[i];
    match s
    case Transfer(_, lastPaid) => AfterTransfer(r, lastPaid, w.now)
    case Checkouts(c) => AfterCheckout(w, c, r)
    case FirstPayments(f) => AfterFirst(w, f, i, r)
    case Charges(c) => AfterCharge(w, c, i, r)
    case Cancels(c) => AfterCancel(w, c, i, r)
    case Sweeps(sweep) => AfterSweep(w, sweep, r)
    case _ => r
  }

  // ----- Takeovers -----

  lemma SomeMayStartIsDue(w: World, charged: bool)
    ensures AnyDue(w, charged) <==> SomeMayStart(w, charged)
    ensures Uncancelled(w) <==> Paying(w)
    ensures HasIncomplete(w) <==> OpenCheckout(w)
  {
    if i :| i in w.subs && Due(w.subs[i], w.now, charged) { assert MayStartBy(w.subs[i], w.now, charged); }
    if i :| i in w.subs && Running(w.subs[i]) && w.subs[i].canceledAt.None? { assert InForce(w.subs[i]); }
  }

  lemma TakeoverRow(w: World, charged: bool, i: SubId)
    requires RowsOk(w) && i in w.subs
    ensures i in Promote(w, charged).subs && Promote(w, charged).subs[i] == AfterTakeover(w, charged, w.subs[i])
  {
    SomeMayStartIsDue(w, charged);
    match PromotionOf(w, charged)
    case NothingDue =>
    case IndexViolation =>
    case Superseded => SupersededRow(w, charged, i);
    case TookOver => TookOverRow(w, charged, i);
  }

  lemma SupersededRow(w: World, charged: bool, i: SubId)
    requires i in w.subs
    ensures i in Supersede(w, charged).subs
    ensures Supersede(w, charged).subs[i]
         == if MayStartBy(w.subs[i], w.now, charged) then w.subs[i].(status := Canceled, canceledAt := Some(w.now)) else w.subs[i]
  {
  }

  lemma TookOverRow(w: World, charged: bool, i: SubId)
    requires RowsOk(w) && i in w.subs && AnyDue(w, charged) && !Uncancelled(w)
    ensures i in TakeOver(w, charged).subs
    ensures var r := w.subs[i];
      TakeOver(w, charged).subs[i]
      == if InForce(r) then r.(status := Expired)
         else if MayStartBy(r, w.now, charged) then r.(status := Active, startedAt := Some(w.now)) else r
  {
    TakenRow(w, charged, i);
    assert RowOk(w.subs[i], w.now);
    assert InForce(w.subs[i]) ==> w.subs[i].canceledAt.Some?;
  }

  lemma TakenRow(w: World, charged: bool, i: SubId)
    requires i in w.subs && AnyDue(w, charged)
    ensures i in TakeOver(w, charged).subs && TakeOver(w, charged).subs[i] == TakeOverRow(w.subs[i], w.now, charged)
  {
  }

  // ----- Deliveries of first payments -----

  lemma RefusedRow(w: World, id: SubId, p: PaymentId, amount: nat)
    requires id in w.subs
    ensures var r, w' := w.subs[id], RefundFirst(CloseUnconfirmed(w, id), p, amount);
      && id in w'.subs
      && w'.subs[id] == if (r.status.Incomplete? || r.status.Scheduled?) && r.mollieSub.None?
                        then r.(status := Canceled, canceledAt := FirstDate(r.canceledAt, w.now)) else r
  {
    RefundRows(CloseUnconfirmed(w, id), p, amount);
    ClosedRow(w, id);
  }

  lemma ClosedRow(w: World, id: SubId)
    requires id in w.subs
    ensures var r, w' := w.subs[id], CloseUnconfirmed(w, id);
      && id in w'.subs
      && w'.subs[id] == if (r.status.Incomplete? || r.status.Scheduled?) && r.mollieSub.None?
                        then r.(status := Canceled, canceledAt := FirstDate(r.canceledAt, w.now)) else r
  {
    if Unconfirmed(w.subs[id]) {
    }
  }

  lemma ConflictIs(w: World)
    ensures Conflicting(w) <==> OpenUncancelled(w) || Paying(w)
  {
    if i :| i in w.subs && Live(w.subs[i]) && w.subs[i].canceledAt.None? {
      assert w.subs[i].status.Incomplete? || InForce(w.subs[i]);
    }
  }

  lemma OwnerPaysIs(w: World, r: Row, customer: Customer)
    ensures PayerIsOwner(w, r, customer) <==> OwnerPays(w, r, customer)
  {
    PayerMeans(w, r, customer);
  }

  lemma BeginRefusedRow(w: World, p: PaymentId, answer: Option<MollieSubId>)
    requires IsFirst(w, p) && w.payments[p].sub in w.subs
    requires var r := w.subs[w.payments[p].sub];
      r.mollieSub.Some? || (!r.status.Incomplete? && !r.status.Scheduled?) || !PayerIsOwner(w, r, w.payments[p].customer)
    ensures var w', r := BeginFirst(w, p, answer), w.subs[w.payments[p].sub];
      && w.payments[p].sub in w'.subs
      && w'.subs[w.payments[p].sub]
         == if r.mollieSub.None? && (r.status.Incomplete? || r.status.Scheduled?)
            then r.(status := Canceled, canceledAt := FirstDate(r.canceledAt, w.now)) else r
  {
    var f := w.payments[p];
    if w.subs[f.sub].mollieSub.Some? {
      MarkedRows(w, p, InvoicePaid);
    } else {
      RefusedRow(w, f.sub, p, f.amount);
    }
  }

  lemma BeginLetThroughRow(w: World, p: PaymentId, answer: Option<MollieSubId>)
    requires IsFirst(w, p) && w.payments[p].sub in w.subs
    requires var r := w.subs[w.payments[p].sub];
      r.mollieSub.None? && (r.status.Incomplete? || r.status.Scheduled?) && PayerIsOwner(w, r, w.payments[p].customer)
    ensures var w', r := BeginFirst(w, p, answer), w.subs[w.payments[p].sub];
      && w.payments[p].sub in w'.subs
      && w'.subs[w.payments[p].sub]
         == if r.status.Scheduled? && Conflicting(w) then r.(status := Canceled, canceledAt := Some(w.now)) else r
  {
    var i := w.payments[p].sub;
    if answer.Some? { StartActivationRows(w, p, i, answer.value, w.subs[i].status.Scheduled?); }
  }

  lemma BeginOwnRow(w: World, p: PaymentId, answer: Option<MollieSubId>)
    requires IsFirst(w, p) && w.payments[p].sub in w.subs
    ensures var w', i := BeginFirst(w, p, answer), w.payments[p].sub;
      i in w'.subs && w'.subs[i] == AfterBegin(w, w.payments[p].customer, w.subs[i])
  {
    var f := w.payments[p];
    var r := w.subs[f.sub];
    OwnerPaysIs(w, r, f.customer);
    ConflictIs(w);
    if r.mollieSub.Some? || (!r.status.Incomplete? && !r.status.Scheduled?) || !PayerIsOwner(w, r, f.customer) {
      BeginRefusedRow(w, p, answer);
    } else {
      BeginLetThroughRow(w, p, answer);
    }
  }

  lemma BeginRow(w: World, p: PaymentId, answer: Option<MollieSubId>, i: SubId)
    requires IsFirst(w, p) && i in w.subs
    ensures i in BeginFirst(w, p, answer).subs
    ensures BeginFirst(w, p, answer).subs[i] == AfterFirst(w, FirstBegins(p, answer), i, w.subs[i])
  {
    if w.payments[p].sub == i {
      BeginOwnRow(w, p, answer);
    } else {
      BeginFirstRows(w, p, answer);
    }
  }

  lemma FlipRow(w: World, p: PaymentId, id: SubId, mollie: MollieSubId, next: Option<Time>, i: SubId)
    requires RowsOk(w) && id in w.subs && i in w.subs && w.subs[id].status.Incomplete?
    ensures var w' := Flip(w, p, id, mollie, next);
      && i in w'.subs
      && w'.subs[i] == if i == id then w.subs[i].(mollieSub := Some(mollie), status := Active, startedAt := Some(w.now), nextChargeAt := next)
                       else w.subs[i]
  {
    assert RowOk(w.subs[id], w.now);
    FlippedRow(w, p, id, mollie, next, i);
  }

  lemma FlippedRow(w: World, p: PaymentId, id: SubId, mollie: MollieSubId, next: Option<Time>, i: SubId)
    requires id in w.subs && i in w.subs
    ensures var w', r := Flip(w, p, id, mollie, next), w.subs[i];
      && i in w'.subs
      && w'.subs[i] == if i == id then r.(mollieSub := Some(mollie), status := Active, startedAt := r.startedAt.Or(Some(w.now)), nextChargeAt := next)
                       else r
  {
    if p in w.invoices {
    }
  }

  lemma ConfirmRow(w: World, p: PaymentId, id: SubId, mollie: MollieSubId, next: Option<Time>, i: SubId)
    requires id in w.subs && i in w.subs
    ensures var w' := Confirm(w, p, id, mollie, next);
      i in w'.subs && w'.subs[i] == if i == id then w.subs[i].(mollieSub := Some(mollie), nextChargeAt := next) else w.subs[i]
  {
  }

  lemma AbandonRow(w: World, p: PaymentId, mollie: MollieSubId, amount: nat)
    ensures Abandon(w.(activating := w.activating - {p}), p, mollie, amount).subs == w.subs
  {
    RefundRows(w.(activating := w.activating - {p}, stopped := w.stopped + {mollie}), p, amount);
  }

  lemma FinishRow(w: World, p: PaymentId, next: Option<Time>, i: SubId)
    requires RowsOk(w) && IsFirst(w, p) && p in w.activating && i in w.subs
    ensures i in FinishFirst(w, p, next).subs
    ensures FinishFirst(w, p, next).subs[i] == AfterFirst(w, FirstFinishes(p, next), i, w.subs[i])
  {
    var a := w.activating[p];
    AbandonRow(w, p, a.mollie, w.payments[p].amount);
    if a.sub in w.subs {
      ConfirmRow(w, p, a.sub, a.mollie, next, i);
      if w.subs[a.sub].status.Incomplete? { FlipRow(w, p, a.sub, a.mollie, next, i); }
    }
  }

  lemma FirstRow(w: World, f: FirstStep, i: SubId)
    requires RowsOk(w) && FirstEnabled(w, f) && i in w.subs
    ensures i in ApplyFirst(w, f).subs && ApplyFirst(w, f).subs[i] == AfterFirst(w, f, i, w.subs[i])
  {
    match f
    case FirstSettles(_, _) =>
    case FirstBegins(p, answer) => BeginRow(w, p, answer, i);
    case FirstFinishes(p, next) => FinishRow(w, p, next, i);
    case FirstTakesOver(_) => TakeoverRow(w, false, i);
    case FirstCrashes(_) =>
    case FirstFails(p) => MarkedRows(w, p, InvoiceFailed);
  }

  // ----- Charges -----

  lemma FailedRow(w: World, p: PaymentId, i: SubId)
    requires MollieOk(w) && IsCharge(w, p) && i in w.subs
    ensures i in ChargeFailed(w, p).subs
    ensures ChargeFailed(w, p).subs[i] == AfterCharge(w, ChargeFails(p), i, w.subs[i])
  {
    var m := w.payments[p].mollieSub;
    if HasMollie(w, i, m) { OneRowOf(w, m, i); }
    MarkedRows(w.(subs := FailedRows(w.subs, m, w.now)), p, InvoiceFailed);
  }

  lemma RenewedRowIs(w: World, p: PaymentId, mollieDate: Option<Time>, i: SubId)
    requires p in w.renewing && w.renewing[p].Renewal? && i in w.subs
    ensures i in FinishRenewal(w, p, mollieDate).subs
    ensures FinishRenewal(w, p, mollieDate).subs[i] == AfterCharge(w, RenewalFinishes(p, mollieDate), i, w.subs[i])
  {
    if w.renewing[p].sub == i {
      RenewedOwnRow(w, p, mollieDate);
    } else if w.renewing[p].sub in w.subs {
    }
  }

  lemma RenewedOwnRow(w: World, p: PaymentId, mollieDate: Option<Time>)
    requires p in w.renewing && w.renewing[p].Renewal? && w.renewing[p].sub in w.subs
    ensures var i, next := w.renewing[p].sub, Calendar.RenewalNextCharge(mollieDate, w.renewing[p].previous, w.now);
      i in FinishRenewal(w, p, mollieDate).subs && FinishRenewal(w, p, mollieDate).subs[i] == RenewedRow(w.subs[i], next)
  {
  }

  lemma ChargeTakeoverRow(w: World, p: PaymentId, i: SubId)
    requires RowsOk(w) && i in w.subs
    ensures i in TakeOverCharged(w, p).subs && TakeOverCharged(w, p).subs[i] == AfterTakeover(w, true, w.subs[i])
  {
    TakeoverRow(CrashRenewal(w, p), true, i);
  }

  lemma ChargeRow(w: World, c: ChargeStep, i: SubId)
    requires RowsOk(w) && MollieOk(w) && ChargeEnabled(w, c) && i in w.subs
    ensures i in ApplyCharge(w, c).subs && ApplyCharge(w, c).subs[i] == AfterCharge(w, c, i, w.subs[i])
  {
    match c
    case MollieCharges(_, _) =>
    case ChargeSettles(_, _) =>
    case ChargeLoads(p) => LoadRows(w, p);
    case ChargeTakesOver(p) => ChargeTakeoverRow(w, p, i);
    case RenewalBegins(p) => RenewAnyRows(w, p);
    case RenewalFinishes(p, mollieDate) => RenewedRowIs(w, p, mollieDate, i);
    case RenewalCrashes(_) =>
    case ChargeFails(p) => FailedRow(w, p, i);
    case MollieEnds(_, _) =>
  }

  // ----- The rest -----

  lemma CancelRow(w: World, c: CancelStep, i: SubId)
    requires CancelEnabled(w, c) && i in w.subs
    ensures i in ApplyCancel(w, c).subs && ApplyCancel(w, c).subs[i] == AfterCancel(w, c, i, w.subs[i])
  {
    match c
    case Reads(_, _, _) =>
    case Asks(_) =>
    case Updates(_) =>
  }

  lemma DowngradedRow(w: World, ids: set<SubId>, i: SubId)
    requires i in w.subs
    ensures i in Downgrade(w, ids).subs
    ensures Downgrade(w, ids).subs[i]
         == if w.plan.Pro? && i in ids then w.subs[i].(status := Expired, canceledAt := FirstDate(w.subs[i].canceledAt, w.now)) else w.subs[i]
  {
    if w.plan.Pro? && ids != {} {
      ToFreeRows(ExpireAll(w, ids));
    }
  }

  lemma MandatedIsConfirmed(w: World)
    ensures HasConfirmed(w) <==> SomeMandated(w)
  {
    if i :| i in w.subs && Confirmed(w.subs[i]) { assert Mandated(w.subs[i]); }
  }

  lemma SweepRow(w: World, sweep: SweepStep, i: SubId)
    requires RowsOk(w) && i in w.subs
    ensures i in ApplySweep(w, sweep).subs && ApplySweep(w, sweep).subs[i] == AfterSweep(w, sweep, w.subs[i])
  {
    match sweep
    case TakesOver => TakeoverRow(w, false, i);
    case DropsPastDue => DowngradedRow(w, PastDueIds(w), i);
    case DropsLegacy => ToFreeRows(w);
    case DropsEnded =>
      DowngradedRow(w, EndedIds(w), i);
      MandatedIsConfirmed(w);
  }

  lemma CheckoutRow(w: World, c: CheckoutStep, i: SubId)
    requires RowsOk(w) && CheckoutEnabled(w, c) && i in w.subs && i in ApplyCheckout(w, c).subs
    ensures ApplyCheckout(w, c).subs[i] == AfterCheckout(w, c, w.subs[i])
  {
    match c
    case ClosesAbandoned =>
    case Inserts(_, _, _, _) =>
    case Schedules(_, _, _, _, _, _) =>
    case Pays(_, _) =>
    case Invoices(_) =>
    case RollsBack(_) =>
    case RollsBackScheduled(_) =>
    case ActivatesProject(_, _, _, _, _) =>
  }

  /** Whatever step is taken, every row that stays is what the table says. */
  lemma RowLives(w: World, s: Step, i: SubId)
    requires RowsOk(w) && MollieOk(w) && Enabled(w, s) && i in w.subs && i in Apply(w, s).subs
    ensures Apply(w, s).subs[i] == RowAfter(w, s, i)
  {
    match s
    case Tick(_) =>
    case SetCustomer(_, _) =>
    case SetComp(_) =>
    case Transfer(_, _) =>
    case Checkouts(c) => CheckoutRow(w, c, i);
    case FirstPayments(f) => FirstRow(w, f, i);
    case Charges(c) => ChargeRow(w, c, i);
    case Cancels(c) => CancelRow(w, c, i);
    case Sweeps(sweep) => SweepRow(w, sweep, i);
    case Stops(stop) => StopStepRows(w, stop);
  }

  // ----- Rows that come and go -----

  predicate Occupied(w: World) {
    exists j | j in w.subs :: w.subs[j].status.Incomplete? || InForce(w.subs[j])
  }

  predicate SomeScheduled(w: World) {
    exists j | j in w.subs :: w.subs[j].status.Scheduled?
  }

  /** The row a step inserts, under the next id: for the owner of an active project, and only when
      no other one is in its place. */
  function Inserted(w: World, s: Step): Option<Row> {
    match s
    case Checkouts(Inserts(user, customer, plan, price)) =>
      if w.owner == user && w.projectActive && !Occupied(w)
      then Some(Row(Incomplete, customer, plan, price, None, None, None, None, None, None, None)) else None
    case Checkouts(Schedules(user, customer, plan, price, startsAt, predecessor)) =>
      if w.owner == user && w.projectActive && !SomeScheduled(w)
      then Some(Row(Scheduled, customer, plan, price, Some(predecessor), Some(startsAt), None, None, None, None, None)) else None
    case Checkouts(ActivatesProject(_, customer, price, mollie, next)) =>
      Some(Row(Active, customer, Pro, price, None, None, mollie, Some(w.now), next, None, None))
    case _ => None
  }

  /** A rollback removes its checkout, as long as it is open and has no Mollie subscription. */
  predicate RolledBack(w: World, s: Step, i: SubId) {
    match s
    case Checkouts(RollsBack(id)) => id == i && i in w.subs && w.subs[i].status.Incomplete?
    case Checkouts(RollsBackScheduled(id)) => id == i && i in w.subs && w.subs[i].status.Scheduled? && w.subs[i].mollieSub.None?
    case _ => false
  }

  ghost predicate RowsComeAndGoBy(w: World, s: Step, w': World) {
    && (forall i :: i in w'.subs <==> (i in w.subs && !RolledBack(w, s, i)) || (Inserted(w, s).Some? && i == w.nextId))
    && (Inserted(w, s).Some? ==> w.nextId in w'.subs && w'.subs[w.nextId] == Inserted(w, s).value)
    && w'.nextId == w.nextId + if Inserted(w, s).Some? then 1 else 0
  }

  lemma OccupiedIs(w: World)
    ensures HasLive(w) <==> Occupied(w)
    ensures HasScheduled(w) <==> SomeScheduled(w)
  {
    if i :| i in w.subs && Live(w.subs[i]) { assert w.subs[i].status.Incomplete? || InForce(w.subs[i]); }
    if i :| i in w.subs && w.subs[i].status.Scheduled? { assert SomeScheduled(w); }
  }

  lemma SameKeysStay(w: World, s: Step, w': World)
    requires Inserted(w, s).None? && (forall i :: !RolledBack(w, s, i)) && w'.subs.Keys == w.subs.Keys && w'.nextId == w.nextId
    ensures RowsComeAndGoBy(w, s, w')
  {
  }

  lemma InsertsComes(w: World, user: UserId, customer: Customer, plan: Plan, price: nat)
    requires RowsOk(w)
    ensures RowsComeAndGoBy(w, Checkouts(Inserts(user, customer, plan, price)), InsertIncomplete(w, user, customer, plan, price))
  {
    OccupiedIs(w);
    if !MayCheckOut(w, user) || HasLive(w) {
    }
  }

  lemma SchedulesComes(w: World, user: UserId, customer: Customer, plan: Plan, price: nat, startsAt: Time, predecessor: SubId)
    requires RowsOk(w)
    ensures RowsComeAndGoBy(w, Checkouts(Schedules(user, customer, plan, price, startsAt, predecessor)),
                            InsertScheduled(w, user, customer, plan, price, startsAt, predecessor))
  {
    OccupiedIs(w);
    if !MayCheckOut(w, user) || HasScheduled(w) {
    }
  }

  lemma ActivatedComes(w: World, c: CheckoutStep)
    requires Inv(w) && CheckoutEnabled(w, c) && c.ActivatesProject?
    ensures RowsComeAndGoBy(w, Checkouts(c), ApplyCheckout(w, c))
  {
    ActivatedRow(w, c.p, c.customer, c.price, c.mollie, c.next);
  }

  lemma RollsBackGoes(w: World, id: SubId)
    ensures RowsComeAndGoBy(w, Checkouts(RollsBack(id)), RollbackIncomplete(w, id))
  {
    if id in w.subs && w.subs[id].status.Incomplete? {
      RemovedGoes(w, id, Checkouts(RollsBack(id)));
    } else {
      SameKeysStay(w, Checkouts(RollsBack(id)), w);
    }
  }

  lemma RollsBackScheduledGoes(w: World, id: SubId)
    ensures RowsComeAndGoBy(w, Checkouts(RollsBackScheduled(id)), RollbackScheduled(w, id))
  {
    if id in w.subs && w.subs[id].status.Scheduled? && w.subs[id].mollieSub.None? {
      RemovedGoes(w, id, Checkouts(RollsBackScheduled(id)));
    } else {
      SameKeysStay(w, Checkouts(RollsBackScheduled(id)), w);
    }
  }

  lemma RemovedGoes(w: World, id: SubId, s: Step)
    requires Inserted(w, s).None? && forall i :: RolledBack(w, s, i) <==> i == id
    ensures RowsComeAndGoBy(w, s, w.(subs := Remove(w.subs, id)))
  {
  }

  lemma CheckoutsComeAndGo(w: World, c: CheckoutStep)
    requires Inv(w) && CheckoutEnabled(w, c)
    ensures RowsComeAndGoBy(w, Checkouts(c), ApplyCheckout(w, c))
  {
    match c
    case ClosesAbandoned => SameKeysStay(w, Checkouts(c), CloseAbandoned(w));
    case Inserts(user, customer, plan, price) => InsertsComes(w, user, customer, plan, price);
    case Schedules(user, customer, plan, price, startsAt, predecessor) =>
      SchedulesComes(w, user, customer, plan, price, startsAt, predecessor);
    case Pays(_, _) => SameKeysStay(w, Checkouts(c), ApplyCheckout(w, c));
    case Invoices(_) => SameKeysStay(w, Checkouts(c), ApplyCheckout(w, c));
    case RollsBack(id) => RollsBackGoes(w, id);
    case RollsBackScheduled(id) => RollsBackScheduledGoes(w, id);
    case ActivatesProject(_, _, _, _, _) => ActivatedComes(w, c);
  }

  lemma OthersKeepRows(w: World, s: Step, i: SubId)
    requires RowsOk(w) && MollieOk(w) && Enabled(w, s) && !s.Checkouts? && i in w.subs
    ensures i in Apply(w, s).subs
  {
    match s
    case Tick(_) =>
    case SetCustomer(_, _) =>
    case SetComp(_) =>
    case Transfer(_, _) =>
    case FirstPayments(f) => FirstRow(w, f, i);
    case Charges(c) => ChargeRow(w, c, i);
    case Cancels(c) => CancelRow(w, c, i);
    case Sweeps(sweep) => SweepRow(w, sweep, i);
    case Stops(stop) => StopStepRows(w, stop);
  }

  /** Rows are inserted and removed exactly as the table says. */
  lemma RowsComeAndGo(w: World, s: Step)
    requires Inv(w) && Enabled(w, s)
    ensures RowsComeAndGoBy(w, s, Apply(w, s))
  {
    if s.Checkouts? {
      CheckoutsComeAndGo(w, s.checkout);
    } else {
      var w' := Apply(w, s);
      StepKeeps(w, s);
      OnlyCheckoutsInsert(w, s);
      forall i ensures i in w'.subs <==> i in w.subs {
        if i in w.subs { OthersKeepRows(w, s, i); }
      }
    }
  }

  // ----- The project's own columns -----

  /** The owner, the plan, the legacy grace and the date the Free plan counts from. */
  datatype Standing = Standing(owner: UserId, plan: Plan, graceUntil: Option<Time>, lastActiveAt: Time)

  function StandingOf(w: World): Standing {
    Standing(w.owner, w.plan, w.graceUntil, w.lastActiveAt)
  }

  /** What a drop to Free leaves of a Pro project. */
  function Dropped(w: World): Standing {
    StandingOf(w).(plan := Free, graceUntil := None, lastActiveAt := w.now)
  }

  ghost function StandingAfterTakeover(w: World, charged: bool): Standing {
    if !SomeMayStart(w, charged) || Paying(w) || OpenCheckout(w) || w.plan.Team? || w.plan.LegalTeam? then StandingOf(w)
    else
      var s :| s in w.subs && MayStartBy(w.subs[s], w.now, charged);
      StandingOf(w).(plan := w.subs[s].plan, graceUntil := None)
  }

  predicate DropsLegacyNow(w: World) {
    w.plan.Pro? && w.graceUntil.Some? && w.graceUntil.value < w.now && !CompRuns(w) && !Occupied(w)
  }

  ghost function StandingAfter(w: World, s: Step): Standing {
    match s
    case Transfer(newOwner, _) => StandingOf(w).(owner := newOwner)
    case FirstPayments(FirstFinishes(p, _)) =>
      if p in w.activating && !w.activating[p].scheduled && w.activating[p].sub in w.subs
         && w.subs[w.activating[p].sub].status.Incomplete?
      then StandingOf(w).(plan := w.subs[w.activating[p].sub].plan, graceUntil := None) else StandingOf(w)
    case FirstPayments(FirstTakesOver(_)) => StandingAfterTakeover(w, false)
    case Charges(ChargeTakesOver(_)) => StandingAfterTakeover(w, true)
    case Cancels(Updates(c)) =>
      if c in w.cancels && w.cancels[c].kind.Immediately? && w.plan.Pro? then Dropped(w) else StandingOf(w)
    case Sweeps(TakesOver) => StandingAfterTakeover(w, false)
    case Sweeps(DropsPastDue) =>
      if w.plan.Pro? && !CompRuns(w) && exists i | i in w.subs :: PastGrace(w.subs[i], w.now) then Dropped(w) else StandingOf(w)
    case Sweeps(DropsLegacy) => if DropsLegacyNow(w) then Dropped(w) else StandingOf(w)
    case Sweeps(DropsEnded) =>
      if w.plan.Pro? && !CompRuns(w) && !SomeMandated(w) && exists i | i in w.subs :: Over(w.subs[i], w.now)
      then Dropped(w) else StandingOf(w)
    case _ => StandingOf(w)
  }

  lemma TakeoverStanding(w: World, charged: bool)
    requires RowsOk(w)
    ensures StandingOf(Promote(w, charged)) == StandingAfterTakeover(w, charged)
  {
    SomeMayStartIsDue(w, charged);
    match PromotionOf(w, charged)
    case NothingDue =>
    case IndexViolation =>
    case Superseded =>
    case TookOver => TookOverStanding(w, charged);
  }

  lemma OneMayStart(w: World, charged: bool, s: SubId, t: SubId)
    requires RowsOk(w) && s in w.subs && t in w.subs
    requires MayStartBy(w.subs[s], w.now, charged) && MayStartBy(w.subs[t], w.now, charged)
    ensures s == t
  {
  }

  lemma TookOverStanding(w: World, charged: bool)
    requires RowsOk(w) && AnyDue(w, charged) && !Uncancelled(w) && !HasIncomplete(w)
    ensures StandingOf(TakeOver(w, charged)) == StandingAfterTakeover(w, charged)
  {
    SomeMayStartIsDue(w, charged);
    if !w.plan.Team? && !w.plan.LegalTeam? {
      var s :| s in w.subs && MayStartBy(w.subs[s], w.now, charged) && StandingAfterTakeover(w, charged).plan == w.subs[s].plan;
      var t :| t in w.subs && Due(w.subs[t], w.now, charged) && PlanAfter(w, charged) == w.subs[t].plan;
      OneMayStart(w, charged, s, t);
    }
  }

  lemma BeginStanding(w: World, p: PaymentId, answer: Option<MollieSubId>)
    requires IsFirst(w, p)
    ensures StandingOf(BeginFirst(w, p, answer)) == StandingOf(w)
  {
    var i := w.payments[p].sub;
    MarkStanding(w, p, InvoicePaid);
    RefuseStanding(w, i, p, w.payments[p].amount);
    if i in w.subs && answer.Some? {
      StartStanding(w, p, i, answer.value, w.subs[i].status.Scheduled?);
    }
  }

  lemma MarkStanding(w: World, p: PaymentId, status: InvoiceStatus)
    ensures StandingOf(MarkInvoice(w, p, status)) == StandingOf(w)
  {
  }

  lemma RefundStanding(w: World, p: PaymentId, amount: nat)
    ensures StandingOf(RefundFirst(w, p, amount)) == StandingOf(w)
  {
    MarkStanding(w.(refunds := w.refunds + {p}), p, Refunded);
  }

  lemma RefuseStanding(w: World, id: SubId, p: PaymentId, amount: nat)
    ensures StandingOf(RefundFirst(CloseUnconfirmed(w, id), p, amount)) == StandingOf(w)
  {
    RefundStanding(CloseUnconfirmed(w, id), p, amount);
  }

  lemma StartStanding(w: World, p: PaymentId, i: SubId, mollie: MollieSubId, scheduled: bool)
    ensures StandingOf(StartActivation(w, p, i, mollie, scheduled)) == StandingOf(w)
  {
  }

  lemma AbandonStanding(w: World, p: PaymentId, mollie: MollieSubId, amount: nat)
    ensures StandingOf(Abandon(w.(activating := w.activating - {p}), p, mollie, amount)) == StandingOf(w)
  {
    RefundStanding(w.(activating := w.activating - {p}, stopped := w.stopped + {mollie}), p, amount);
  }

  lemma FlipStanding(w: World, p: PaymentId, i: SubId, mollie: MollieSubId, next: Option<Time>)
    requires i in w.subs
    ensures StandingOf(Flip(w, p, i, mollie, next)) == StandingOf(w).(plan := w.subs[i].plan, graceUntil := None)
  {
    if p in w.invoices {
    }
  }

  lemma FinishStanding(w: World, p: PaymentId, next: Option<Time>)
    requires IsFirst(w, p) && p in w.activating
    ensures StandingOf(FinishFirst(w, p, next)) == StandingAfter(w, FirstPayments(FirstFinishes(p, next)))
  {
    var a := w.activating[p];
    AbandonStanding(w, p, a.mollie, w.payments[p].amount);
    if a.sub in w.subs && !a.scheduled {
      FlipStanding(w, p, a.sub, a.mollie, next);
    }
  }

  lemma FirstStanding(w: World, f: FirstStep)
    requires RowsOk(w) && FirstEnabled(w, f)
    ensures StandingOf(ApplyFirst(w, f)) == StandingAfter(w, FirstPayments(f))
  {
    match f
    case FirstSettles(_, _) =>
    case FirstBegins(p, answer) => BeginStanding(w, p, answer);
    case FirstFinishes(p, next) => FinishStanding(w, p, next);
    case FirstTakesOver(_) => TakeoverStanding(w, false);
    case FirstCrashes(_) =>
    case FirstFails(p) => MarkStanding(w, p, InvoiceFailed);
  }

  lemma RenewalStanding(w: World, p: PaymentId)
    requires IsCharge(w, p)
    ensures StandingOf(BeginRenewal(w, p)) == StandingOf(w)
  {
    if exists i :: HasMollie(w, i, w.payments[p].mollieSub) {
      RenewRowStanding(w, p, RowOf(w, w.payments[p].mollieSub));
    }
  }

  lemma RenewRowStanding(w: World, p: PaymentId, i: SubId)
    requires IsCharge(w, p) && i in w.subs
    ensures StandingOf(RenewRow(w, p, i)) == StandingOf(w)
  {
  }

  lemma RenewedStanding(w: World, p: PaymentId, mollieDate: Option<Time>)
    requires p in w.renewing && w.renewing[p].Renewal?
    ensures StandingOf(FinishRenewal(w, p, mollieDate)) == StandingOf(w)
  {
    if w.renewing[p].sub in w.subs {
    }
  }

  lemma ChargeTakeoverStanding(w: World, p: PaymentId)
    requires RowsOk(w)
    ensures StandingOf(TakeOverCharged(w, p)) == StandingAfterTakeover(w, true)
  {
    TakeoverStanding(CrashRenewal(w, p), true);
    SameTakeover(w, p);
  }

  /** A delivery's own bookkeeping has no part in a takeover. */
  lemma SameTakeover(w: World, p: PaymentId)
    requires RowsOk(w)
    ensures StandingAfterTakeover(CrashRenewal(w, p), true) == StandingAfterTakeover(w, true)
  {
    var w' := CrashRenewal(w, p);
    assert SomeMayStart(w', true) == SomeMayStart(w, true) && Paying(w') == Paying(w) && OpenCheckout(w') == OpenCheckout(w);
    if SomeMayStart(w, true) {
      var s :| s in w.subs && MayStartBy(w.subs[s], w.now, true);
      forall t | t in w.subs && MayStartBy(w.subs[t], w.now, true) ensures t == s {
        OneMayStart(w, true, s, t);
      }
    }
  }

  lemma ChargeStanding(w: World, c: ChargeStep)
    requires RowsOk(w) && ChargeEnabled(w, c)
    ensures StandingOf(ApplyCharge(w, c)) == StandingAfter(w, Charges(c))
  {
    match c
    case MollieCharges(_, _) =>
    case ChargeSettles(_, _) =>
    case ChargeLoads(_) =>
    case ChargeTakesOver(p) => ChargeTakeoverStanding(w, p);
    case RenewalBegins(p) => RenewalStanding(w, p);
    case RenewalFinishes(p, mollieDate) => RenewedStanding(w, p, mollieDate);
    case RenewalCrashes(_) =>
    case ChargeFails(p) => MarkStanding(w.(subs := FailedRows(w.subs, w.payments[p].mollieSub, w.now)), p, InvoiceFailed);
    case MollieEnds(_, _) =>
  }

  lemma DowngradeStanding(w: World, ids: set<SubId>)
    ensures StandingOf(Downgrade(w, ids)) == if w.plan.Pro? && !CompRuns(w) && ids != {} then Dropped(w) else StandingOf(w)
  {
  }

  lemma PastDueSome(w: World)
    ensures PastDueIds(w) != {} <==> exists i | i in w.subs :: PastGrace(w.subs[i], w.now)
  {
    if i :| i in w.subs && PastGrace(w.subs[i], w.now) {
      assert i in PastDueIds(w);
    } else {
      assert forall i: SubId :: i !in PastDueIds(w);
    }
  }

  lemma EndedSome(w: World)
    ensures EndedIds(w) != {} <==> !HasConfirmed(w) && exists i | i in w.subs :: Over(w.subs[i], w.now)
  {
    if HasConfirmed(w) {
    } else if i :| i in w.subs && Over(w.subs[i], w.now) {
      assert i in EndedIds(w);
    } else {
      assert forall i: SubId :: i !in EndedIds(w);
    }
  }

  lemma SweepStanding(w: World, sweep: SweepStep)
    requires RowsOk(w)
    ensures StandingOf(ApplySweep(w, sweep)) == StandingAfter(w, Sweeps(sweep))
  {
    match sweep
    case TakesOver => TakeoverStanding(w, false);
    case DropsPastDue =>
      DowngradeStanding(w, PastDueIds(w));
      PastDueSome(w);
    case DropsLegacy => OccupiedIs(w);
    case DropsEnded =>
      DowngradeStanding(w, EndedIds(w));
      MandatedIsConfirmed(w);
      EndedSome(w);
  }

  lemma CheckoutStanding(w: World, c: CheckoutStep)
    requires CheckoutEnabled(w, c)
    ensures StandingOf(ApplyCheckout(w, c)) == StandingOf(w)
  {
  }

  lemma TransferStanding(w: World, newOwner: UserId, lastPaid: Option<Time>)
    ensures StandingOf(HandOver(w, newOwner, lastPaid)) == StandingOf(w).(owner := newOwner)
  {
  }

  lemma StopStanding(w: World, stop: StopStep)
    ensures StandingOf(ApplyStop(w, stop)) == StandingOf(w)
  {
  }

  lemma CancelStanding(w: World, c: CancelStep)
    requires CancelEnabled(w, c)
    ensures StandingOf(ApplyCancel(w, c)) == StandingAfter(w, Cancels(c))
  {
  }

  /** ... and so are the project's owner, plan and grace. */
  lemma PlanLives(w: World, s: Step)
    requires RowsOk(w) && Enabled(w, s)
    ensures StandingOf(Apply(w, s)) == StandingAfter(w, s)
  {
    match s
    case Tick(_) =>
    case SetCustomer(_, _) =>
    case SetComp(_) =>
    case Transfer(newOwner, lastPaid) => TransferStanding(w, newOwner, lastPaid);
    case Checkouts(c) => CheckoutStanding(w, c);
    case FirstPayments(f) => FirstStanding(w, f);
    case Charges(c) => ChargeStanding(w, c);
    case Cancels(c) => CancelStanding(w, c);
    case Sweeps(sweep) => SweepStanding(w, sweep);
    case Stops(stop) => StopStanding(w, stop);
  }
}
