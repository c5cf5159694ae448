/** What every step of the billing protocol keeps, whoever takes it and in whatever order. */
module BillingInvariant {
  import opened Prelude
  import opened Billing

  // ----- Rows -----

  predicate NotAfter(t: Option<Time>, now: Time) {
    t.Some? ==> t.value <= now
  }

  predicate RowOk(r: Row, now: Time) {
    && (Closed(r) ==> r.canceledAt.Some?)
    && (!Closed(r) ==> (r.pastDueSince.Some? <==> r.status.PastDue?))
    && (r.status.Incomplete? ==> r.mollieSub.None? && r.startsAt.None? && r.startedAt.None?)
    && (r.status.Scheduled? ==> r.startsAt.Some? && r.startedAt.None? && r.predecessor.Some?)
    && (Running(r) ==> r.startedAt.Some?)
    && NotAfter(r.canceledAt, now)
    && NotAfter(r.pastDueSince, now)
  }

  /** How a row may change from time `now` on: closed is final, nothing becomes a checkout
      again, a cancel date is never cleared, only moves later and is never backdated, and a
      Mollie subscription or the known end of a started period is kept. */
  predicate Evolves(r: Row, r': Row, now: Time) {
    && r'.customer == r.customer && r'.plan == r.plan && r'.price == r.price
    && r'.predecessor == r.predecessor && r'.startsAt == r.startsAt
    && (Closed(r) ==> Closed(r'))
    && (r'.status.Incomplete? ==> r.status.Incomplete?)
    && (r'.status.Scheduled? ==> r.status.Scheduled?)
    && (r.canceledAt.Some? ==> r'.canceledAt.Some? && r.canceledAt.value <= r'.canceledAt.value)
    && (r.canceledAt.None? && r'.canceledAt.Some? ==> now <= r'.canceledAt.value)
    && (r.mollieSub.Some? ==> r'.mollieSub == r.mollieSub)
    && (r.startedAt.Some? ==> r'.startedAt == r.startedAt)
    && (r.startedAt.Some? && r.nextChargeAt.Some? ==> r'.nextChargeAt.Some?)
  }

  ghost predicate Follows(w: World, w': World) {
    && w.now <= w'.now && w.nextId <= w'.nextId
    && (forall i | i in w.subs && i in w'.subs :: Evolves(w.subs[i], w'.subs[i], w.now))
    && (forall i | i in w.subs && i !in w'.subs :: Unconfirmed(w.subs[i]))
    && (forall i | i in w'.subs && i !in w.subs :: w.nextId <= i)
  }

  // ----- The invariant -----

  predicate EachRowOk(subs: map<SubId, Row>, now: Time) {
    forall i | i in subs :: RowOk(subs[i], now)
  }

  ghost predicate RowsOk(w: World) {
    && (forall i | i in w.subs :: i < w.nextId)
    && EachRowOk(w.subs, w.now)
    && (forall i, j | i in w.subs && j in w.subs && Live(w.subs[i]) && Live(w.subs[j]) :: i == j)
    && (forall i, j | i in w.subs && j in w.subs && w.subs[i].status.Scheduled? && w.subs[j].status.Scheduled? :: i == j)
  }

  /** Rows carry the Mollie subscription created under their own idempotency key. */
  ghost predicate MollieOk(w: World) {
    && (forall i | i in w.created :: i < w.nextId)
    && (forall i | i in w.subs && w.subs[i].mollieSub.Some? :: i in w.created && w.created[i] == w.subs[i].mollieSub.value)
    && (forall i, j | i in w.created && j in w.created && w.created[i] == w.created[j] :: i == j)
  }

  /** A project that ever had a subscription is past its legacy grace; a scheduled
      subscription follows one that started. */
  ghost predicate GraceOk(w: World) {
    && (forall i | i in w.subs && w.subs[i].startedAt.Some? :: w.graceUntil.None?)
    && (forall i | i in w.subs && w.subs[i].status.Scheduled? && w.subs[i].predecessor.Some? ::
          w.subs[i].predecessor.value in w.subs && w.subs[w.subs[i].predecessor.value].startedAt.Some?)
  }

  predicate ChargedBeforeCancel(r: Row, createdAt: Time) {
    r.canceledAt.Some? ==> createdAt <= r.canceledAt.value
  }

  /** Recurring invoices, and renewals in flight, are for charges made before the cancel. */
  ghost predicate ChargesOk(w: World) {
    && (forall p | p in w.payments && w.payments[p].Charge? :: w.payments[p].createdAt <= w.now)
    && (forall p | p in w.renewing ::
          && p in w.payments && w.payments[p].Charge?
          && HasMollie(w, w.renewing[p].sub, w.payments[p].mollieSub)
          && (w.renewing[p].Renewal? ==> ChargedBeforeCancel(w.subs[w.renewing[p].sub], w.payments[p].createdAt)))
    && (forall p | p in w.invoices :: p in w.payments)
    && (forall p | p in w.invoices && w.payments[p].Charge? ::
          && HasMollie(w, w.invoices[p].sub, w.payments[p].mollieSub)
          && ChargedBeforeCancel(w.subs[w.invoices[p].sub], w.payments[p].createdAt))
  }

  /** A first payment and its checkout. */
  predicate FirstOk(w: World, p: PaymentId)
    requires p in w.payments && w.payments[p].First?
  {
    var f := w.payments[p];
    && f.sub < w.nextId
    && (p in w.refunds || p in w.activating ==> f.state.Paid?)
    && (p in w.activating ==>
          && p !in w.refunds
          && w.activating[p].sub == f.sub && f.sub in w.created && w.created[f.sub] == w.activating[p].mollie)
    && (p in w.invoices ==> f.sub in w.subs && w.subs[f.sub].startsAt.None? && w.invoices[p].sub == f.sub)
    && (f.sub in w.subs ==>
          var r := w.subs[f.sub];
          && (Running(r) ==> r.mollieSub.Some?)
          && (r.mollieSub.Some? ==>
                && f.state.Paid? && p !in w.refunds && p !in w.activating
                && (p in w.invoices ==> w.invoices[p].status.InvoicePaid?))
          && (p in w.refunds ==> Closed(r) && (p in w.invoices ==> w.invoices[p].status.Refunded?))
          && (p in w.activating ==> (w.activating[p].scheduled <==> r.startsAt.Some?)))
  }

  /** No two first payments of one checkout, and only first payments are activated. */
  ghost predicate FirstsDistinct(w: World) {
    && (forall p, q | p in w.payments && q in w.payments && w.payments[p].First? && w.payments[q].First?
                      && w.payments[p].sub == w.payments[q].sub :: p == q)
    && (forall p | p in w.activating :: p in w.payments && w.payments[p].First?)
  }

  ghost predicate FirstsOk(w: World) {
    FirstsDistinct(w) && forall p | p in w.payments && w.payments[p].First? :: FirstOk(w, p)
  }

  ghost predicate Inv(w: World) {
    RowsOk(w) && MollieOk(w) && GraceOk(w) && ChargesOk(w) && FirstsOk(w)
  }

  // ----- Steps that only let rows progress -----

  /** A row that evolves without becoming live or scheduled or gaining a Mollie subscription. */
  predicate Quiet(r: Row, r': Row, now: Time) {
    && Evolves(r, r', now) && RowOk(r', now)
    && (Live(r') ==> Live(r)) && (Running(r') ==> Running(r))
    && r'.mollieSub == r.mollieSub
    && (r.startedAt.None? ==> r'.startedAt.None?)
  }

  /** Everything a quiet step leaves alone. */
  predicate SameDeliveries(w: World, w': World) {
    && w'.now == w.now && w'.nextId == w.nextId && w'.payments == w.payments && w'.created == w.created
    && w'.activating == w.activating && w'.renewing == w.renewing
    && w.stopped <= w'.stopped
    && (w'.graceUntil == w.graceUntil || w'.graceUntil.None?)
  }

  predicate QuietSubs(subs: map<SubId, Row>, subs': map<SubId, Row>, now: Time) {
    subs'.Keys == subs.Keys && forall i | i in subs :: Quiet(subs[i], subs'[i], now)
  }

  ghost predicate QuietRows(w: World, w': World) {
    QuietSubs(w.subs, w'.subs, w.now)
  }

  lemma QuietRowsKept(w: World, w': World)
    requires RowsOk(w) && MollieOk(w) && GraceOk(w) && SameDeliveries(w, w') && QuietRows(w, w')
    ensures RowsOk(w') && MollieOk(w') && GraceOk(w') && Follows(w, w')
  {
    forall i | i in w'.subs && w'.subs[i].status.Scheduled? && w'.subs[i].predecessor.Some?
      ensures w'.subs[i].predecessor.value in w'.subs && w'.subs[w'.subs[i].predecessor.value].startedAt.Some?
    {
      var q := w.subs[i].predecessor.value;
      assert Quiet(w.subs[i], w'.subs[i], w.now) && q in w.subs && Quiet(w.subs[q], w'.subs[q], w.now);
    }
  }

  lemma QuietChargesKept(w: World, w': World)
    requires ChargesOk(w) && SameDeliveries(w, w') && QuietRows(w, w')
    requires w'.invoices == w.invoices
    ensures ChargesOk(w')
  {
  }

  lemma QuietFirstKept(w: World, w': World, p: PaymentId)
    requires p in w.payments && w.payments[p].First? && FirstOk(w, p)
    requires SameDeliveries(w, w') && QuietRows(w, w')
    requires w'.invoices == w.invoices && w'.refunds == w.refunds
    ensures FirstOk(w', p)
  {
    var i := w.payments[p].sub;
    if i in w.subs {
      assert Quiet(w.subs[i], w'.subs[i], w.now);
    }
  }

  lemma QuietKeeps(w: World, w': World)
    requires Inv(w) && SameDeliveries(w, w') && QuietRows(w, w')
    requires w'.invoices == w.invoices && w'.refunds == w.refunds
    ensures Inv(w') && Follows(w, w')
  {
    QuietRowsKept(w, w');
    QuietChargesKept(w, w');
    forall p | p in w'.payments && w'.payments[p].First? ensures FirstOk(w', p) {
      QuietFirstKept(w, w', p);
    }
  }
}
