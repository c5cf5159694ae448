/** The steps about payments, invoices and deliveries, each shown to keep the invariant. */
module BillingPayments {
  import opened Prelude
  import opened Billing
  import opened BillingInvariant
  import opened BillingFrames
  import opened BillingQuiet
  import opened BillingKept

  /** The rows, the project and Mollie's subscriptions stay as they are. */
  predicate SameRows(w: World, w': World) {
    && w'.subs == w.subs && w'.now == w.now && w'.nextId == w.nextId
    && w'.graceUntil == w.graceUntil
    && w'.created == w.created
  }

  lemma SameRowsKept(w: World, w': World)
    requires RowsPart(w) && SameRows(w, w')
    ensures RowsPart(w') && Follows(w, w') && RowsEvolve(w, w')
  {
    SameEvolve(w);
  }

  // ----- Invoices and refunds -----

  /** Only the invoice and the refund of `p` may change. */
  ghost predicate OnlyInvoice(w: World, w': World, p: PaymentId) {
    && w' == w.(invoices := w'.invoices, refunds := w'.refunds, stopped := w'.stopped)
    && w.stopped <= w'.stopped
    && (forall q | q != p :: q in w'.refunds <==> q in w.refunds)
    && (forall q | q != p && q in w.invoices :: q in w'.invoices && w'.invoices[q] == w.invoices[q])
    && (forall q | q != p && q in w'.invoices :: q in w.invoices)
    && (p in w.invoices ==> p in w'.invoices && w'.invoices[p].sub == w.invoices[p].sub)
  }

  lemma OnlyInvoiceKeeps(w: World, w': World, p: PaymentId)
    requires Inv(w) && OnlyInvoice(w, w', p) && p in w.payments
    requires w.payments[p].First? ==> FirstOk(w', p)
    requires p in w'.invoices && p !in w.invoices ==> !w.payments[p].Charge?
    ensures Kept(w, w')
  {
    SameRowsKept(w, w');
    ChargesKept(w, w');
    forall q | q in w.payments && w.payments[q].First? ensures FirstOk(w', q) {
      assert q != p ==> SameFirst(w, w', q);
      if q != p { FirstKept(w, w', q); }
    }
  }

  lemma MarkOnlyInvoice(w: World, p: PaymentId, status: InvoiceStatus)
    ensures OnlyInvoice(w, MarkInvoice(w, p, status), p)
  {
  }

  lemma RefundOnlyInvoice(w: World, p: PaymentId, amount: nat)
    requires amount != 0
    ensures var w' := RefundFirst(w, p, amount);
      && OnlyInvoice(w, w', p)
      && p in w'.refunds && (p in w'.invoices ==> p in w.invoices && w'.invoices[p].status.Refunded?)
  {
  }

  lemma RefundedFirstOk(w: World, p: PaymentId, w': World)
    requires p in w.payments && w.payments[p].First? && FirstOk(w, p) && OnlyInvoice(w, w', p)
    requires w.payments[p].state.Paid? && p !in w.activating
    requires w.payments[p].sub in w.subs ==> Closed(w.subs[w.payments[p].sub]) && w.subs[w.payments[p].sub].mollieSub.None?
    requires p in w'.refunds && (p in w'.invoices ==> p in w.invoices && w'.invoices[p].status.Refunded?)
    ensures FirstOk(w', p)
  {
  }

  lemma RefundFirstKeeps(w: World, p: PaymentId)
    requires Inv(w) && p in w.payments && w.payments[p].First?
    requires w.payments[p].state.Paid? && p !in w.activating
    requires w.payments[p].sub in w.subs ==> Closed(w.subs[w.payments[p].sub]) && w.subs[w.payments[p].sub].mollieSub.None?
    ensures Kept(w, RefundFirst(w, p, w.payments[p].amount))
  {
    if w.payments[p].amount == 0 {
      NothingKeeps(w);
    } else {
      var w' := RefundFirst(w, p, w.payments[p].amount);
      RefundOnlyInvoice(w, p, w.payments[p].amount);
      RefundedFirstOk(w, p, w');
      OnlyInvoiceKeeps(w, w', p);
    }
  }

  lemma InvoiceFirstKeeps(w: World, p: PaymentId)
    requires Inv(w) && p in w.payments && w.payments[p].First? && p !in w.invoices
    requires w.payments[p].state.Open?
    requires w.payments[p].sub in w.subs && w.subs[w.payments[p].sub].startsAt.None?
    ensures Kept(w, w.(invoices := w.invoices[p := Invoice(w.payments[p].sub, w.subs[w.payments[p].sub].price, Pending, None)]))
  {
    var w' := w.(invoices := w.invoices[p := Invoice(w.payments[p].sub, w.subs[w.payments[p].sub].price, Pending, None)]);
    assert FirstOk(w, p);
    OnlyInvoiceKeeps(w, w', p);
  }

  /** A first payment's invoice may be marked anything until its checkout has a Mollie
      subscription or its refund was requested; after activation, paid. */
  lemma MarkFirstKeeps(w: World, p: PaymentId, status: InvoiceStatus)
    requires Inv(w) && p in w.payments && w.payments[p].First? && p !in w.refunds
    requires status.InvoicePaid? || w.payments[p].state.Failed?
    ensures Kept(w, MarkInvoice(w, p, status))
  {
    assert FirstOk(w, p);
    MarkOnlyInvoice(w, p, status);
    OnlyInvoiceKeeps(w, MarkInvoice(w, p, status), p);
  }

  lemma MarkChargeKeeps(w: World, p: PaymentId, status: InvoiceStatus)
    requires Inv(w) && p in w.payments && w.payments[p].Charge?
    ensures Kept(w, MarkInvoice(w, p, status))
  {
    MarkOnlyInvoice(w, p, status);
    OnlyInvoiceKeeps(w, MarkInvoice(w, p, status), p);
  }

  lemma RefundChargeKeeps(w: World, p: PaymentId, m: MollieSubId)
    requires Inv(w) && p in w.payments && w.payments[p].Charge?
    ensures Kept(w, w.(refunds := w.refunds + {p}, stopped := w.stopped + {m}))
  {
    OnlyInvoiceKeeps(w, w.(refunds := w.refunds + {p}, stopped := w.stopped + {m}), p);
  }

  // ----- Payments at Mollie -----

  /** A new payment, or the next state of one. */
  lemma PaymentKeeps(w: World, w': World, p: PaymentId, x: Payment)
    requires Inv(w) && w' == w.(payments := w.payments[p := x])
    requires x.First? ==> FirstOk(w', p)
    requires if p in w.payments then
               match x
               case First(i, _, _, _) => w.payments[p].First? && w.payments[p].sub == i
               case Charge(m, t, _) => w.payments[p].Charge? && w.payments[p].mollieSub == m && w.payments[p].createdAt == t
               case NewProject => w.payments[p].NewProject?
             else
               && p !in w.invoices && p !in w.activating && p !in w.renewing
               && (x.Charge? ==> x.createdAt <= w.now)
               && (x.First? ==> forall q | q in w.payments && w.payments[q].First? :: w.payments[q].sub != x.sub)
    ensures Kept(w, w')
  {
    SameRowsKept(w, w');
    PaymentChargesKept(w, w', p);
    PaymentFirstsKept(w, w', p);
  }

  lemma PaymentFirstsKept(w: World, w': World, p: PaymentId)
    requires FirstsOk(w) && w' == w.(payments := w'.payments) && p in w'.payments && FirstsDistinct(w')
    requires forall q | q != p && q in w'.payments :: q in w.payments && w'.payments[q] == w.payments[q]
    requires w'.payments[p].First? ==> FirstOk(w', p)
    ensures FirstsOk(w')
  {
    forall q | q in w'.payments && w'.payments[q].First? ensures FirstOk(w', q) {
      if q != p {
        assert SameFirst(w, w', q);
        FirstKept(w, w', q);
      }
    }
  }

  lemma PaymentChargesKept(w: World, w': World, p: PaymentId)
    requires ChargesOk(w) && w' == w.(payments := w'.payments) && p in w'.payments
    requires forall q | q != p :: q in w'.payments <==> q in w.payments
    requires forall q | q in w.payments && q != p :: w'.payments[q] == w.payments[q]
    requires var x := w'.payments[p];
             if p in w.payments then
               (x.Charge? <==> w.payments[p].Charge?)
               && (x.Charge? ==> x.mollieSub == w.payments[p].mollieSub && x.createdAt == w.payments[p].createdAt)
             else p !in w.invoices && p !in w.renewing && (x.Charge? ==> x.createdAt <= w.now)
    ensures ChargesOk(w')
  {
    assert forall i, m :: HasMollie(w', i, m) <==> HasMollie(w, i, m);
  }

  lemma PaysKeeps(w: World, p: PaymentId, id: SubId, customer: Customer, amount: nat)
    requires Inv(w) && p !in w.payments && p !in w.invoices && p !in w.refunds && p !in w.activating && p !in w.renewing
    requires id in w.subs && w.subs[id].startedAt.None? && w.subs[id].mollieSub.None?
    requires forall q | q in w.payments && w.payments[q].First? :: w.payments[q].sub != id
    ensures Kept(w, w.(payments := w.payments[p := First(id, customer, amount, Open)]))
  {
    assert RowOk(w.subs[id], w.now);
    PaymentKeeps(w, w.(payments := w.payments[p := First(id, customer, amount, Open)]), p, First(id, customer, amount, Open));
  }

  lemma FirstSettlesKeeps(w: World, p: PaymentId, state: PaymentState)
    requires Inv(w) && p in w.payments && w.payments[p].First? && w.payments[p].state.Open?
    ensures var f := w.payments[p];
      Kept(w, w.(payments := w.payments[p := First(f.sub, f.customer, f.amount, state)]))
  {
    var f := w.payments[p];
    var x := First(f.sub, f.customer, f.amount, state);
    assert FirstOk(w, p);
    PaymentKeeps(w, w.(payments := w.payments[p := x]), p, x);
  }

  lemma ChargeStateKeeps(w: World, p: PaymentId, m: MollieSubId, createdAt: Time, state: PaymentState)
    requires Inv(w) && createdAt <= w.now
    requires if p in w.payments then w.payments[p].Charge? && w.payments[p].mollieSub == m && w.payments[p].createdAt == createdAt
             else p !in w.invoices && p !in w.activating && p !in w.renewing
    ensures Kept(w, w.(payments := w.payments[p := Charge(m, createdAt, state)]))
  {
    PaymentKeeps(w, w.(payments := w.payments[p := Charge(m, createdAt, state)]), p, Charge(m, createdAt, state));
  }
}
