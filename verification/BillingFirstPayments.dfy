/** How a paid first payment ends: its checkout activated, or closed with the refund requested. */
module BillingFirstPayments {
  import opened Prelude
  import opened Billing
  import opened BillingInvariant
  import opened BillingFrames
  import opened BillingKept
  import opened BillingDeliveries
  import opened BillingSteps
  import opened BillingHistory
  import opened BillingBooks
  import opened BillingTrace

  /** A payment of a checkout whose row and invoice exist. */
  predicate Tracked(w: World, p: PaymentId) {
    && IsFirst(w, p) && w.payments[p].state.Paid? && w.payments[p].amount > 0
    && w.payments[p].sub in w.subs && p in w.invoices
  }

  /** The row got its Mollie subscription and the invoice is paid; nothing is refunded. */
  predicate Activated(w: World, p: PaymentId) {
    Tracked(w, p) &&
    w.subs[w.payments[p].sub].mollieSub.Some? && w.invoices[p].status.InvoicePaid? && p !in w.refunds
  }

  /** The row was closed without a Mollie subscription and the refund requested. */
  predicate GivenBack(w: World, p: PaymentId) {
    Tracked(w, p) &&
    var r := w.subs[w.payments[p].sub];
    Closed(r) && r.mollieSub.None? && p in w.refunds && w.invoices[p].status.Refunded?
  }

  lemma MarkedKeepsRows(w: World, p: PaymentId, status: InvoiceStatus)
    ensures MarkInvoice(w, p, status) == w.(invoices := MarkInvoice(w, p, status).invoices)
    ensures p in w.invoices ==> p in MarkInvoice(w, p, status).invoices && MarkInvoice(w, p, status).invoices[p].status == status
  {
  }

  /** A delivery, up to its Mollie call: the payment is settled for good, or the call was made
      and the delivery goes on, or it failed and nothing changed. */
  lemma BeginOutcome(w: World, p: PaymentId, answer: Option<MollieSubId>)
    requires Inv(w) && Tracked(w, p) && p !in w.activating && Answers(w, w.payments[p].sub, answer)
    ensures var w' := BeginFirst(w, p, answer);
      && Tracked(w', p)
      && (Activated(w', p) || GivenBack(w', p) || p in w'.activating || (answer.None? && w' == w))
  {
    assert FirstOk(w, p);
    var f := w.payments[p];
    var r := w.subs[f.sub];
    assert RowOk(r, w.now);
    MarkedKeepsRows(w, p, InvoicePaid);
    if r.mollieSub.Some? {
    } else if (!r.status.Incomplete? && !r.status.Scheduled?) || !PayerIsOwner(w, r, f.customer) {
      RefusedIsGivenBack(w, p);
    } else if answer.Some? {
    }
  }

  lemma RefusedIsGivenBack(w: World, p: PaymentId)
    requires Tracked(w, p) && w.subs[w.payments[p].sub].mollieSub.None?
    requires !Running(w.subs[w.payments[p].sub])
    ensures GivenBack(RefundFirst(CloseUnconfirmed(w, w.payments[p].sub), p, w.payments[p].amount), p)
  {
    var w1 := CloseUnconfirmed(w, w.payments[p].sub);
    MarkedKeepsRows(w1.(refunds := w1.refunds + {p}), p, Refunded);
  }

  /** The checkout is still open, the payer is the customer it was started for and the owner's
      own (or nobody's, for an owner without one), and a scheduled checkout has no uncancelled
      live subscription beside it. */
  predicate MayStart(w: World, p: PaymentId) {
    && IsFirst(w, p) && w.payments[p].sub in w.subs
    && var r, customer := w.subs[w.payments[p].sub], w.payments[p].customer;
       && Unconfirmed(r) && r.customer == customer
       && (if w.owner in w.customerOf
           then w.customerOf[w.owner] == customer && forall u | u in w.customerOf && u < w.owner :: w.customerOf[u] != customer
           else forall u | u in w.customerOf :: w.customerOf[u] != customer)
       && (r.status.Scheduled? ==> forall i | i in w.subs && Live(w.subs[i]) :: w.subs[i].canceledAt.Some?)
  }

  /** Exactly then is Mollie asked for a subscription. */
  lemma StartsExactlyWhen(w: World, p: PaymentId, m: MollieSubId)
    requires Inv(w) && IsFirst(w, p) && p !in w.activating && w.payments[p].sub in w.subs
    ensures p in BeginFirst(w, p, Some(m)).activating <==> MayStart(w, p)
  {
    var r, customer := w.subs[w.payments[p].sub], w.payments[p].customer;
    MayStartMeans(w, p);
    if r.mollieSub.Some? {
      MarkBooks(w, p, InvoicePaid);
    } else if !Unconfirmed(r) || !PayerIsOwner(w, r, customer) {
      RefuseBooks(w, w.payments[p].sub, p, w.payments[p].amount);
    } else if r.status.Scheduled? && Conflicting(w) {
    }
  }

  lemma MayStartMeans(w: World, p: PaymentId)
    requires RowsOk(w) && IsFirst(w, p) && w.payments[p].sub in w.subs
    ensures var r := w.subs[w.payments[p].sub];
      MayStart(w, p) <==>
        Unconfirmed(r) && PayerIsOwner(w, r, w.payments[p].customer) && !(r.status.Scheduled? && Conflicting(w))
  {
    PayerMeans(w, w.subs[w.payments[p].sub], w.payments[p].customer);
    ConflictMeans(w);
  }

  lemma ConflictMeans(w: World)
    ensures Conflicting(w) <==> !(forall i | i in w.subs && Live(w.subs[i]) :: w.subs[i].canceledAt.Some?)
  {
    if !(forall i | i in w.subs && Live(w.subs[i]) :: w.subs[i].canceledAt.Some?) {
      var i :| i in w.subs && Live(w.subs[i]) && !w.subs[i].canceledAt.Some?;
    }
  }

  lemma PayerMeans(w: World, r: Row, customer: Customer)
    ensures PayerIsOwner(w, r, customer) <==>
      && r.customer == customer
      && (if w.owner in w.customerOf
          then w.customerOf[w.owner] == customer && forall u | u in w.customerOf && u < w.owner :: w.customerOf[u] != customer
          else forall u | u in w.customerOf :: w.customerOf[u] != customer)
  {
  }

  /** What the delivery does after its Mollie call, whatever happened in between: it activates
      a checkout that is still open, in one transaction with the invoice and the plan, and
      otherwise stops the new Mollie subscription and gives the money back. */
  lemma FinishOutcome(w: World, p: PaymentId, next: Option<Time>)
    requires Inv(w) && Tracked(w, p) && p in w.activating
    ensures var w', i := FinishFirst(w, p, next), w.payments[p].sub;
      && Tracked(w', p) && p !in w'.activating
      && (if w.subs[i].status.Incomplete? then
            && Activated(w', p)
            && w'.subs[i].status.Active? && w'.subs[i].mollieSub == Some(w.activating[p].mollie)
            && w'.subs[i].nextChargeAt == next && w'.plan == w.subs[i].plan && w'.graceUntil.None?
            && w'.stopped == w.stopped && w'.refunds == w.refunds
          else
            && GivenBack(w', p) && w.activating[p].mollie in w'.stopped
            && w'.subs == w.subs && w'.plan == w.plan)
  {
    assert FirstOk(w, p);
    var a := w.activating[p];
    var r := w.subs[a.sub];
    assert RowOk(r, w.now);
    if r.status.Incomplete? {
    } else {
      var w1 := w.(activating := w.activating - {p}, stopped := w.stopped + {a.mollie});
      MarkedKeepsRows(w1.(refunds := w1.refunds + {p}), p, Refunded);
    }
  }

  /** A delivery whose work is done leaves the payment activated or given back. */
  lemma DeliverySettles(w: World, f: FirstStep, w': World, p: PaymentId)
    requires Inv(w) && Tracked(w, p) && FirstEnabled(w, f) && f.p == p && w' == ApplyFirst(w, f)
    requires f.FirstFinishes? || (f.FirstBegins? && f.answer.Some?)
    requires p !in w'.activating
    ensures Activated(w', p) || GivenBack(w', p)
  {
    match f
    case FirstBegins(_, answer) => BeginOutcome(w, p, answer);
    case FirstFinishes(_, next) => FinishOutcome(w, p, next);
  }

  /** Both ends are final: no later step, redelivery included, turns one into the other. */
  lemma StaysSettled(w: World, w': World, p: PaymentId)
    requires Sound(w) && Sound(w') && Later(w, w') && IsFirst(w, p)
    ensures Activated(w, p) ==> Activated(w', p)
    ensures GivenBack(w, p) ==> GivenBack(w', p)
    ensures !(Activated(w', p) && GivenBack(w', p))
  {
    assert SamePayment(w.payments[p], w'.payments[p]);
    assert FirstOk(w, p) && FirstOk(w', p);
    var i := w.payments[p].sub;
    assert i in w.subs && i in w'.subs ==> Evolves(w.subs[i], w'.subs[i], w.now);
  }

  /** Over a whole run: whenever a delivery of a tracked payment has done its work, from then on
      the payment is either activated or given back, for good, and never both. */
  lemma FirstPaymentEnds(ws: seq<World>, steps: seq<Step>, k: nat, j: nat, f: FirstStep, p: PaymentId)
    requires IsRun(ws, steps) && Sound(ws[0]) && k < j <= |steps| && Tracked(ws[k], p)
    requires steps[k] == FirstPayments(f) && f.p == p
    requires f.FirstFinishes? || (f.FirstBegins? && f.answer.Some?)
    requires p !in ws[k + 1].activating
    ensures Activated(ws[j], p) || GivenBack(ws[j], p)
    ensures !(Activated(ws[j], p) && GivenBack(ws[j], p))
    ensures Activated(ws[j], p) <==> Activated(ws[k + 1], p)
  {
    RunKeeps(ws, steps, k, k);
    RunKeeps(ws, steps, k + 1, j);
    DeliverySettles(ws[k], f, ws[k + 1], p);
    StaysSettled(ws[k + 1], ws[j], p);
  }

  /** A redelivery of a payment that was given back changes nothing; one of an activated
      payment at most fills in the invoice's payment time. */
  lemma RedeliveryIsHarmless(w: World, p: PaymentId, answer: Option<MollieSubId>)
    requires Inv(w) && Tracked(w, p) && (Activated(w, p) || GivenBack(w, p))
    ensures var w' := BeginFirst(w, p, answer);
      && (GivenBack(w, p) ==> w' == w)
      && (Activated(w, p) ==> w' == w || w' == w.(invoices := w.invoices[p := w.invoices[p].(paidAt := w.invoices[p].paidAt.Or(Some(w.now)))]))
  {
    if GivenBack(w, p) {
      var w' := RefundFirst(CloseUnconfirmed(w, w.payments[p].sub), p, w.payments[p].amount);
      assert w'.refunds == w.refunds;
      assert w'.invoices == w.invoices;
    }
  }
}
