/** What a step may change without touching one part of the invariant. */
module BillingFrames {
  import opened Prelude
  import opened Billing
  import opened BillingInvariant

  /** Every row that has a Mollie subscription stays, with it, and only evolves. */
  ghost predicate RowsEvolve(w: World, w': World) {
    && w.now <= w'.now
    && forall i | i in w.subs ::
         if i in w'.subs then Evolves(w.subs[i], w'.subs[i], w.now) else w.subs[i].mollieSub.None?
  }

  /** No other row has this Mollie subscription. */
  lemma OneRowOf(w: World, m: MollieSubId, i: SubId)
    requires MollieOk(w) && HasMollie(w, i, m)
    ensures forall j | HasMollie(w, j, m) :: j == i
  {
    forall j | HasMollie(w, j, m) ensures j == i {
      assert w.created[i] == m && w.created[j] == m;
    }
  }

  // ----- Charges -----

  ghost predicate SameCharges(w: World, w': World) {
    && (forall p | p in w.payments :: p in w'.payments)
    && (forall p | p in w'.payments && w'.payments[p].Charge? ::
          p in w.payments && w.payments[p].Charge?
          && w'.payments[p].mollieSub == w.payments[p].mollieSub && w'.payments[p].createdAt == w.payments[p].createdAt)
    && (forall p | p in w.payments && w.payments[p].Charge? :: w'.payments[p].Charge?)
    && (forall p | p in w'.renewing :: p in w.renewing && w'.renewing[p] == w.renewing[p])
    && (forall p | p in w'.invoices ::
          p in w'.payments
          && if p in w.invoices then w'.invoices[p].sub == w.invoices[p].sub else !w'.payments[p].Charge?)
  }

  lemma MollieKept(w: World, w': World, i: SubId, m: MollieSubId)
    requires RowsEvolve(w, w') && HasMollie(w, i, m)
    ensures HasMollie(w', i, m)
  {
    assert i in w'.subs && Evolves(w.subs[i], w'.subs[i], w.now);
  }

  lemma ChargeKept(w: World, w': World, i: SubId, m: MollieSubId, createdAt: Time)
    requires RowsEvolve(w, w') && HasMollie(w, i, m) && createdAt <= w.now
    requires ChargedBeforeCancel(w.subs[i], createdAt)
    ensures HasMollie(w', i, m) && ChargedBeforeCancel(w'.subs[i], createdAt)
  {
    assert i in w'.subs && Evolves(w.subs[i], w'.subs[i], w.now);
  }

  lemma ChargesKept(w: World, w': World)
    requires ChargesOk(w) && RowsEvolve(w, w') && SameCharges(w, w')
    ensures ChargesOk(w')
  {
    forall p | p in w'.renewing
      ensures p in w'.payments && w'.payments[p].Charge?
      ensures HasMollie(w', w'.renewing[p].sub, w'.payments[p].mollieSub)
      ensures w'.renewing[p].Renewal? ==> ChargedBeforeCancel(w'.subs[w'.renewing[p].sub], w'.payments[p].createdAt)
    {
      MollieKept(w, w', w.renewing[p].sub, w.payments[p].mollieSub);
      if w.renewing[p].Renewal? {
        ChargeKept(w, w', w.renewing[p].sub, w.payments[p].mollieSub, w.payments[p].createdAt);
      }
    }
    forall p | p in w'.invoices && w'.payments[p].Charge?
      ensures HasMollie(w', w'.invoices[p].sub, w'.payments[p].mollieSub)
      ensures ChargedBeforeCancel(w'.subs[w'.invoices[p].sub], w'.payments[p].createdAt)
    {
      ChargeKept(w, w', w.invoices[p].sub, w.payments[p].mollieSub, w.payments[p].createdAt);
    }
  }

  /** Only rows and the clock change, and Mollie subscriptions may be stopped. */
  predicate SameTables(w: World, w': World) {
    && w'.payments == w.payments && w'.invoices == w.invoices && w'.refunds == w.refunds
    && w'.created == w.created && w'.activating == w.activating && w'.renewing == w.renewing
    && w'.cancels == w.cancels && w.stopped <= w'.stopped && w.nextId <= w'.nextId
  }

  // ----- First payments -----

  /** A first payment no part of the step is about. */
  predicate SameFirst(w: World, w': World, p: PaymentId)
    requires p in w.payments && w.payments[p].First?
  {
    var i := w.payments[p].sub;
    && p in w'.payments && w'.payments[p] == w.payments[p]
    && w.nextId <= w'.nextId
    && (p in w'.refunds <==> p in w.refunds)
    && (if p in w.invoices then p in w'.invoices && w'.invoices[p] == w.invoices[p] else p !in w'.invoices)
    && (if p in w.activating then p in w'.activating && w'.activating[p] == w.activating[p] else p !in w'.activating)
    && (if i in w.created then i in w'.created && w'.created[i] == w.created[i] else true)
    && (i in w'.subs <==> i in w.subs)
    && (i in w.subs ==>
          && w'.subs[i].mollieSub == w.subs[i].mollieSub
          && w'.subs[i].startsAt == w.subs[i].startsAt
          && (Closed(w.subs[i]) ==> Closed(w'.subs[i]))
          && (Running(w'.subs[i]) ==> Running(w.subs[i]) || w.subs[i].mollieSub.Some?))
  }

  lemma FirstKept(w: World, w': World, p: PaymentId)
    requires p in w.payments && w.payments[p].First? && FirstOk(w, p) && SameFirst(w, w', p)
    ensures FirstOk(w', p)
  {
  }

  /** All first payments but those of `id`. */
  lemma FirstsKept(w: World, w': World, id: SubId)
    requires FirstsOk(w) && FirstsDistinct(w')
    requires forall p | p in w'.payments && w'.payments[p].First? ::
      if w'.payments[p].sub == id then FirstOk(w', p)
      else p in w.payments && w.payments[p].First? && SameFirst(w, w', p)
    ensures FirstsOk(w')
  {
    forall p | p in w'.payments && w'.payments[p].First? ensures FirstOk(w', p) {
      if w'.payments[p].sub != id {
        FirstKept(w, w', p);
      }
    }
  }

  lemma FirstsSame(w: World, w': World)
    requires FirstsOk(w) && w'.payments == w.payments && w'.activating == w.activating
    requires forall p | p in w.payments && w.payments[p].First? :: SameFirst(w, w', p)
    ensures FirstsOk(w')
  {
    forall p | p in w'.payments && w'.payments[p].First? ensures FirstOk(w', p) {
      FirstKept(w, w', p);
    }
  }

  // ----- Rows -----

  lemma EvolvesTransitive(r: Row, r': Row, r'': Row, now: Time, now': Time)
    requires Evolves(r, r', now) && Evolves(r', r'', now') && now <= now'
    ensures Evolves(r, r'', now)
  {
  }

  lemma FollowsTransitive(w: World, w': World, w'': World)
    requires RowsOk(w) && Follows(w, w') && Follows(w', w'')
    ensures Follows(w, w'')
  {
    forall i | i in w.subs && i in w''.subs ensures Evolves(w.subs[i], w''.subs[i], w.now) {
      assert i in w'.subs;
      EvolvesTransitive(w.subs[i], w'.subs[i], w''.subs[i], w.now, w'.now);
    }
    forall i | i in w.subs && i !in w''.subs ensures Unconfirmed(w.subs[i]) {
      assert i in w'.subs ==> Unconfirmed(w'.subs[i]);
    }
  }

  lemma FollowsEvolve(w: World, w': World)
    requires Follows(w, w')
    ensures RowsEvolve(w, w')
  {
  }
}
