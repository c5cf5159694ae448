/** Whole runs: any interleaving of the actors, from a project that never had a subscription. */
module BillingTrace {
  import Calendar
  import opened Runs
  import opened Prelude
  import opened Billing
  import opened BillingInvariant
  import opened BillingFrames
  import opened BillingKept
  import opened BillingDeliveries
  import opened BillingSteps
  import opened BillingRuns
  import opened BillingHistory

  /** `ws[k + 1]` is what step `k` makes of `ws[k]`. */
  ghost predicate IsRun(ws: seq<World>, steps: seq<Step>) {
    |ws| == |steps| + 1
    && forall k | 0 <= k < |steps| :: Enabled(ws[k], steps[k]) && ws[k + 1] == Apply(ws[k], steps[k])
  }

  ghost predicate Sound(w: World) {
    Inv(w) && PaidPlans(w)
  }

  /** A project without billing history, on any plan and with or without a legacy grace. */
  predicate NeverBilled(w: World) {
    w.subs == map[] && w.invoices == map[] && w.payments == map[] && w.created == map[] && w.stopped == {}
    && w.refunds == {} && w.activating == map[] && w.renewing == map[] && w.owed == multiset{} && w.cancels == map[]
  }

  lemma NeverBilledSound(w: World)
    requires NeverBilled(w)
    ensures Sound(w)
  {
  }

  ghost predicate Later(w: World, w': World) {
    Follows(w, w') && Accumulates(w, w')
  }

  lemma AccumulatesTransitive(w: World, w': World, w'': World)
    requires Accumulates(w, w') && Accumulates(w', w'')
    ensures Accumulates(w, w'')
  {
    forall p | p in w.payments ensures p in w''.payments && SamePayment(w.payments[p], w''.payments[p]) {
      assert SamePayment(w.payments[p], w'.payments[p]) && SamePayment(w'.payments[p], w''.payments[p]);
    }
    forall c | c in w.cancels ensures c in w''.cancels && SameRequest(w.cancels[c], w''.cancels[c]) {
      assert SameRequest(w.cancels[c], w'.cancels[c]) && SameRequest(w'.cancels[c], w''.cancels[c]);
    }
  }

  lemma AccumulatesItself(w: World)
    ensures Accumulates(w, w)
  {
  }

  lemma SameRowsFollow(w: World)
    requires EachRowOk(w.subs, w.now)
    ensures Follows(w, w)
  {
  }

  lemma LaterTransitive(w: World, w': World, w'': World)
    requires Sound(w) && Later(w, w') && Later(w', w'')
    ensures Later(w, w'')
  {
    FollowsTransitive(w, w', w'');
    AccumulatesTransitive(w, w', w'');
  }

  lemma LaterItself(w: World)
    requires Sound(w)
    ensures Later(w, w)
  {
    SameRowsFollow(w);
    AccumulatesItself(w);
  }

  lemma StepSound(w: World, s: Step)
    requires Sound(w) && Enabled(w, s)
    ensures Sound(Apply(w, s)) && Later(w, Apply(w, s))
  {
    StepKeeps(w, s);
    StepKeepsPlans(w, s);
    StepAccumulates(w, s);
  }

  /** The invariant holds at every moment of a run, and later moments only go on from earlier ones. */
  lemma RunKeeps(ws: seq<World>, steps: seq<Step>, a: nat, b: nat)
    requires IsRun(ws, steps) && Sound(ws[0]) && a <= b <= |steps|
    ensures Sound(ws[a]) && Sound(ws[b]) && Later(ws[a], ws[b])
  {
    var ok := (w: World) => Sound(w);
    var rel := (w: World, w': World) => Later(w, w');
    forall k: nat | k + 1 < |ws| && ok(ws[k]) ensures ok(ws[k + 1]) && rel(ws[k], ws[k + 1]) {
      StepSound(ws[k], steps[k]);
    }
    forall w | ok(w) ensures rel(w, w) {
      LaterItself(w);
    }
    forall w, w', w'' | ok(w) && rel(w, w') && rel(w', w'') ensures rel(w, w'') {
      LaterTransitive(w, w', w'');
    }
    Along(ws, ok, rel, a, b);
  }

  // ----- What every run keeps -----

  /** At every moment of a run: at most one live and one scheduled row, every closed row has
      its cancel date, and on open rows past_due_since is set exactly when past due. */
  lemma RowsAtEveryMoment(ws: seq<World>, steps: seq<Step>, k: nat, i: SubId, j: SubId)
    requires IsRun(ws, steps) && Sound(ws[0]) && k <= |steps| && i in ws[k].subs && j in ws[k].subs
    ensures var r, q := ws[k].subs[i], ws[k].subs[j];
      && (Live(r) && Live(q) ==> i == j)
      && (r.status.Scheduled? && q.status.Scheduled? ==> i == j)
      && (r.mollieSub.Some? && r.mollieSub == q.mollieSub ==> i == j)
      && (Closed(r) ==> r.canceledAt.Some? && r.canceledAt.value <= ws[k].now)
      && (!Closed(r) ==> (r.pastDueSince.Some? <==> r.status.PastDue?))
      && (r.status.Incomplete? ==> r.mollieSub.None?)
  {
    RunKeeps(ws, steps, k, k);
    assert RowOk(ws[k].subs[i], ws[k].now) && RowOk(ws[k].subs[j], ws[k].now);
  }

  /** Between any two moments: closed rows stay closed, a cancel date is never cleared, only
      moves later and is never backdated, a row keeps its Mollie subscription, and only
      checkouts nobody paid for disappear. */
  lemma RowsBetweenMoments(ws: seq<World>, steps: seq<Step>, a: nat, b: nat, i: SubId)
    requires IsRun(ws, steps) && Sound(ws[0]) && a <= b <= |steps| && i in ws[a].subs
    ensures i !in ws[b].subs ==> Unconfirmed(ws[a].subs[i])
    ensures i in ws[b].subs ==>
      var r, r' := ws[a].subs[i], ws[b].subs[i];
      && r'.plan == r.plan && r'.price == r.price && r'.customer == r.customer
      && (Closed(r) ==> Closed(r'))
      && (Running(r) ==> !r'.status.Incomplete? && !r'.status.Scheduled?)
      && (r.canceledAt.Some? ==> r'.canceledAt.Some? && r.canceledAt.value <= r'.canceledAt.value)
      && (r.canceledAt.None? && r'.canceledAt.Some? ==> ws[a].now <= r'.canceledAt.value)
      && (r.mollieSub.Some? ==> r'.mollieSub == r.mollieSub)
  {
    RunKeeps(ws, steps, a, b);
    assert i in ws[b].subs ==> Evolves(ws[a].subs[i], ws[b].subs[i], ws[a].now);
  }

  // ----- Charges after a cancel -----

  /** No recurring invoice is for a charge Mollie created after its subscription was cancelled,
      and no later cancel date makes it one. */
  lemma NoInvoiceAfterCancel(ws: seq<World>, steps: seq<Step>, a: nat, b: nat, p: PaymentId)
    requires IsRun(ws, steps) && Sound(ws[0]) && a <= b <= |steps|
    requires p in ws[a].invoices && IsCharge(ws[a], p)
    ensures IsCharge(ws[b], p) && p in ws[b].invoices && ws[b].invoices[p].sub == ws[a].invoices[p].sub
    ensures var i := ws[b].invoices[p].sub;
      && HasMollie(ws[b], i, ws[b].payments[p].mollieSub)
      && (ws[b].subs[i].canceledAt.Some? ==> ws[b].payments[p].createdAt <= ws[b].subs[i].canceledAt.value)
  {
    RunKeeps(ws, steps, a, b);
    assert SamePayment(ws[a].payments[p], ws[b].payments[p]);
    assert ChargedBeforeCancel(ws[b].subs[ws[b].invoices[p].sub], ws[b].payments[p].createdAt);
  }

  /** The other side: the delivery of a paid charge of a subscription that has started is refused,
      refunded and its subscription stopped again exactly when the charge was created after the
      cancel; otherwise it goes on to its transaction. */
  lemma RenewalDecides(w: World, p: PaymentId, i: SubId, w': World)
    requires Sound(w) && IsCharge(w, p) && p !in w.renewing && HasMollie(w, i, w.payments[p].mollieSub)
    requires !w.subs[i].status.Scheduled? && w' == BeginRenewal(w, p)
    ensures var r := w.subs[i];
      p in w'.renewing <==> !(r.canceledAt.Some? && w.payments[p].createdAt > r.canceledAt.value)
    ensures if p in w'.renewing
      then w'.refunds == w.refunds && w'.renewing[p] == Renewal(i, w.subs[i].nextChargeAt)
      else p in w'.refunds && w.payments[p].mollieSub in w'.stopped && w'.invoices == w.invoices
  {
    BeginRenewalIs(w, p, i);
    RenewRowDecides(w, p, i);
  }

  lemma BeginRenewalIs(w: World, p: PaymentId, i: SubId)
    requires MollieOk(w) && IsCharge(w, p) && HasMollie(w, i, w.payments[p].mollieSub) && !w.subs[i].status.Scheduled?
    ensures BeginRenewal(w, p) == RenewRow(w, p, i)
  {
    var m := w.payments[p].mollieSub;
    OneRowOf(w, m, i);
    assert RowOf(w, m) == i;
    assert !ScheduledFor(w, m);
  }

  lemma RenewRowDecides(w: World, p: PaymentId, i: SubId)
    requires IsCharge(w, p) && p !in w.renewing && i in w.subs
    ensures var r, w' := w.subs[i], RenewRow(w, p, i);
      if r.canceledAt.Some? && w.payments[p].createdAt > r.canceledAt.value
      then p !in w'.renewing && p in w'.refunds && w.payments[p].mollieSub in w'.stopped && w'.invoices == w.invoices
      else p in w'.renewing && w'.refunds == w.refunds && w'.renewing[p] == Renewal(i, r.nextChargeAt)
  {
    if w.subs[i].canceledAt.Some? && w.payments[p].createdAt > w.subs[i].canceledAt.value {
    }
  }

  /** What the renewal's transaction records: one paid invoice for the payment, however often it
      is delivered, and the row active again until Mollie's date, or a month (28 to 31 days)
      after a date that has come, or the date still ahead; nothing else. */
  lemma RenewalRecords(w: World, p: PaymentId, mollieDate: Option<Time>, w': World)
    requires Inv(w) && p in w.renewing && w.renewing[p].Renewal? && w' == FinishRenewal(w, p, mollieDate)
    ensures var i := w.renewing[p].sub; i in w.subs && w'.subs == w.subs[i := w'.subs[i]]
    ensures w'.renewing == w.renewing - {p}
    ensures w'.invoices.Keys == w.invoices.Keys + {p} && forall q | q in w.invoices :: w'.invoices[q] == w.invoices[q]
    ensures p !in w.invoices ==>
      w'.invoices[p] == Invoice(w.renewing[p].sub, w.subs[w.renewing[p].sub].price, InvoicePaid, Some(w.now))
    ensures var r, r', previous := w.subs[w.renewing[p].sub], w'.subs[w.renewing[p].sub], w.renewing[p].previous;
      if !Running(r) then r' == r
      else
        && r'.status.Active? && r'.pastDueSince.None? && r'.canceledAt == r.canceledAt
        && (mollieDate.Some? ==> r'.nextChargeAt == mollieDate)
        && (mollieDate.None? && previous.Some? && previous.value > w.now ==> r'.nextChargeAt == previous)
        && (mollieDate.None? && previous.Some? && previous.value <= w.now ==>
              r'.nextChargeAt.Some? && 28 * 24 * HOUR <= r'.nextChargeAt.value - previous.value <= 31 * 24 * HOUR)
        && (mollieDate.None? && previous.None? ==> r'.nextChargeAt == r.nextChargeAt)
  {
    assert HasMollie(w, w.renewing[p].sub, w.payments[p].mollieSub);
    if w.renewing[p].previous.Some? {
      Calendar.AddMonthDistance(w.renewing[p].previous.value);
    }
  }
}
