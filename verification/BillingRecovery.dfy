/** What becomes of a Mollie subscription created for a checkout, deliveries that die included. */
module BillingRecovery {
  import opened Prelude
  import opened Runs
  import opened Billing
  import opened BillingInvariant
  import opened BillingDeliveries
  import opened BillingSteps
  import opened BillingHistory
  import opened BillingTakeover
  import opened BillingBooks
  import opened BillingTrace
  import opened BillingStops
  import opened BillingFirstPayments

  predicate InFlight(w: World, i: SubId) {
    exists p :: p in w.activating && w.activating[p].sub == i
  }

  // ----- Accounting -----

  /** On its row, told to stop, or in the hands of a delivery that is still going on. */
  predicate Accounted(w: World, i: SubId)
    requires i in w.created
  {
    HasMollie(w, i, w.created[i]) || w.created[i] in w.stopped || InFlight(w, i)
  }

  /** A delivery of checkout `i` dies between creating its Mollie subscription and recording it. */
  predicate Crashes(w: World, s: Step, i: SubId) {
    && s.FirstPayments? && s.first.FirstCrashes? && s.first.p in w.activating && w.activating[s.first.p].sub == i
  }

  lemma ConfirmRecords(w: World, p: PaymentId, i: SubId, m: MollieSubId, next: Option<Time>)
    requires i in w.subs
    ensures HasMollie(Confirm(w, p, i, m, next), i, m)
  {
  }

  lemma FlipRecords(w: World, p: PaymentId, i: SubId, m: MollieSubId, next: Option<Time>)
    requires i in w.subs
    ensures HasMollie(Flip(w, p, i, m, next), i, m)
  {
    if p in w.invoices {
    }
  }

  /** A delivery that finishes has recorded its Mollie subscription or stopped it. */
  lemma FinishAccounts(w: World, p: PaymentId, next: Option<Time>)
    requires IsFirst(w, p) && p in w.activating
    ensures var a, w' := w.activating[p], FinishFirst(w, p, next);
      if Abandons(w, p) then a.mollie in w'.stopped else HasMollie(w', a.sub, a.mollie)
  {
    var a := w.activating[p];
    if Abandons(w, p) {
      AbandonBooks(w, p, a.mollie, w.payments[p].amount);
    } else if a.scheduled {
      ConfirmRecords(w, p, a.sub, a.mollie, next);
    } else {
      FlipRecords(w, p, a.sub, a.mollie, next);
    }
  }

  lemma StepAccounts(w: World, s: Step, i: SubId)
    requires Sound(w) && Enabled(w, s) && i in Apply(w, s).created
    requires i in w.created ==> Accounted(w, i) && !Crashes(w, s, i)
    ensures Accounted(Apply(w, s), i)
  {
    var w' := Apply(w, s);
    StepSound(w, s);
    StepAsks(w, s);
    if i in w.created {
      if HasMollie(w, i, w.created[i]) {
        StillHasMollie(w, w', i, w.created[i]);
      } else if w.created[i] !in w.stopped {
        var p :| p in w.activating && w.activating[p].sub == i;
        FlightAccounts(w, s, i, p);
      }
    }
  }

  lemma FlightAccounts(w: World, s: Step, i: SubId, p: PaymentId)
    requires Sound(w) && Enabled(w, s) && i in w.created && i in Apply(w, s).created
    requires p in w.activating && w.activating[p].sub == i && !Crashes(w, s, i)
    ensures Accounted(Apply(w, s), i)
  {
    var w' := Apply(w, s);
    StepAsks(w, s);
    assert FirstOk(w, p);
    if s.FirstPayments? && s.first.FirstFinishes? && s.first.p == p {
      FinishAccounts(w, p, s.first.next);
    } else {
      assert p in w'.activating;
      assert !Starts(w, s, p);
    }
  }

  ghost predicate CrashedBefore(ws: seq<World>, steps: seq<Step>, n: nat, i: SubId)
    requires |ws| == |steps| + 1 && n <= |steps|
  {
    exists k: nat :: k < n && Crashes(ws[k], steps[k], i)
  }

  /** At every moment of a run from a project never billed, every Mollie subscription created for
      a checkout is accounted for, unless a delivery of that checkout died in between. */
  lemma CreatedIsAccountedFor(ws: seq<World>, steps: seq<Step>, n: nat, i: SubId)
    requires IsRun(ws, steps) && NeverBilled(ws[0]) && n <= |steps| && i in ws[n].created
    ensures Accounted(ws[n], i) || CrashedBefore(ws, steps, n, i)
  {
    var ok := (w: World) => i in w.created ==> Accounted(w, i);
    var fires := (k: nat) => k < |steps| && Crashes(ws[k], steps[k], i);
    forall k: nat | k + 1 < |ws| && ok(ws[k]) ensures if fires(k) then true else ok(ws[k + 1]) {
      RunKeepsRequests(ws, steps, k);
      if i in ws[k + 1].created && !fires(k) {
        StepAccounts(ws[k], steps[k], i);
      }
    }
    Until(ws, ok, (w: World) => true, fires, 0, n);
    if j: nat :| 0 <= j < n && fires(j) {
      assert Crashes(ws[j], steps[j], i);
    }
  }

  // ----- Off every row -----

  /** Created for a checkout that is closed or gone, on no row, and nobody is about to record or
      to stop it. */
  ghost predicate OffRows(w: World, i: SubId, m: MollieSubId) {
    && i in w.created && w.created[i] == m && !InFlight(w, i)
    && (i in w.subs ==> Closed(w.subs[i]))
    && (forall j :: !HasMollie(w, j, m)) && m !in w.owed
  }

  lemma OffRowsIsNotFlown(w: World, s: Step, i: SubId, m: MollieSubId)
    requires Sound(w) && Enabled(w, s) && OffRows(w, i, m)
    ensures !InFlight(Apply(w, s), i)
  {
    var w' := Apply(w, s);
    StepSound(w, s);
    StepAsks(w, s);
    forall p | p in w'.activating ensures w'.activating[p].sub != i {
      if p in w.activating && w'.activating[p] == w.activating[p] {
        assert InFlight(w, w.activating[p].sub);
      } else {
        assert Starts(w, s, p) && FirstOk(w', p) && SamePayment(w.payments[p], w'.payments[p]);
      }
    }
  }

  lemma OffRowsGetsNoRow(w: World, s: Step, i: SubId, m: MollieSubId, j: SubId)
    requires Sound(w) && Enabled(w, s) && OffRows(w, i, m)
    ensures !HasMollie(Apply(w, s), j, m)
  {
    var w' := Apply(w, s);
    StepSound(w, s);
    StepAsks(w, s);
    assert w'.created[i] == m;
    if HasMollie(w', j, m) {
      OneCreated(w', i, j, m);
      NotRecorded(w, s, w', i, m);
    }
  }

  lemma OneCreated(w: World, i: SubId, j: SubId, m: MollieSubId)
    requires MollieOk(w) && i in w.created && w.created[i] == m && HasMollie(w, j, m)
    ensures j == i
  {
  }

  lemma NotRecorded(w: World, s: Step, w': World, i: SubId, m: MollieSubId)
    requires Inv(w) && OffRows(w, i, m) && Enabled(w, s) && StepBooks(w, s, w') && Follows(w, w')
    ensures !HasMollie(w', i, m)
  {
    assert !Records(w, s, i) && !HasMollie(w, i, m);
    assert i < w.nextId;
  }

  lemma OffRowsIsNotAsked(w: World, s: Step, i: SubId, m: MollieSubId)
    requires Sound(w) && RequestsOk(w) && Enabled(w, s) && OffRows(w, i, m)
    ensures m in AskedBy(w, s) <==> s.Charges? && s.charge.MollieEnds? && s.charge.m == m
  {
    match s
    case Tick(_) =>
    case SetCustomer(_, _) =>
    case SetComp(_) =>
    case Transfer(_, _) =>
    case Checkouts(_) =>
    case FirstPayments(f) =>
      if f.FirstFinishes? {
        assert FirstOk(w, f.p);
        assert InFlight(w, w.activating[f.p].sub);
      }
    case Charges(_) =>
    case Cancels(c) =>
      if c.Asks? { assert RequestOk(w, c.c); }
    case Sweeps(_) =>
      assert forall ids: set<SubId>, j | j in ids && j in w.subs :: !HasMollie(w, j, m);
    case Stops(_) =>
  }

  lemma OffRowsIsNotOwed(w: World, s: Step, i: SubId, m: MollieSubId)
    requires OffRows(w, i, m)
    ensures m !in OwedBy(w, s)
  {
    if m in OwedBy(w, s) {
      var j := OwedIsOpen(w, s, m);
    }
  }

  lemma OffRowsStays(w: World, s: Step, i: SubId, m: MollieSubId)
    requires Sound(w) && RequestsOk(w) && Enabled(w, s) && OffRows(w, i, m)
    ensures OffRows(Apply(w, s), i, m)
  {
    var w' := Apply(w, s);
    StepSound(w, s);
    StepAsks(w, s);
    OffRowsIsNotFlown(w, s, i, m);
    forall j ensures !HasMollie(w', j, m) {
      OffRowsGetsNoRow(w, s, i, m, j);
    }
    OffRowsIsNotOwed(w, s, i, m);
    if i in w'.subs {
      assert i < w.nextId && i in w.subs && Evolves(w.subs[i], w'.subs[i], w.now);
    }
  }

  /** Step `j` is Mollie's own report that `m` ended. */
  predicate ReportsEnd(steps: seq<Step>, j: nat, m: MollieSubId) {
    j < |steps| && steps[j].Charges? && steps[j].charge.MollieEnds? && steps[j].charge.m == m
  }

  lemma OffRowsFrom(ws: seq<World>, steps: seq<Step>, a: nat, n: nat, i: SubId, m: MollieSubId)
    requires IsRun(ws, steps) && NeverBilled(ws[0]) && a <= n <= |steps| && OffRows(ws[a], i, m)
    ensures OffRows(ws[n], i, m)
  {
    forall k: nat | k + 1 < |ws| && OffRows(ws[k], i, m) ensures OffRows(ws[k + 1], i, m) {
      RunKeepsRequests(ws, steps, k);
      OffRowsStays(ws[k], steps[k], i, m);
    }
    Until(ws, (w: World) => OffRows(w, i, m), (w: World) => true, (k: nat) => false, a, n);
  }

  /** From then on, over any run, it stays on no row, and no step of the service ever asks Mollie
      to stop it: it ends exactly when Mollie itself reports the end. */
  lemma OffRowsForGood(ws: seq<World>, steps: seq<Step>, a: nat, n: nat, i: SubId, m: MollieSubId)
    requires IsRun(ws, steps) && NeverBilled(ws[0]) && a <= n <= |steps| && OffRows(ws[a], i, m)
    requires m !in ws[a].stopped
    ensures OffRows(ws[n], i, m)
    ensures m in ws[n].stopped <==> exists j: nat :: a <= j < n && ReportsEnd(steps, j, m)
  {
    OffRowsFrom(ws, steps, a, n, i, m);
    var open, ended := (w: World) => OffRows(w, i, m) && m !in w.stopped, (w: World) => m in w.stopped;
    var fires := (k: nat) => ReportsEnd(steps, k, m);
    forall k: nat | k + 1 < |ws| && open(ws[k]) ensures if fires(k) then ended(ws[k + 1]) else open(ws[k + 1]) {
      RunKeepsRequests(ws, steps, k);
      OffRowsStays(ws[k], steps[k], i, m);
      OffRowsIsNotAsked(ws[k], steps[k], i, m);
      StepAsks(ws[k], steps[k]);
    }
    forall k: nat | k + 1 < |ws| && ended(ws[k]) ensures ended(ws[k + 1]) {
      RunKeepsRequests(ws, steps, k);
      StepAsks(ws[k], steps[k]);
    }
    Until(ws, open, ended, fires, a, n);
    if j: nat :| a <= j < n && ReportsEnd(steps, j, m) {
      assert fires(j);
    }
  }

  // ----- Redelivery after a crash -----

  /** The next delivery of a checkout whose Mollie subscription was created but not recorded: it
      puts that subscription on the row exactly when the checkout may still start; otherwise the
      row is closed without it, and it is off every row. */
  lemma RedeliveryRecoversExactlyWhen(w: World, p: PaymentId, m: MollieSubId, next: Option<Time>)
    requires Sound(w) && RequestsOk(w) && FirstEnabled(w, FirstBegins(p, Some(m)))
    requires w.payments[p].sub in w.subs && w.subs[w.payments[p].sub].mollieSub.None?
    requires w.payments[p].sub in w.created && w.created[w.payments[p].sub] == m
    ensures var w1, i := BeginFirst(w, p, Some(m)), w.payments[p].sub;
      && (MayStart(w, p) <==> p in w1.activating)
      && (if MayStart(w, p) then IsFirst(w1, p) && HasMollie(FinishFirst(w1, p, next), i, m)
          else OffRows(w1, i, m) && w1.stopped == w.stopped)
  {
    var w1, i := BeginFirst(w, p, Some(m)), w.payments[p].sub;
    StartsExactlyWhen(w, p, m);
    if MayStart(w, p) {
      StartedRecords(w, p, m, next);
    } else {
      RefusedIsOffRows(w, p, m);
      StepAsks(w, FirstPayments(FirstBegins(p, Some(m))));
    }
  }

  lemma StartedRecords(w: World, p: PaymentId, m: MollieSubId, next: Option<Time>)
    requires Inv(w) && FirstEnabled(w, FirstBegins(p, Some(m))) && MayStart(w, p)
    ensures var w1 := BeginFirst(w, p, Some(m));
      && p in w1.activating && IsFirst(w1, p) && HasMollie(FinishFirst(w1, p, next), w.payments[p].sub, m)
  {
    var i := w.payments[p].sub;
    StartsExactlyWhen(w, p, m);
    var w1 := StartActivation(w, p, i, m, w.subs[i].status.Scheduled?);
    PayerMeans(w, w.subs[i], w.payments[p].customer);
    assert BeginFirst(w, p, Some(m)) == w1;
    assert !Abandons(w1, p) by { assert RowOk(w.subs[i], w.now); }
    FinishAccounts(w1, p, next);
  }

  lemma MollieOfRow(w: World, j: SubId, m: MollieSubId)
    requires MollieOk(w)
    ensures HasMollie(w, j, m) ==> j in w.created && w.created[j] == m
  {
  }

  lemma RefusedIsOffRows(w: World, p: PaymentId, m: MollieSubId)
    requires Sound(w) && RequestsOk(w) && FirstEnabled(w, FirstBegins(p, Some(m))) && !MayStart(w, p)
    requires w.payments[p].sub in w.subs && w.subs[w.payments[p].sub].mollieSub.None?
    requires w.payments[p].sub in w.created && w.created[w.payments[p].sub] == m
    ensures OffRows(BeginFirst(w, p, Some(m)), w.payments[p].sub, m)
  {
    var w1, i := BeginFirst(w, p, Some(m)), w.payments[p].sub;
    RefusedIsClosed(w, p, m);
    forall j ensures !HasMollie(w, j, m) {
      MollieOfRow(w, j, m);
    }
    assert m !in w.owed;
    forall q | q in w.activating ensures w.activating[q].sub != i {
      assert FirstOk(w, q);
    }
  }

  lemma RefusedIsClosed(w: World, p: PaymentId, m: MollieSubId)
    requires Inv(w) && FirstEnabled(w, FirstBegins(p, Some(m))) && !MayStart(w, p)
    requires w.payments[p].sub in w.subs && w.subs[w.payments[p].sub].mollieSub.None?
    ensures var w1, i := BeginFirst(w, p, Some(m)), w.payments[p].sub;
      && w1.created == w.created && w1.owed == w.owed && w1.activating == w.activating
      && w1.subs.Keys == w.subs.Keys && Closed(w1.subs[i]) && SameMollie(w.subs, w1.subs)
  {
    var f := w.payments[p];
    var r := w.subs[f.sub];
    NotRunning(w, p);
    MayStartMeans(w, p);
    if (!r.status.Incomplete? && !r.status.Scheduled?) || !PayerIsOwner(w, r, f.customer) {
      RefusedCloses(w, f.sub, p, f.amount);
    } else {
      SupersededCloses(w, f.sub);
    }
  }

  lemma NotRunning(w: World, p: PaymentId)
    requires FirstsOk(w) && IsFirst(w, p) && w.payments[p].sub in w.subs && w.subs[w.payments[p].sub].mollieSub.None?
    ensures !Running(w.subs[w.payments[p].sub])
  {
    assert FirstOk(w, p);
  }

  lemma SupersededCloses(w: World, i: SubId)
    requires i in w.subs
    ensures var w1 := w.(subs := w.subs[i := Cancel(w.subs[i], w.now)]);
      w1.subs.Keys == w.subs.Keys && Closed(w1.subs[i]) && SameMollie(w.subs, w1.subs)
  {
  }

  lemma RefusedCloses(w: World, id: SubId, p: PaymentId, amount: nat)
    requires id in w.subs && w.subs[id].mollieSub.None? && !Running(w.subs[id])
    ensures var w1 := RefundFirst(CloseUnconfirmed(w, id), p, amount);
      && w1.created == w.created && w1.owed == w.owed && w1.activating == w.activating
      && w1.subs.Keys == w.subs.Keys && Closed(w1.subs[id]) && SameMollie(w.subs, w1.subs)
  {
    CloseUnconfirmedFrame(w, id);
    CloseUnconfirmedRow(w, id);
    RefundBooks(CloseUnconfirmed(w, id), p, amount);
    RefundRows(CloseUnconfirmed(w, id), p, amount);
  }
}
