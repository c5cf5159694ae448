/** After an ownership transfer the project moves on: the old subscription ends at the first
    sweep past its period. */
module BillingProgress {
  import opened Prelude
  import Calendar
  import opened Billing
  import opened BillingInvariant
  import opened BillingKept
  import opened BillingSteps
  import opened BillingTakeover
  import opened BillingHistory
  import opened BillingBooks
  import opened BillingTrace
  import opened BillingStops
  import opened Runs

  /** A running row with a cancel date and a known end. */
  predicate RunsOut(r: Row) {
    Running(r) && r.canceledAt.Some? && r.nextChargeAt.Some?
  }

  lemma TransferRow(w: World, newOwner: UserId, lastPaid: Option<Time>, i: SubId)
    requires i in w.subs
    ensures var w' := HandOver(w, newOwner, lastPaid);
      i in w'.subs && if Running(w.subs[i]) then RunsOut(w'.subs[i]) else Closed(w'.subs[i])
  {
    assert HandOver(w, newOwner, lastPaid).subs[i] == HandOverRow(w.subs[i], lastPaid, w.now);
  }

  lemma TransferOwes(w: World, newOwner: UserId, lastPaid: Option<Time>, i: SubId)
    requires i in w.subs && !Closed(w.subs[i]) && w.subs[i].mollieSub.Some?
    ensures w.subs[i].mollieSub.value in HandOver(w, newOwner, lastPaid).owed
  {
    HandOverBooks(w, newOwner, lastPaid);
    Among(w.subs, OpenRows(w.subs), i);
    OwedAmong(w.owed, MollieSubs(w.subs, OpenRows(w.subs)), w.subs[i].mollieSub.value);
  }

  lemma OwedAmong(owed: multiset<MollieSubId>, more: set<MollieSubId>, m: MollieSubId)
    requires m in more
    ensures m in owed + multiset(more)
  {
  }

  predicate DiesOwingAt(steps: seq<Step>, k: nat, m: MollieSubId) {
    k < |steps| && steps[k] == Stops(DiesOwing(m))
  }

  lemma StaysHandled(w: World, s: Step, m: MollieSubId)
    requires Inv(w) && Enabled(w, s) && Handled(w, m) && s != Stops(DiesOwing(m))
    ensures Handled(Apply(w, s), m)
  {
    StepAsks(w, s);
  }

  /** A stop that is owed is asked for or still owed at any later moment, unless a process died. */
  lemma OwedUntil(ws: seq<World>, steps: seq<Step>, a: nat, b: nat, m: MollieSubId)
    requires IsRun(ws, steps) && Sound(ws[0]) && a <= b <= |steps| && Handled(ws[a], m)
    ensures Handled(ws[b], m) || exists k: nat :: a <= k < b && DiesOwingAt(steps, k, m)
  {
    var fires := (k: nat) => DiesOwingAt(steps, k, m);
    forall k: nat | k + 1 < |ws| && Handled(ws[k], m) && !fires(k) ensures Handled(ws[k + 1], m) {
      RunKeeps(ws, steps, k, k);
      StaysHandled(ws[k], steps[k], m);
    }
    Until(ws, (w: World) => Handled(w, m), (w: World) => true, fires, a, b);
    if k: nat :| a <= k < b && fires(k) {
      assert DiesOwingAt(steps, k, m);
    }
  }

  /** From a transfer on, over any run: of the old owner's rows nothing is open but a running
      subscription with a cancel and an end date, and Mollie is asked to stop every subscription
      that was open, unless the process dies before it gets there. */
  lemma TransferLeaves(ws: seq<World>, steps: seq<Step>, a: nat, b: nat, i: SubId)
    requires IsRun(ws, steps) && Sound(ws[0]) && a < b <= |steps| && steps[a].Transfer? && i in ws[a].subs
    ensures i in ws[b].subs
    ensures Closed(ws[b].subs[i]) || (Running(ws[a].subs[i]) && RunsOut(ws[b].subs[i]))
    ensures !Closed(ws[a].subs[i]) && ws[a].subs[i].mollieSub.Some? ==>
      var m := ws[a].subs[i].mollieSub.value;
      Handled(ws[b], m) || exists k: nat :: a < k < b && DiesOwingAt(steps, k, m)
  {
    TransferRow(ws[a], steps[a].newOwner, steps[a].lastPaid, i);
    assert ws[a + 1] == HandOver(ws[a], steps[a].newOwner, steps[a].lastPaid);
    RunKeeps(ws, steps, a + 1, b);
    if Running(ws[a].subs[i]) {
      KeepsRunningOut(ws, steps, a + 1, b, i);
    } else {
      assert i in ws[b].subs && Evolves(ws[a + 1].subs[i], ws[b].subs[i], ws[a + 1].now);
    }
    if !Closed(ws[a].subs[i]) && ws[a].subs[i].mollieSub.Some? {
      TransferOwes(ws[a], steps[a].newOwner, steps[a].lastPaid, i);
      OwedUntil(ws, steps, a + 1, b, ws[a].subs[i].mollieSub.value);
    }
  }

  predicate PaidInvoice(v: Invoice, i: SubId) {
    v.sub == i && v.status.InvoicePaid? && v.paidAt.Some?
  }

  /** The latest of a subscription's paid charges. */
  predicate LatestPaid(invoices: map<PaymentId, Invoice>, i: SubId, p: PaymentId) {
    p in invoices && PaidInvoice(invoices[p], i)
    && forall q | q in invoices && PaidInvoice(invoices[q], i) :: invoices[q].paidAt.value <= invoices[p].paidAt.value
  }

  /** A known end of the period is kept; one that is not known is a month after the latest paid
      charge if that is still ahead, and otherwise, or without any, the transfer itself. */
  lemma TransferEnd(w: World, newOwner: UserId, lastPaid: Option<Time>, i: SubId)
    requires i in w.subs && Running(w.subs[i]) && IsLastPaid(w.invoices, i, lastPaid)
    ensures var e, r := HandOver(w, newOwner, lastPaid).subs[i].nextChargeAt, w.subs[i];
      && (r.nextChargeAt.Some? ==> e == r.nextChargeAt)
      && (r.nextChargeAt.None? ==>
            && (forall p | p in w.invoices && LatestPaid(w.invoices, i, p) ::
                  var month := Calendar.AddMonth(w.invoices[p].paidAt.value);
                  e == Some(if month > w.now then month else w.now))
            && ((forall p | p in w.invoices :: !PaidInvoice(w.invoices[p], i)) ==> e == Some(w.now)))
  {
    forall p | p in w.invoices && LatestPaid(w.invoices, i, p) ensures lastPaid == Some(w.invoices[p].paidAt.value) {
      assert lastPaid.Some?;
      var q :| q in w.invoices && PaidFor(w.invoices, i, q) && w.invoices[q].paidAt == lastPaid;
      assert PaidInvoice(w.invoices[q], i) && PaidFor(w.invoices, i, p);
    }
    if lastPaid.Some? {
      var q :| q in w.invoices && PaidFor(w.invoices, i, q) && w.invoices[q].paidAt == lastPaid;
      assert PaidInvoice(w.invoices[q], i);
    }
  }

  /** As long as the row runs it keeps both dates. */
  lemma KeepsRunningOut(ws: seq<World>, steps: seq<Step>, a: nat, b: nat, i: SubId)
    requires IsRun(ws, steps) && Sound(ws[0]) && a <= b <= |steps|
    requires i in ws[a].subs && RunsOut(ws[a].subs[i])
    ensures i in ws[b].subs && (RunsOut(ws[b].subs[i]) || Closed(ws[b].subs[i]))
  {
    RunKeeps(ws, steps, a, b);
    assert RowOk(ws[a].subs[i], ws[a].now) && RowOk(ws[b].subs[i], ws[b].now);
    assert Evolves(ws[a].subs[i], ws[b].subs[i], ws[a].now);
  }

  // ----- The sweep -----

  /** The subscription's time is up: its period is over and so is the wait of any confirmed
      successor, or its past-due grace has run out. */
  predicate TimeIsUp(w: World, i: SubId)
    requires i in w.subs
  {
    var r := w.subs[i];
    if r.status.PastDue? then GraceElapsed(r, w.now)
    else PeriodElapsed(r, w.now) && forall s | s in w.subs && Confirmed(w.subs[s]) :: Due(w.subs[s], w.now, false)
  }

  lemma OnlyRunning(w: World, i: SubId, j: SubId)
    requires RowsOk(w) && i in w.subs && j in w.subs && Running(w.subs[i]) && Live(w.subs[j])
    ensures j == i
  {
  }

  lemma RunningHasNoGrace(w: World, i: SubId)
    requires Inv(w) && i in w.subs && Running(w.subs[i])
    ensures w.graceUntil.None?
  {
    assert RowOk(w.subs[i], w.now);
  }

  lemma DowngradeExpires(w: World, ids: set<SubId>, i: SubId)
    requires i in w.subs
    ensures i in Downgrade(w, ids).subs
    ensures Closed(w.subs[i]) ==> Closed(Downgrade(w, ids).subs[i])
    ensures w.plan.Pro? && i in ids ==> Downgrade(w, ids).subs[i].status.Expired?
    ensures !w.plan.Pro? || i !in ids ==> Downgrade(w, ids).subs[i] == w.subs[i]
  {
    if w.plan.Pro? && ids != {} {
      ToFreeRows(ExpireAll(w, ids));
    }
  }

  lemma DowngradeDrops(w: World, ids: set<SubId>)
    ensures w.plan.Pro? && ids != {} ==> Downgrade(w, ids).plan.Free? || Comped(w)
    ensures !w.plan.Pro? || ids == {} ==> Downgrade(w, ids) == w
    ensures Downgrade(w, ids).compedUntil == w.compedUntil && Downgrade(w, ids).now == w.now
  {
  }

  /** Without a takeover due, the three other branches of the sweep. */
  lemma RestOfSweep(w: World, i: SubId)
    requires Inv(w) && w.plan.Pro? && i in w.subs && RunsOut(w.subs[i]) && TimeIsUp(w, i) && !AnyDue(w, false)
    ensures var w' := SweepEnded(SweepLegacy(SweepPastDue(w)));
      i in w'.subs && Closed(w'.subs[i]) && (w'.plan.Free? || Comped(w))
  {
    RunningHasNoGrace(w, i);
    DowngradeExpires(w, PastDueIds(w), i);
    DowngradeDrops(w, PastDueIds(w));
    var w1 := SweepPastDue(w);
    if w.subs[i].status.PastDue? {
      assert i in PastDueIds(w);
      AfterExpiry(w1, i);
    } else {
      forall j | j in w.subs ensures !GraceElapsed(w.subs[j], w.now) {
        if Live(w.subs[j]) { OnlyRunning(w, i, j); }
      }
      assert PastDueIds(w) == {};
      assert w1 == w && SweepLegacy(w) == w;
      assert !HasConfirmed(w);
      assert i in EndedIds(w);
      DowngradeExpires(w, EndedIds(w), i);
      DowngradeDrops(w, EndedIds(w));
    }
  }

  /** Later branches leave an expired row expired and a Free project Free. */
  lemma AfterExpiry(w: World, i: SubId)
    requires i in w.subs && Closed(w.subs[i]) && (w.plan.Free? || Comped(w))
    ensures var w' := SweepEnded(SweepLegacy(w)); i in w'.subs && Closed(w'.subs[i]) && (w'.plan.Free? || Comped(w))
  {
    assert SweepLegacy(w) == w;
    DowngradeExpires(w, EndedIds(w), i);
    DowngradeDrops(w, EndedIds(w));
  }

  /** After a takeover only the successor is live, so the rest of the sweep can end only it. */
  lemma RestAfterTakeOver(w: World, i: SubId, s: SubId)
    requires RowsOk(w) && w.graceUntil.None? && i in w.subs && Closed(w.subs[i]) && s in w.subs && w.subs[s].status.Active?
    ensures var w' := SweepEnded(SweepLegacy(SweepPastDue(w)));
      && i in w'.subs && Closed(w'.subs[i]) && s in w'.subs
      && (w'.subs[s].status.Active? || w'.plan.Free? || Comped(w))
  {
    forall j | j in w.subs ensures !GraceElapsed(w.subs[j], w.now) {
      if Live(w.subs[j]) { OnlyRunning(w, s, j); }
    }
    assert PastDueIds(w) == {};
    DowngradeDrops(w, PastDueIds(w));
    assert SweepLegacy(SweepPastDue(w)) == w;
    DowngradeExpires(w, EndedIds(w), i);
    DowngradeExpires(w, EndedIds(w), s);
    DowngradeDrops(w, EndedIds(w));
  }

  /** The first sweep after the time is up closes the row, and leaves a confirmed successor
      active or the project on Free, unless it is comped. */
  lemma SweepEnds(w: World, i: SubId)
    requires Inv(w) && w.plan.Pro? && i in w.subs && RunsOut(w.subs[i]) && TimeIsUp(w, i)
    ensures var w' := Sweep(w);
      && i in w'.subs && Closed(w'.subs[i])
      && (w'.plan.Free? || Comped(w)
          || exists s :: s in w.subs && Confirmed(w.subs[s]) && s in w'.subs && w'.subs[s].status.Active?)
  {
    if AnyDue(w, false) {
      var s :| s in w.subs && Due(w.subs[s], w.now, false);
      NothingElseRuns(w, i);
      var w1 := Promote(w, false);
      TakeOverDoes(w, false, s, w1);
      PromoteKeeps(w, false);
      SameComp(w);
      RestAfterTakeOver(w1, i, s);
    } else {
      NothingDuePromotes(w, false);
      RestOfSweep(w, i);
    }
  }

  lemma SameComp(w: World)
    ensures Promote(w, false).compedUntil == w.compedUntil && Promote(w, false).now == w.now
  {
    match PromotionOf(w, false)
    case NothingDue =>
    case Superseded =>
    case IndexViolation =>
    case TookOver => TakeOverSameComp(w);
  }

  lemma TakeOverSameComp(w: World)
    requires AnyDue(w, false)
    ensures TakeOver(w, false).compedUntil == w.compedUntil && TakeOver(w, false).now == w.now
  {
  }

  lemma NothingElseRuns(w: World, i: SubId)
    requires RowsOk(w) && i in w.subs && RunsOut(w.subs[i])
    ensures !Uncancelled(w) && !HasIncomplete(w)
  {
    forall j | j in w.subs && Live(w.subs[j]) ensures j == i {
      OnlyRunning(w, i, j);
    }
  }
}
