/** What decides, on the rows' own columns: who takes over when, whom the sweep ends and whom it
    spares, and what Mollie is asked to stop. */
module BillingDecisions {
  import opened Prelude
  import opened Billing
  import opened BillingInvariant
  import opened BillingFrames
  import opened BillingKept
  import opened BillingSteps
  import opened BillingDeliveries
  import opened BillingTakeover
  import opened BillingBooks
  import opened BillingTrace
  import opened BillingLifecycle

  // ----- Takeovers -----

  /** A scheduled subscription goes into force exactly when its mandate is in place, its start date
      has come (or it was charged), nobody is paying for another one and no checkout is open. */
  lemma TakesOverExactlyWhen(w: World, charged: bool, s: SubId)
    requires RowsOk(w) && s in w.subs && w.subs[s].status.Scheduled?
    ensures s in Promote(w, charged).subs
    ensures var r := w.subs[s];
      Promote(w, charged).subs[s].status.Active? <==>
        && r.mollieSub.Some? && (charged || (r.startsAt.Some? && r.startsAt.value <= w.now))
        && forall j | j in w.subs ::
             && !w.subs[j].status.Incomplete?
             && (w.subs[j].status.Active? || w.subs[j].status.PastDue? ==> w.subs[j].canceledAt.Some?)
  {
    TakeoverRow(w, charged, s);
    var r := w.subs[s];
    if MayStartBy(r, w.now, charged) { assert SomeMayStart(w, charged); }
    if j :| j in w.subs && w.subs[j].status.Incomplete? { assert OpenCheckout(w); }
    if j :| j in w.subs && InForce(w.subs[j]) && w.subs[j].canceledAt.None? { assert Paying(w); }
  }

  /** While every scheduled subscription still waits for its date, a takeover changes nothing. */
  lemma NothingBeforeItsDate(w: World)
    requires forall s | s in w.subs && w.subs[s].status.Scheduled? ::
      w.subs[s].startsAt.Some? && w.subs[s].startsAt.value > w.now
    ensures Promote(w, false) == w
  {
    SomeMayStartIsDue(w, false);
    NothingDuePromotes(w, false);
  }

  predicate IsTakeover(s: Step) {
    || s == Sweeps(TakesOver)
    || (s.FirstPayments? && s.first.FirstTakesOver?)
    || (s.Charges? && s.charge.ChargeTakesOver?)
  }

  /** Step `k` put the scheduled row into force: on its date, unless a charge came first. */
  ghost predicate StartedOnTime(ws: seq<World>, steps: seq<Step>, k: nat, s: SubId)
    requires k < |steps| && |ws| == |steps| + 1
  {
    && IsTakeover(steps[k]) && s in ws[k].subs
    && var r := ws[k].subs[s];
       && r.status.Scheduled? && r.mollieSub.Some?
       && (steps[k].Charges? || (r.startsAt.Some? && r.startsAt.value <= ws[k].now))
  }

  /** How a row comes into force. */
  lemma RowStarts(w: World, step: Step, s: SubId)
    requires s in w.subs && InForce(RowAfter(w, step, s)) && !InForce(w.subs[s])
    ensures RowAfter(w, step, s).startsAt == w.subs[s].startsAt
    ensures || (step.FirstPayments? && step.first.FirstFinishes? && w.subs[s].status.Incomplete?)
            || (IsTakeover(step) && MayStartBy(w.subs[s], w.now, step.Charges?))
  {
  }

  lemma StartsOnTime(ws: seq<World>, steps: seq<Step>, k: nat, s: SubId)
    requires IsRun(ws, steps) && Sound(ws[0]) && k < |steps|
    requires s in ws[k].subs && ws[k].subs[s].status.Scheduled?
    requires s in ws[k + 1].subs && InForce(ws[k + 1].subs[s])
    ensures StartedOnTime(ws, steps, k, s)
  {
    RunKeeps(ws, steps, k, k);
    RowLives(ws[k], steps[k], s);
    RowStarts(ws[k], steps[k], s);
  }

  /** Over any run: a subscription with a start date that is in force was put there by a takeover
      on or after that date, or because Mollie had charged it. */
  lemma {:induction false} NoEarlyStart(ws: seq<World>, steps: seq<Step>, n: nat, s: SubId) returns (k: nat)
    requires IsRun(ws, steps) && NeverBilled(ws[0]) && n <= |steps|
    requires s in ws[n].subs && InForce(ws[n].subs[s]) && ws[n].subs[s].startsAt.Some?
    ensures k < n && StartedOnTime(ws, steps, k, s) && ws[k].subs[s].startsAt == ws[n].subs[s].startsAt
  {
    NeverBilledSound(ws[0]);
    RunKeeps(ws, steps, n - 1, n);
    InForceBefore(ws[n - 1], steps[n - 1], s);
    if InForce(ws[n - 1].subs[s]) {
      k := NoEarlyStart(ws, steps, n - 1, s);
    } else {
      k := n - 1;
      StartsOnTime(ws, steps, k, s);
    }
  }

  lemma InForceBefore(w: World, step: Step, s: SubId)
    requires Sound(w) && Enabled(w, step)
    requires s in Apply(w, step).subs && InForce(Apply(w, step).subs[s]) && Apply(w, step).subs[s].startsAt.Some?
    ensures s in w.subs && w.subs[s].startsAt == Apply(w, step).subs[s].startsAt
    ensures InForce(w.subs[s]) || w.subs[s].status.Scheduled?
  {
    RowsComeAndGo(w, step);
    if s in w.subs {
      StepSound(w, step);
      RowLives(w, step, s);
      assert RowOk(w.subs[s], w.now);
      if !InForce(w.subs[s]) { RowStarts(w, step, s); }
    } else {
      InsertedNotDated(w, step);
    }
  }

  lemma InsertedNotDated(w: World, step: Step)
    requires Inserted(w, step).Some?
    ensures !(InForce(Inserted(w, step).value) && Inserted(w, step).value.startsAt.Some?)
  {
  }

  // ----- What ends a subscription somebody pays for -----

  /** Of all steps exactly two close an active subscription nobody cancelled: Mollie's report that
      it ended, and the update of a cancel that ends it at once. */
  lemma ClosesPayingExactlyWhen(w: World, s: Step, i: SubId)
    requires Inv(w) && Enabled(w, s) && i in w.subs && w.subs[i].status.Active? && w.subs[i].canceledAt.None?
    ensures i in Apply(w, s).subs
    ensures var r := Apply(w, s).subs[i];
      r.status.Canceled? || r.status.Expired? <==>
        || (s.Charges? && s.charge.MollieEnds? && w.subs[i].mollieSub == Some(s.charge.m))
        || (s.Cancels? && s.cancel.Updates? && w.cancels[s.cancel.c].id == i
            && (w.cancels[s.cancel.c].kind.Immediately? || w.cancels[s.cancel.c].kind.ForDeletion?))
  {
    RowsComeAndGo(w, s);
    RowLives(w, s, i);
    PayingRowCloses(w, s, i);
  }

  lemma PayingRowCloses(w: World, s: Step, i: SubId)
    requires Enabled(w, s) && i in w.subs && w.subs[i].status.Active? && w.subs[i].canceledAt.None?
    ensures var r := RowAfter(w, s, i);
      r.status.Canceled? || r.status.Expired? <==>
        || (s.Charges? && s.charge.MollieEnds? && w.subs[i].mollieSub == Some(s.charge.m))
        || (s.Cancels? && s.cancel.Updates? && w.cancels[s.cancel.c].id == i
            && (w.cancels[s.cancel.c].kind.Immediately? || w.cancels[s.cancel.c].kind.ForDeletion?))
  {
    assert Paying(w);
  }

  // ----- The sweep -----

  lemma OneInForce(w: World, i: SubId)
    requires RowsOk(w) && i in w.subs && InForce(w.subs[i])
    ensures Occupied(w) && !OpenCheckout(w)
    ensures Paying(w) <==> w.subs[i].canceledAt.None?
    ensures forall j | j in w.subs && j != i :: !InForce(w.subs[j])
  {
    forall j | j in w.subs && Live(w.subs[j]) ensures j == i {
      assert Live(w.subs[i]);
    }
  }

  /** The takeover closes the row in force exactly when it is cancelled and a successor may start. */
  lemma TakeoverClosesExactlyWhen(w: World, i: SubId)
    requires RowsOk(w) && i in w.subs && InForce(w.subs[i])
    ensures var w' := Promote(w, false);
      && i in w'.subs && w'.stopped == w.stopped
      && if w.subs[i].canceledAt.Some? && SomeMayStart(w, false) then w'.subs[i] == w.subs[i].(status := Expired)
         else w'.subs[i] == w.subs[i] && StandingOf(w') == StandingOf(w) && (w.subs[i].canceledAt.Some? ==> w' == w)
  {
    OneInForce(w, i);
    TakeoverRow(w, false, i);
    TakeoverStanding(w, false);
    PromoteBooks(w, false);
    SomeMayStartIsDue(w, false);
    if !SomeMayStart(w, false) { NothingDuePromotes(w, false); }
  }

  /** Without anything past its grace or over, and with a row in force, the rest does nothing. */
  lemma RestSpares(w: World, i: SubId)
    requires i in w.subs && InForce(w.subs[i]) && forall j | j in w.subs && j != i :: !InForce(w.subs[j])
    requires !(w.plan.Pro? && PastGrace(w.subs[i], w.now)) && !(w.plan.Pro? && Over(w.subs[i], w.now) && !SomeMandated(w))
    ensures SweepPastDue(w) == w && SweepLegacy(w) == w && SweepEnded(w) == w
  {
    MandatedIsConfirmed(w);
    if w.plan.Pro? {
      assert forall j: SubId :: j !in PastDueIds(w);
      assert forall j: SubId :: j !in EndedIds(w);
    }
    assert Live(w.subs[i]);
  }

  lemma ClosedStays(w: World, i: SubId)
    requires i in w.subs && (w.subs[i].status.Canceled? || w.subs[i].status.Expired?)
    ensures var w' := SweepEnded(SweepLegacy(w)); i in w'.subs && w'.subs[i] == w.subs[i]
  {
    ToFreeRows(w);
    DowngradedRow(SweepLegacy(w), EndedIds(SweepLegacy(w)), i);
  }

  lemma ClosedStaysAll(w: World, i: SubId)
    requires i in w.subs && (w.subs[i].status.Canceled? || w.subs[i].status.Expired?)
    ensures var w' := SweepEnded(SweepLegacy(SweepPastDue(w))); i in w'.subs && w'.subs[i] == w.subs[i]
  {
    DowngradedRow(w, PastDueIds(w), i);
    ClosedStays(SweepPastDue(w), i);
  }

  /** Past its grace, or over with no successor: the rest of the sweep expires it. */
  lemma RestEnds(w: World, i: SubId)
    requires i in w.subs && InForce(w.subs[i]) && w.plan.Pro? && forall j | j in w.subs && j != i :: !InForce(w.subs[j])
    requires PastGrace(w.subs[i], w.now) || (Over(w.subs[i], w.now) && !SomeMandated(w))
    ensures var w' := SweepEnded(SweepLegacy(SweepPastDue(w))); i in w'.subs && w'.subs[i].status.Expired?
  {
    DowngradedRow(w, PastDueIds(w), i);
    if PastGrace(w.subs[i], w.now) {
      assert i in PastDueIds(w);
      ClosedStays(SweepPastDue(w), i);
    } else {
      assert forall j: SubId :: j !in PastDueIds(w);
      assert Live(w.subs[i]) && SweepLegacy(w) == w;
      DowngradedRow(w, EndedIds(w), i);
      MandatedIsConfirmed(w);
    }
  }

  /** A sweep closes the subscription in force exactly when it is cancelled and a successor may
      start, or the project is on Pro and it is past due for more than seven days, or cancelled,
      over and without any successor. One it does not close it leaves alone, and all but the
      takeover is idle. */
  lemma SweepClosesExactlyWhen(w: World, i: SubId)
    requires Inv(w) && i in w.subs && InForce(w.subs[i])
    ensures i in Sweep(w).subs
    ensures var r, r' := w.subs[i], Sweep(w).subs[i];
      r'.status.Canceled? || r'.status.Expired? <==>
        || (r.canceledAt.Some? && SomeMayStart(w, false))
        || (w.plan.Pro? && PastGrace(r, w.now))
        || (w.plan.Pro? && Over(r, w.now) && !SomeMandated(w))
    ensures InForce(Sweep(w).subs[i]) ==>
      Sweep(w) == Promote(w, false) && Sweep(w).subs[i] == w.subs[i] && StandingOf(Sweep(w)) == StandingOf(w)
      && Sweep(w).stopped == w.stopped
  {
    var w1 := Promote(w, false);
    TakeoverClosesExactlyWhen(w, i);
    PromoteKeeps(w, false);
    PromoteClock(w);
    OneInForce(w, i);
    if w.subs[i].canceledAt.Some? && SomeMayStart(w, false) {
      ClosedStaysAll(w1, i);
    } else {
      OneInForce(w1, i);
      assert w.subs[i].canceledAt.Some? ==> w1 == w;
      if w.plan.Pro? && (PastGrace(w.subs[i], w.now) || (Over(w.subs[i], w.now) && !SomeMandated(w))) {
        RestEnds(w1, i);
      } else {
        RestSpares(w1, i);
      }
    }
  }

  lemma PromoteClock(w: World)
    ensures Promote(w, false).now == w.now
  {
    PromoteFrame(w, false);
  }

  /** A subscription that is paid for and that nobody cancelled is left alone by every step of the
      sweep, and so are its Mollie subscription and the plan, however late its renewal is. */
  lemma PayingIsSpared(w: World, sweep: SweepStep, i: SubId)
    requires Inv(w) && i in w.subs && w.subs[i].status.Active? && w.subs[i].canceledAt.None?
    ensures var w' := ApplySweep(w, sweep);
      && i in w'.subs && w'.subs[i] == w.subs[i] && w'.plan == w.plan && w'.graceUntil == w.graceUntil && w'.stopped == w.stopped
      && (w.subs[i].mollieSub.Some? ==> w'.owed[w.subs[i].mollieSub.value] == w.owed[w.subs[i].mollieSub.value])
      && (!sweep.TakesOver? ==> w' == w)
  {
    OneInForce(w, i);
    RestSpares(w, i);
    if sweep.TakesOver? {
      TakeoverClosesExactlyWhen(w, i);
      assert StandingOf(Promote(w, false)) == StandingOf(w);
      PromoteBooks(w, false);
      if w.subs[i].mollieSub.Some? { SupersededIsAnother(w, i); }
    }
  }

  /** What a takeover stops beside a paying subscription is another one. */
  lemma SupersededIsAnother(w: World, i: SubId)
    requires MollieOk(w) && i in w.subs && InForce(w.subs[i]) && w.subs[i].canceledAt.None? && w.subs[i].mollieSub.Some?
    ensures w.subs[i].mollieSub.value !in TakeOverOwes(w, false)
  {
    var m := w.subs[i].mollieSub.value;
    assert Running(w.subs[i]) && Uncancelled(w);
    assert w.created[i] == m;
    assert forall j | j in w.subs && w.subs[j].mollieSub == Some(m) :: j == i;
  }

  /** Step by step, whatever others do in between: each part of the sweep closes a row in force
      exactly on its own grounds, and otherwise leaves the row alone. */
  lemma SweepStepClosesExactlyWhen(w: World, sweep: SweepStep, i: SubId)
    requires RowsOk(w) && i in w.subs && InForce(w.subs[i])
    ensures i in ApplySweep(w, sweep).subs
    ensures var r, r' := w.subs[i], ApplySweep(w, sweep).subs[i];
      && (r'.status.Canceled? || r'.status.Expired? <==>
            match sweep
            case TakesOver => r.canceledAt.Some? && SomeMayStart(w, false)
            case DropsPastDue =>
              w.plan.Pro? && r.status.PastDue? && r.pastDueSince.Some? && r.pastDueSince.value + 7 * 24 * 3600 < w.now
            case DropsLegacy => false
            case DropsEnded =>
              w.plan.Pro? && r.status.Active? && r.canceledAt.Some? && r.nextChargeAt.Some? && r.nextChargeAt.value < w.now
              && !SomeMandated(w))
      && (InForce(r') ==> r' == r)
  {
    OneInForce(w, i);
    SweepRow(w, sweep, i);
  }

  // ----- Stops -----

  /** The row in force that a takeover expires, or the one it finds superseded. */
  predicate RetiredBy(w: World, charged: bool, i: SubId)
    requires i in w.subs
  {
    SomeMayStart(w, charged)
    && if Paying(w) then MayStartBy(w.subs[i], w.now, charged) else !OpenCheckout(w) && InForce(w.subs[i])
  }

  /** A step leaves this row's stop owed. */
  predicate LeavesOwed(w: World, s: Step, i: SubId)
    requires i in w.subs
  {
    match s
    case Transfer(_, _) => !w.subs[i].status.Canceled? && !w.subs[i].status.Expired?
    case Sweeps(TakesOver) => RetiredBy(w, false, i)
    case FirstPayments(FirstTakesOver(_)) => RetiredBy(w, false, i)
    case Charges(ChargeTakesOver(_)) => RetiredBy(w, true, i)
    case _ => false
  }

  lemma RetiredOwes(w: World, charged: bool, m: MollieSubId)
    ensures TakeOverOwes(w, charged)[m] == if exists i | i in w.subs :: w.subs[i].mollieSub == Some(m) && RetiredBy(w, charged, i) then 1 else 0
  {
    SomeMayStartIsDue(w, charged);
    match PromotionOf(w, charged)
    case NothingDue =>
    case IndexViolation =>
    case Superseded => DueRowsOwe(w, charged, m);
    case TookOver => RunningRowsOwe(w, m);
  }

  lemma DueRowsOwe(w: World, charged: bool, m: MollieSubId)
    ensures m in MollieSubs(w.subs, DueIds(w, charged)) <==>
      exists i | i in w.subs :: w.subs[i].mollieSub == Some(m) && MayStartBy(w.subs[i], w.now, charged)
  {
    forall i | i in w.subs ensures i in DueIds(w, charged) <==> MayStartBy(w.subs[i], w.now, charged) {
    }
  }

  lemma RunningRowsOwe(w: World, m: MollieSubId)
    ensures m in MollieSubs(w.subs, RunningIds(w.subs)) <==> exists i | i in w.subs :: w.subs[i].mollieSub == Some(m) && InForce(w.subs[i])
  {
    forall i | i in w.subs ensures i in RunningIds(w.subs) <==> InForce(w.subs[i]) {
    }
  }

  lemma OpenRowsOwe(w: World, m: MollieSubId)
    ensures m in MollieSubs(w.subs, OpenRows(w.subs)) <==>
      exists i | i in w.subs :: w.subs[i].mollieSub == Some(m) && !w.subs[i].status.Canceled? && !w.subs[i].status.Expired?
  {
    forall i | i in w.subs ensures i in OpenRows(w.subs) <==> !w.subs[i].status.Canceled? && !w.subs[i].status.Expired? {
    }
  }

  /** What a step leaves to be stopped after its commit, once for each row it retires. */
  lemma OwedExactlyWhen(w: World, s: Step, m: MollieSubId)
    requires Inv(w) && Enabled(w, s) && !s.Stops?
    ensures Apply(w, s).owed[m] == w.owed[m] + if exists i | i in w.subs :: w.subs[i].mollieSub == Some(m) && LeavesOwed(w, s, i) then 1 else 0
  {
    StepAsks(w, s);
    OwedNow(w, s, m);
  }

  lemma OwedNow(w: World, s: Step, m: MollieSubId)
    ensures OwedBy(w, s)[m] == if exists i | i in w.subs :: w.subs[i].mollieSub == Some(m) && LeavesOwed(w, s, i) then 1 else 0
  {
    match s
    case Transfer(_, _) => OpenRowsOwe(w, m);
    case Sweeps(TakesOver) => RetiredOwes(w, false, m);
    case FirstPayments(FirstTakesOver(_)) => RetiredOwes(w, false, m);
    case Charges(ChargeTakesOver(_)) => RetiredOwes(w, true, m);
    case _ =>
  }

  /** The sweep asks Mollie to stop exactly the subscriptions it expires. */
  lemma SweepStopsExactlyWhen(w: World, sweep: SweepStep, m: MollieSubId)
    requires Inv(w) && m !in w.stopped
    ensures m in ApplySweep(w, sweep).stopped <==>
      !sweep.TakesOver? && exists i | i in w.subs :: w.subs[i].mollieSub == Some(m) && RowAfter(w, Sweeps(sweep), i) != w.subs[i]
  {
    StepAsks(w, Sweeps(sweep));
    MandatedIsConfirmed(w);
    match sweep
    case TakesOver =>
    case DropsPastDue => SweptStops(w, PastDueIds(w), m);
    case DropsLegacy =>
    case DropsEnded => SweptStops(w, EndedIds(w), m);
  }

  lemma SweptStops(w: World, ids: set<SubId>, m: MollieSubId)
    ensures m in Downgraded(w, ids) <==> w.plan.Pro? && exists i | i in w.subs :: w.subs[i].mollieSub == Some(m) && i in ids
  {
  }
}
