/** A sweep as four steps of a run, with the other actors in between: exactly when a subscription
    that is over survives it. */
module BillingPasses {
  import opened Prelude
  import opened Runs
  import opened Billing
  import opened BillingInvariant
  import opened BillingKept
  import opened BillingSteps
  import opened BillingHistory
  import opened BillingTakeover
  import opened BillingBooks
  import opened BillingTrace
  import opened BillingProgress

  /** Active, its period over, and no confirmed successor still waiting for its start. */
  predicate PeriodIsUp(w: World, i: SubId)
    requires i in w.subs
  {
    PeriodElapsed(w.subs[i], w.now) && forall s | s in w.subs && Confirmed(w.subs[s]) :: Due(w.subs[s], w.now, false)
  }

  /** The row is closed, or on a Pro project and its period is up. */
  predicate ClosedOrUp(w: World, i: SubId) {
    i in w.subs && (Closed(w.subs[i]) || (w.plan.Pro? && RunsOut(w.subs[i]) && PeriodIsUp(w, i)))
  }

  /** A pass of the sweep: its four steps in order, whatever the other actors do in between. */
  predicate Pass(steps: seq<Step>, k1: nat, k2: nat, k3: nat, k4: nat) {
    && k1 < k2 < k3 < k4 < |steps|
    && steps[k1] == Sweeps(TakesOver) && steps[k2] == Sweeps(DropsPastDue)
    && steps[k3] == Sweeps(DropsLegacy) && steps[k4] == Sweeps(DropsEnded)
  }

  // ----- Confirmations -----

  lemma CheckoutConfirmsNothing(w: World, c: CheckoutStep, j: SubId)
    requires CheckoutEnabled(w, c) && j in ApplyCheckout(w, c).subs && j !in w.subs
    ensures !Confirmed(ApplyCheckout(w, c).subs[j])
  {
  }

  lemma InsertedIsNotConfirmed(w: World, s: Step, j: SubId)
    requires Sound(w) && Enabled(w, s) && j in Apply(w, s).subs && j !in w.subs
    ensures !Confirmed(Apply(w, s).subs[j])
  {
    StepSound(w, s);
    if !s.Checkouts? { OnlyCheckoutsInsert(w, s); }
    CheckoutConfirmsNothing(w, s.checkout, j);
  }

  /** Only a delivery that records its Mollie subscription confirms a scheduled row. */
  lemma OnlyRecordsConfirm(w: World, s: Step, j: SubId)
    requires Sound(w) && Enabled(w, s) && Waiting(Apply(w, s), j)
    ensures Waiting(w, j) || Records(w, s, j)
  {
    var w' := Apply(w, s);
    StepSound(w, s);
    StepAsks(w, s);
    if j !in w.subs {
      InsertedIsNotConfirmed(w, s, j);
    } else {
      assert Evolves(w.subs[j], w'.subs[j], w.now);
    }
  }

  predicate RecordsAt(ws: seq<World>, steps: seq<Step>, k: nat, s: SubId)
    requires |ws| == |steps| + 1
  {
    k < |steps| && Records(ws[k], steps[k], s)
  }

  lemma ConfirmedSince(ws: seq<World>, steps: seq<Step>, a: nat, b: nat, s: SubId)
    requires IsRun(ws, steps) && Sound(ws[0]) && a <= b <= |steps| && !Waiting(ws[a], s) && Waiting(ws[b], s)
    ensures exists k: nat :: a <= k < b && RecordsAt(ws, steps, k, s)
  {
    var fires := (k: nat) => RecordsAt(ws, steps, k, s);
    forall k: nat | k + 1 < |ws| && !Waiting(ws[k], s) && !fires(k) ensures !Waiting(ws[k + 1], s) {
      RunKeeps(ws, steps, k, k);
      if Waiting(ws[k + 1], s) { OnlyRecordsConfirm(ws[k], steps[k], s); }
    }
    Until(ws, (w: World) => !Waiting(w, s), (w: World) => true, fires, a, b);
    if k: nat :| a <= k < b && fires(k) {
      assert RecordsAt(ws, steps, k, s);
    }
  }

  /** A row is confirmed once. */
  lemma ConfirmedOnce(ws: seq<World>, steps: seq<Step>, a: nat, b: nat, s: SubId)
    requires IsRun(ws, steps) && Sound(ws[0]) && a <= b < |steps| && Waiting(ws[a], s)
    ensures !RecordsAt(ws, steps, b, s)
  {
    RunKeeps(ws, steps, a, b);
    assert s in ws[b].subs && Evolves(ws[a].subs[s], ws[b].subs[s], ws[a].now);
  }

  // ----- The steps of the sweep -----

  lemma PastDueEnds(w: World, i: SubId)
    requires w.plan.Pro? && i in w.subs && GraceElapsed(w.subs[i], w.now)
    ensures var w' := SweepPastDue(w); i in w'.subs && Closed(w'.subs[i])
  {
    DowngradeExpires(w, PastDueIds(w), i);
  }

  lemma DueTakesOver(w: World, i: SubId, s: SubId)
    requires RowsOk(w) && i in w.subs && RunsOut(w.subs[i]) && s in w.subs && Due(w.subs[s], w.now, false)
    ensures var w' := Promote(w, false);
      i in w'.subs && Closed(w'.subs[i]) && s in w'.subs && Running(w'.subs[s])
  {
    NothingElseRuns(w, i);
    TakeOverDoes(w, false, s, Promote(w, false));
  }

  /** The last step ends a row whose period is over exactly when no confirmed successor waits. */
  lemma LastStepDecides(w: World, i: SubId)
    requires w.plan.Pro? && i in w.subs && PeriodElapsed(w.subs[i], w.now)
    ensures var w' := SweepEnded(w); i in w'.subs && (Closed(w'.subs[i]) <==> !HasConfirmed(w))
  {
    DowngradeExpires(w, EndedIds(w), i);
    if HasConfirmed(w) {
      assert EndedIds(w) == {};
    }
  }

  /** After the first step the row is closed or there is no confirmed successor. */
  lemma FirstStepLeaves(w: World, i: SubId)
    requires Sound(w) && ClosedOrUp(w, i)
    ensures var w' := Promote(w, false); i in w'.subs && (Closed(w'.subs[i]) || !HasConfirmed(w'))
  {
    PromoteKeeps(w, false);
    assert Evolves(w.subs[i], Promote(w, false).subs[i], w.now);
    if !Closed(w.subs[i]) {
      if s :| s in w.subs && Due(w.subs[s], w.now, false) {
        DueTakesOver(w, i, s);
      } else {
        NothingDuePromotes(w, false);
        assert forall s | s in w.subs :: !Confirmed(w.subs[s]);
      }
    }
  }

  lemma StaysClosed(ws: seq<World>, steps: seq<Step>, a: nat, b: nat, i: SubId)
    requires IsRun(ws, steps) && Sound(ws[0]) && a <= b <= |steps| && i in ws[a].subs && Closed(ws[a].subs[i])
    ensures i in ws[b].subs && Closed(ws[b].subs[i])
  {
    RunKeeps(ws, steps, a, b);
    assert i in ws[b].subs && Evolves(ws[a].subs[i], ws[b].subs[i], ws[a].now);
  }

  // ----- Whole passes -----

  /** A row past its grace is closed by the pass, whatever others do. */
  lemma GracePassEnds(ws: seq<World>, steps: seq<Step>, k1: nat, k2: nat, k3: nat, k4: nat, i: SubId)
    requires IsRun(ws, steps) && Sound(ws[0]) && Pass(steps, k1, k2, k3, k4)
    requires i in ws[k2].subs && GraceElapsed(ws[k2].subs[i], ws[k2].now) && ws[k2].plan.Pro?
    ensures i in ws[k4 + 1].subs && Closed(ws[k4 + 1].subs[i])
  {
    PastDueEnds(ws[k2], i);
    StaysClosed(ws, steps, k2 + 1, k4 + 1, i);
  }

  /** A successor that a delivery confirmed between the first and the last step of the pass, and
      that nobody made take over since. */
  ghost predicate LateSuccessor(ws: seq<World>, steps: seq<Step>, k1: nat, k4: nat, s: SubId)
    requires |ws| == |steps| + 1 && k4 < |steps|
  {
    Waiting(ws[k4], s) && exists k: nat :: k1 < k < k4 && RecordsAt(ws, steps, k, s)
  }

  lemma LateOrNone(ws: seq<World>, steps: seq<Step>, k1: nat, k4: nat, i: SubId)
    requires IsRun(ws, steps) && Sound(ws[0]) && k1 < k4 < |steps| && steps[k1] == Sweeps(TakesOver)
    requires ClosedOrUp(ws[k1], i) && i in ws[k4].subs && !Closed(ws[k4].subs[i])
    ensures HasConfirmed(ws[k4]) <==> exists s :: LateSuccessor(ws, steps, k1, k4, s)
  {
    RunKeeps(ws, steps, k1, k1);
    FirstStepLeaves(ws[k1], i);
    if Closed(ws[k1 + 1].subs[i]) {
      StaysClosed(ws, steps, k1 + 1, k4, i);
    }
    if s :| s in ws[k4].subs && Confirmed(ws[k4].subs[s]) {
      ConfirmedSince(ws, steps, k1 + 1, k4, s);
      assert LateSuccessor(ws, steps, k1, k4, s);
    }
  }

  /** A subscription on a Pro project whose period is up all along survives a pass exactly when it
      is still open at the last step and a successor was confirmed after the first one that
      nobody made take over. */
  lemma SurvivesExactlyWhen(ws: seq<World>, steps: seq<Step>, k1: nat, k2: nat, k3: nat, k4: nat, i: SubId)
    requires IsRun(ws, steps) && Sound(ws[0]) && Pass(steps, k1, k2, k3, k4)
    requires ClosedOrUp(ws[k1], i) && ClosedOrUp(ws[k4], i)
    ensures i in ws[k4 + 1].subs
    ensures !Closed(ws[k4 + 1].subs[i]) <==>
      !Closed(ws[k4].subs[i]) && exists s :: LateSuccessor(ws, steps, k1, k4, s)
  {
    if Closed(ws[k4].subs[i]) {
      StaysClosed(ws, steps, k4, k4 + 1, i);
    } else {
      LateOrNone(ws, steps, k1, k4, i);
      LastStepDecides(ws[k4], i);
    }
  }

  /** The next pass starts by handing over to that successor, if it still waits. */
  lemma NextPassHandsOver(ws: seq<World>, steps: seq<Step>, l: nat, i: SubId, s: SubId)
    requires IsRun(ws, steps) && Sound(ws[0]) && l < |steps| && steps[l] == Sweeps(TakesOver)
    requires ClosedOrUp(ws[l], i) && !Closed(ws[l].subs[i]) && Waiting(ws[l], s)
    ensures i in ws[l + 1].subs && Closed(ws[l + 1].subs[i]) && s in ws[l + 1].subs && Running(ws[l + 1].subs[s])
  {
    RunKeeps(ws, steps, l, l);
    DueTakesOver(ws[l], i, s);
  }

  /** So a subscription survives two passes only by two successors: the first pass's has no part in
      the second, which needs another one confirmed in the middle of it. */
  lemma SurvivesTwiceByTwo(ws: seq<World>, steps: seq<Step>, k1: nat, k2: nat, k3: nat, k4: nat,
                           l1: nat, l2: nat, l3: nat, l4: nat, i: SubId) returns (s: SubId, t: SubId)
    requires IsRun(ws, steps) && Sound(ws[0]) && Pass(steps, k1, k2, k3, k4) && Pass(steps, l1, l2, l3, l4) && k4 < l1
    requires ClosedOrUp(ws[k1], i) && ClosedOrUp(ws[k4], i) && ClosedOrUp(ws[l1], i) && ClosedOrUp(ws[l4], i)
    requires i in ws[l4 + 1].subs && !Closed(ws[l4 + 1].subs[i])
    ensures s != t && LateSuccessor(ws, steps, k1, k4, s) && LateSuccessor(ws, steps, l1, l4, t)
  {
    SurvivesExactlyWhen(ws, steps, k1, k2, k3, k4, i);
    SurvivesExactlyWhen(ws, steps, l1, l2, l3, l4, i);
    if Closed(ws[k4 + 1].subs[i]) {
      StaysClosed(ws, steps, k4 + 1, l4 + 1, i);
    }
    s :| LateSuccessor(ws, steps, k1, k4, s);
    t :| LateSuccessor(ws, steps, l1, l4, t);
    var k: nat :| l1 < k < l4 && RecordsAt(ws, steps, k, t);
    if Waiting(ws[k4], t) {
      ConfirmedOnce(ws, steps, k4, k, t);
    }
  }
}
