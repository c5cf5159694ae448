/** Whose subscriptions a project's rows are, over whole runs and across ownership transfers. */
module BillingOwners {
  import opened Prelude
  import opened Billing
  import opened BillingInvariant
  import opened BillingSteps
  import opened BillingHistory
  import opened BillingTrace
  import opened BillingBooks
  import opened BillingFirstPayments
  import opened BillingLifecycle

  /** The owner changes only by a transfer. */
  lemma OwnerStays(w: World, s: Step)
    requires RowsOk(w) && Enabled(w, s) && !s.Transfer?
    ensures Apply(w, s).owner == w.owner
  {
    PlanLives(w, s);
    assert StandingOf(Apply(w, s)).owner == Apply(w, s).owner;
  }

  // ----- Where a row comes from -----

  /** The step starts the row: a checkout of the user who owns the active project, for the
      customer, plan, price and start it was asked for, or the activation of a new project. */
  predicate StartsRow(w: World, s: Step, i: SubId, r: Row) {
    && s.Checkouts? && i == w.nextId
    && match s.checkout
       case Inserts(user, customer, plan, price) =>
         MayCheckOut(w, user) && r.customer == customer && r.plan == plan && r.price == price
         && r.startsAt.None? && r.predecessor.None?
       case Schedules(user, customer, plan, price, startsAt, predecessor) =>
         MayCheckOut(w, user) && r.customer == customer && r.plan == plan && r.price == price
         && r.startsAt == Some(startsAt) && r.predecessor == Some(predecessor)
       case ActivatesProject(_, customer, price, _, _) =>
         r.customer == customer && r.plan == Pro && r.price == price && r.startsAt.None? && r.predecessor.None?
       case _ => false
  }

  /** An open checkout, or a running subscription nobody cancelled. */
  predicate Wanted(r: Row) {
    r.status.Incomplete? || r.status.Scheduled? || (Running(r) && r.canceledAt.None?)
  }

  lemma InsertedStarts(w: World, c: CheckoutStep, i: SubId)
    requires CheckoutEnabled(w, c) && i in ApplyCheckout(w, c).subs && i !in w.subs
    ensures StartsRow(w, Checkouts(c), i, ApplyCheckout(w, c).subs[i])
  {
  }

  /** A transfer closes or cancels everything of the old owner's. */
  lemma TransferLeavesNothingWanted(w: World, newOwner: UserId, lastPaid: Option<Time>, i: SubId)
    requires i in HandOver(w, newOwner, lastPaid).subs
    ensures i in w.subs && !Wanted(HandOver(w, newOwner, lastPaid).subs[i])
  {
  }

  /** Step `k` started the row for that time's owner; one that is wanted is the present owner's,
      with no transfer since. */
  ghost predicate StartedAt(ws: seq<World>, steps: seq<Step>, k: nat, n: nat, i: SubId)
    requires |ws| == |steps| + 1 && n <= |steps| && i in ws[n].subs
  {
    && k < n && StartsRow(ws[k], steps[k], i, ws[n].subs[i])
    && (Wanted(ws[n].subs[i]) ==> ws[k].owner == ws[n].owner && forall l | k < l < n :: !steps[l].Transfer?)
  }

  lemma RowStartsSame(w: World, s: Step, i: SubId, r: Row, r': Row, now: Time)
    requires StartsRow(w, s, i, r) && Evolves(r, r', now)
    ensures StartsRow(w, s, i, r')
  {
  }

  lemma WantedBefore(w: World, s: Step, i: SubId)
    requires Sound(w) && Enabled(w, s) && i in w.subs && i in Apply(w, s).subs && Wanted(Apply(w, s).subs[i])
    ensures Wanted(w.subs[i]) && !s.Transfer? && Apply(w, s).owner == w.owner
  {
    StepSound(w, s);
    assert Evolves(w.subs[i], Apply(w, s).subs[i], w.now);
    if s.Transfer? {
      TransferLeavesNothingWanted(w, s.newOwner, s.lastPaid, i);
    } else {
      OwnerStays(w, s);
    }
  }

  lemma RowEvolves(w: World, w': World, i: SubId)
    requires Later(w, w') && i in w.subs && i in w'.subs
    ensures Evolves(w.subs[i], w'.subs[i], w.now)
  {
  }

  lemma StillStarted(ws: seq<World>, steps: seq<Step>, k: nat, n: nat, i: SubId)
    requires |ws| == |steps| + 1 && n < |steps| && i in ws[n].subs && i in ws[n + 1].subs
    requires StartedAt(ws, steps, k, n, i) && Evolves(ws[n].subs[i], ws[n + 1].subs[i], ws[n].now)
    requires Wanted(ws[n + 1].subs[i]) ==>
      Wanted(ws[n].subs[i]) && !steps[n].Transfer? && ws[n + 1].owner == ws[n].owner
    ensures StartedAt(ws, steps, k, n + 1, i)
  {
    RowStartsSame(ws[k], steps[k], i, ws[n].subs[i], ws[n + 1].subs[i], ws[n].now);
  }

  /** At every moment of a run every row was started by the project's owner of that time, and is
      for what was asked for then; and an open checkout and a running subscription nobody
      cancelled are the present owner's. */
  lemma {:induction false} WantedIsTheOwners(ws: seq<World>, steps: seq<Step>, n: nat, i: SubId) returns (k: nat)
    requires IsRun(ws, steps) && NeverBilled(ws[0]) && n <= |steps| && i in ws[n].subs
    ensures StartedAt(ws, steps, k, n, i)
  {
    NeverBilledSound(ws[0]);
    RunKeeps(ws, steps, n - 1, n);
    if i in ws[n - 1].subs {
      k := WantedIsTheOwners(ws, steps, n - 1, i);
      RowEvolves(ws[n - 1], ws[n], i);
      if Wanted(ws[n].subs[i]) { WantedBefore(ws[n - 1], steps[n - 1], i); }
      StillStarted(ws, steps, k, n - 1, i);
    } else {
      k := n - 1;
      StepSound(ws[k], steps[k]);
      if !steps[k].Checkouts? { OnlyCheckoutsInsert(ws[k], steps[k]); }
      InsertedStarts(ws[k], steps[k].checkout, i);
      OwnerStays(ws[k], steps[k]);
    }
  }

  // ----- Whose payment it is -----

  /** At step `k` the delivery was let through to Mollie, for the owner of that time; while the
      checkout is open and unconfirmed, that is the present owner, with no transfer since. */
  ghost predicate BegunAt(ws: seq<World>, steps: seq<Step>, k: nat, n: nat, p: PaymentId, i: SubId)
    requires |ws| == |steps| + 1 && n <= |steps|
  {
    && k < n && steps[k].FirstPayments? && steps[k].first.FirstBegins? && steps[k].first.p == p
    && MayStart(ws[k], p) && ws[k].payments[p].sub == i
    && (i in ws[n].subs && Unconfirmed(ws[n].subs[i]) ==>
          ws[k].owner == ws[n].owner && forall l | k < l < n :: !steps[l].Transfer?)
  }

  lemma BeginsNow(w: World, s: Step, p: PaymentId)
    requires Sound(w) && Enabled(w, s) && p in Apply(w, s).activating && p !in w.activating
    ensures s.FirstPayments? && s.first.FirstBegins? && s.first.p == p && MayStart(w, p)
    ensures Apply(w, s).activating[p].sub == w.payments[p].sub && Apply(w, s).owner == w.owner
  {
    StepAsks(w, s);
    OwnerStays(w, s);
    StepSound(w, s);
    assert FirstOk(Apply(w, s), p);
    assert SamePayment(w.payments[p], Apply(w, s).payments[p]);
    if s.first.answer.Some? {
      StartsExactlyWhen(w, p, s.first.answer.value);
    } else {
      NoAnswerStartsNothing(w, p);
    }
  }

  lemma NoAnswerStartsNothing(w: World, p: PaymentId)
    requires Inv(w) && IsFirst(w, p) && p !in w.activating
    ensures p !in BeginFirst(w, p, None).activating
  {
    var f := w.payments[p];
    if f.sub in w.subs {
      var r := w.subs[f.sub];
      if r.mollieSub.Some? {
        MarkBooks(w, p, InvoicePaid);
      } else if (!r.status.Incomplete? && !r.status.Scheduled?) || !PayerIsOwner(w, r, f.customer) {
        RefuseBooks(w, f.sub, p, f.amount);
      } else if r.status.Scheduled? && Conflicting(w) {
      }
    }
  }

  lemma UnconfirmedBefore(w: World, w': World, i: SubId)
    requires Follows(w, w') && i < w.nextId && i in w'.subs && Unconfirmed(w'.subs[i])
    ensures i in w.subs && Unconfirmed(w.subs[i])
  {
    if i in w.subs {
      assert Evolves(w.subs[i], w'.subs[i], w.now);
    }
  }

  lemma StillBegun(ws: seq<World>, steps: seq<Step>, k: nat, n: nat, p: PaymentId, i: SubId)
    requires |ws| == |steps| + 1 && n < |steps| && BegunAt(ws, steps, k, n, p, i)
    requires i in ws[n + 1].subs && Unconfirmed(ws[n + 1].subs[i]) ==>
      i in ws[n].subs && Unconfirmed(ws[n].subs[i]) && !steps[n].Transfer? && ws[n + 1].owner == ws[n].owner
    ensures BegunAt(ws, steps, k, n + 1, p, i)
  {
  }

  lemma {:induction false} BegunForTheOwner(ws: seq<World>, steps: seq<Step>, n: nat, p: PaymentId) returns (k: nat)
    requires IsRun(ws, steps) && NeverBilled(ws[0]) && n <= |steps| && p in ws[n].activating
    ensures BegunAt(ws, steps, k, n, p, ws[n].activating[p].sub)
  {
    NeverBilledSound(ws[0]);
    RunKeeps(ws, steps, n - 1, n);
    StepAsks(ws[n - 1], steps[n - 1]);
    if p in ws[n - 1].activating {
      var i := ws[n].activating[p].sub;
      k := BegunForTheOwner(ws, steps, n - 1, p);
      assert FirstOk(ws[n - 1], p);
      if i in ws[n].subs && Unconfirmed(ws[n].subs[i]) {
        UnconfirmedBefore(ws[n - 1], ws[n], i);
        WantedBefore(ws[n - 1], steps[n - 1], i);
      }
      StillBegun(ws, steps, k, n - 1, p, i);
    } else {
      k := n - 1;
      BeginsNow(ws[k], steps[k], p);
    }
  }

  /** A delivery records a Mollie subscription on an open row only if the payer was the customer of
      the present owner: no transfer came between the check of the payer and this step. */
  lemma RecordedForTheOwner(ws: seq<World>, steps: seq<Step>, n: nat, i: SubId) returns (k: nat)
    requires IsRun(ws, steps) && NeverBilled(ws[0]) && n < |steps| && Records(ws[n], steps[n], i)
    ensures k < n && steps[k].FirstPayments? && steps[k].first.FirstBegins? && steps[k].first.p == steps[n].first.p
    ensures MayStart(ws[k], steps[k].first.p) && ws[k].payments[steps[k].first.p].sub == i
    ensures ws[k].owner == ws[n].owner && forall l | k <= l <= n :: !steps[l].Transfer?
  {
    k := BegunForTheOwner(ws, steps, n, steps[n].first.p);
  }
}
