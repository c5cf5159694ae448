/** Cancel requests over runs, with anything between their reading, their call to Mollie and their
    update: what they do, exactly which charges they stop, and what happens to the others. */
module BillingCancels {
  import opened Prelude
  import opened Runs
  import opened Billing
  import opened BillingInvariant
  import opened BillingFrames
  import opened BillingDeliveries
  import opened BillingSteps
  import opened BillingHistory
  import opened BillingTakeover
  import opened BillingBooks
  import opened BillingTrace
  import opened BillingStops

  // ----- Who asked -----

  /** Step `j` asks Mollie to stop `m`, or is Mollie's report that it ended. */
  ghost predicate AskedAt(ws: seq<World>, steps: seq<Step>, j: nat, m: MollieSubId)
    requires IsRun(ws, steps)
  {
    j < |steps| && m in AskedBy(ws[j], steps[j])
  }

  /** Each step of a run stops exactly what it asks for. */
  lemma StepAsksAt(ws: seq<World>, steps: seq<Step>, k: nat, m: MollieSubId)
    requires IsRun(ws, steps) && NeverBilled(ws[0]) && k < |steps|
    ensures m in ws[k + 1].stopped <==> m in ws[k].stopped || AskedAt(ws, steps, k, m)
  {
    RunKeepsRequests(ws, steps, k);
    StepAsks(ws[k], steps[k]);
  }

  /** A Mollie subscription is stopped exactly when some step asked. */
  lemma {:induction false} StoppedTellsHistory(ws: seq<World>, steps: seq<Step>, n: nat, m: MollieSubId)
    requires IsRun(ws, steps) && NeverBilled(ws[0]) && n <= |steps|
    ensures m in ws[n].stopped <==> exists j: nat :: j < n && AskedAt(ws, steps, j, m)
  {
    if n > 0 {
      StoppedTellsHistory(ws, steps, n - 1, m);
      StepAsksAt(ws, steps, n - 1, m);
    }
  }

  /** What a request read stays on record until its update. */
  lemma RequestStays(ws: seq<World>, steps: seq<Step>, a: nat, b: nat, c: RequestId)
    requires IsRun(ws, steps) && NeverBilled(ws[0]) && a <= b <= |steps| && c in ws[a].cancels
    ensures c in ws[b].cancels && SameRequest(ws[a].cancels[c], ws[b].cancels[c])
  {
    NeverBilledSound(ws[0]);
    RunKeeps(ws, steps, a, b);
  }

  /** At the update of a cancel its row's Mollie subscription is stopped exactly when the cancel
      had read it, or someone else asked for it. */
  lemma CancelStopsExactly(ws: seq<World>, steps: seq<Step>, k: nat, c: RequestId, m: MollieSubId)
    requires IsRun(ws, steps) && NeverBilled(ws[0]) && k < |steps|
    requires steps[k] == Cancels(Updates(c)) && HasMollie(ws[k], ws[k].cancels[c].id, m)
    ensures m in ws[k + 1].stopped <==>
      ws[k].cancels[c].mollie == Some(m)
      || exists j: nat :: j < k && steps[j] != Cancels(Asks(c)) && AskedAt(ws, steps, j, m)
  {
    RunKeepsRequests(ws, steps, k);
    StepAsks(ws[k], steps[k]);
    StoppedTellsHistory(ws, steps, k, m);
    assert RequestOk(ws[k], c);
    if m in ws[k].stopped {
      var j: nat :| j < k && AskedAt(ws, steps, j, m);
      if steps[j] == Cancels(Asks(c)) {
        RequestStays(ws, steps, j, k, c);
        assert ws[j].cancels[c].mollie.Some? && ws[j].cancels[c].mollie.value == m;
      }
    }
  }

  // ----- What a cancel does -----

  /** The row after the cancel of one read as `seen`: closed at once, closed before it starts, or
      running out, with the first cancel date. */
  predicate CanceledAs(seen: Row, mode: CancelKind, r: Row, r': Row, now: Time) {
    if mode.ForDeletion? || (mode.Immediately? && !seen.status.Scheduled?) then
      r' == r.(status := Canceled, canceledAt := r'.canceledAt) && r'.canceledAt == if r.canceledAt.Some? then r.canceledAt else Some(now)
    else if seen.status.Scheduled? && r.status.Scheduled? then
      r' == r.(status := Canceled, canceledAt := Some(now))
    else
      r' == r.(canceledAt := r'.canceledAt) && r'.canceledAt == if r.canceledAt.Some? then r.canceledAt else Some(now)
  }

  /** Between its reading and its update the request keeps what it read, and so does its row. */
  lemma RequestUntil(ws: seq<World>, steps: seq<Step>, a: nat, b: nat, c: RequestId, id: SubId, mode: CancelKind)
    requires IsRun(ws, steps) && NeverBilled(ws[0]) && a < b < |steps|
    requires steps[a] == Cancels(Reads(c, id, mode)) && steps[b] == Cancels(Updates(c))
    ensures id in ws[a].subs && !mode.OfScheduled? && c in ws[b].cancels && ws[b].cancels[c].id == id
    ensures ws[b].cancels[c].kind == KindRead(ws[a].subs[id].status, mode)
    ensures id !in ws[b].subs ==> Unconfirmed(ws[a].subs[id])
    ensures ws[a].subs[id].mollieSub.Some? ==>
      HasMollie(ws[b], id, ws[a].subs[id].mollieSub.value) && ws[a].subs[id].mollieSub.value in ws[b].stopped
  {
    NeverBilledSound(ws[0]);
    RunKeeps(ws, steps, a, b);
    RequestReads(ws, steps, a, b, c, id, mode);
    RunKeepsRequests(ws, steps, b);
    assert RequestOk(ws[b], c);
  }

  lemma RequestReads(ws: seq<World>, steps: seq<Step>, a: nat, b: nat, c: RequestId, id: SubId, mode: CancelKind)
    requires IsRun(ws, steps) && NeverBilled(ws[0]) && a < b < |steps| && steps[a] == Cancels(Reads(c, id, mode))
    ensures id in ws[a].subs && !mode.OfScheduled? && c in ws[b].cancels
    ensures var q, r := ws[b].cancels[c], ws[a].subs[id];
      q.id == id && q.mollie == r.mollieSub && q.kind == KindRead(r.status, mode)
  {
    RequestStays(ws, steps, a + 1, b, c);
  }

  /** From its reading to its update, whatever comes between: the row ends as it was asked for,
      no other row changes, only an immediate cancel of one that had started drops the plan, and
      the charges it saw are stopped. Only an unconfirmed checkout may be gone by then. */
  lemma CancelDoes(ws: seq<World>, steps: seq<Step>, a: nat, b: nat, c: RequestId, id: SubId, mode: CancelKind)
    requires IsRun(ws, steps) && NeverBilled(ws[0]) && a < b < |steps|
    requires steps[a] == Cancels(Reads(c, id, mode)) && steps[b] == Cancels(Updates(c))
    ensures id in ws[a].subs && ws[b + 1].subs.Keys == ws[b].subs.Keys
    ensures id !in ws[b].subs ==> Unconfirmed(ws[a].subs[id])
    ensures id in ws[b].subs ==> CanceledAs(ws[a].subs[id], mode, ws[b].subs[id], ws[b + 1].subs[id], ws[b].now)
    ensures forall i | i in ws[b].subs && i != id :: ws[b + 1].subs[i] == ws[b].subs[i]
    ensures ws[b + 1].plan == if mode.Immediately? && !ws[a].subs[id].status.Scheduled? && ws[b].plan.Pro? then Free else ws[b].plan
    ensures ws[a].subs[id].mollieSub.Some? ==>
      HasMollie(ws[b], id, ws[a].subs[id].mollieSub.value) && ws[a].subs[id].mollieSub.value in ws[b + 1].stopped
    ensures c in ws[b].cancels && ws[b + 1].cancels == ws[b].cancels[c := ws[b].cancels[c].(phase := Done)]
  {
    RequestUntil(ws, steps, a, b, c, id, mode);
    UpdateDoes(ws[b], c);
    CanceledAsRead(ws[a].subs[id], mode, ws[b].now);
  }

  lemma CanceledAsRead(seen: Row, mode: CancelKind, now: Time)
    requires !mode.OfScheduled?
    ensures forall r: Row :: CanceledAs(seen, mode, r, CanceledRow(r, KindRead(seen.status, mode), now), now)
  {
  }

  lemma UpdateDoes(w: World, c: RequestId)
    requires c in w.cancels
    ensures var w', q := UpdateCanceled(w, c), w.cancels[c];
      && w'.subs == CanceledRows(w.subs, q, w.now) && w'.stopped == w.stopped
      && w'.cancels == w.cancels[c := q.(phase := Done)]
      && w'.plan == if q.kind.Immediately? && w.plan.Pro? then Free else w.plan
  {
  }

  // ----- Charges nobody stopped -----

  /** A closed row whose Mollie subscription nobody asked to stop, or still owes a stop. */
  predicate Unasked(w: World, i: SubId, m: MollieSubId) {
    HasMollie(w, i, m) && Closed(w.subs[i]) && !Handled(w, m)
  }

  /** What still stops a closed row's Mollie subscription: Mollie's own end, the delivery of a
      charge made after the cancel, or a cancel that had read it before. */
  ghost predicate StopsClosed(w: World, s: Step, i: SubId, m: MollieSubId) {
    || (s.Charges? && s.charge.MollieEnds? && s.charge.m == m)
    || (s.Charges? && s.charge.RenewalBegins? && ChargedAfterCancel(w, s.charge.p, i))
    || (s.Cancels? && s.cancel.Asks? && s.cancel.c in w.cancels && w.cancels[s.cancel.c].mollie == Some(m))
  }

  lemma ClosedIsNotRenewed(w: World, i: SubId, m: MollieSubId, p: PaymentId)
    requires Inv(w) && HasMollie(w, i, m) && Closed(w.subs[i]) && IsCharge(w, p)
    ensures RefusesCharge(w, p) && w.payments[p].mollieSub == m <==> ChargedAfterCancel(w, p, i)
  {
    OneRowOf(w, m, i);
    assert !ScheduledFor(w, m);
  }

  lemma ClosedIsNotSwept(w: World, i: SubId, m: MollieSubId, ids: set<SubId>)
    requires Inv(w) && HasMollie(w, i, m) && Closed(w.subs[i])
    requires forall j | j in ids :: j in w.subs && !Closed(w.subs[j])
    ensures m !in MollieSubs(w.subs, ids)
  {
    OneRowOf(w, m, i);
    assert forall j | j in ids && w.subs[j].mollieSub.Some? && w.subs[j].mollieSub.value == m :: HasMollie(w, j, m);
  }

  lemma ClosedIsNotAbandoned(w: World, i: SubId, m: MollieSubId, p: PaymentId)
    requires Inv(w) && HasMollie(w, i, m) && p in w.activating
    ensures w.activating[p].mollie != m
  {
    assert FirstOk(w, p);
    assert w.created[i] == m && w.activating[p].sub != i;
  }

  lemma AskedForClosed(w: World, s: Step, i: SubId, m: MollieSubId)
    requires Inv(w) && Enabled(w, s) && Unasked(w, i, m)
    ensures m in AskedBy(w, s) <==> StopsClosed(w, s, i, m)
  {
    match s
    case Tick(_) =>
    case SetCustomer(_, _) =>
    case SetComp(_) =>
    case Transfer(_, _) =>
    case Checkouts(_) =>
    case FirstPayments(f) =>
      if f.FirstFinishes? { ClosedIsNotAbandoned(w, i, m, f.p); }
    case Charges(c) =>
      if c.RenewalBegins? { ClosedIsNotRenewed(w, i, m, c.p); }
    case Cancels(_) =>
    case Sweeps(_) =>
      ClosedIsNotSwept(w, i, m, PastDueIds(w));
      ClosedIsNotSwept(w, i, m, EndedIds(w));
    case Stops(_) =>
  }

  lemma ClosedIsNotOwed(w: World, s: Step, i: SubId, m: MollieSubId)
    requires Inv(w) && HasMollie(w, i, m) && Closed(w.subs[i])
    ensures m !in OwedBy(w, s)
  {
    OneRowOf(w, m, i);
    if m in OwedBy(w, s) {
      var j := OwedIsOpen(w, s, m);
    }
  }

  lemma UnaskedStep(w: World, s: Step, i: SubId, m: MollieSubId)
    requires Sound(w) && Enabled(w, s) && Unasked(w, i, m)
    ensures if StopsClosed(w, s, i, m) then m in Apply(w, s).stopped else Unasked(Apply(w, s), i, m)
  {
    var w' := Apply(w, s);
    StepSound(w, s);
    StepAsks(w, s);
    StillHasMollie(w, w', i, m);
    AskedForClosed(w, s, i, m);
    ClosedIsNotOwed(w, s, i, m);
    assert Evolves(w.subs[i], w'.subs[i], w.now);
  }

  ghost predicate StopsClosedAt(ws: seq<World>, steps: seq<Step>, j: nat, i: SubId, m: MollieSubId)
    requires |ws| == |steps| + 1
  {
    j < |steps| && StopsClosed(ws[j], steps[j], i, m)
  }

  /** Once a row has slipped it stays so, over any run, exactly until Mollie reports the end, a
      charge made after the cancel is delivered, or an earlier cancel's call arrives. */
  lemma UnaskedUntil(ws: seq<World>, steps: seq<Step>, a: nat, n: nat, i: SubId, m: MollieSubId)
    requires IsRun(ws, steps) && Sound(ws[0]) && a <= n <= |steps| && Unasked(ws[a], i, m)
    ensures if exists j: nat :: a <= j < n && StopsClosedAt(ws, steps, j, i, m) then m in ws[n].stopped
            else Unasked(ws[n], i, m)
  {
    forall k: nat | k + 1 < |ws| && Unasked(ws[k], i, m)
      ensures if StopsClosedAt(ws, steps, k, i, m) then m in ws[k + 1].stopped else Unasked(ws[k + 1], i, m)
    {
      RunKeeps(ws, steps, k, k);
      UnaskedStep(ws[k], steps[k], i, m);
    }
    forall k: nat | k + 1 < |ws| && m in ws[k].stopped ensures m in ws[k + 1].stopped {
      RunKeeps(ws, steps, k, k + 1);
    }
    var fires := (k: nat) => StopsClosedAt(ws, steps, k, i, m);
    Until(ws, (w: World) => Unasked(w, i, m), (w: World) => m in w.stopped, fires, a, n);
    if j: nat :| a <= j < n && StopsClosedAt(ws, steps, j, i, m) {
      assert fires(j);
    }
  }

  /** A stale cancel, and the death of the last process that owed a closed row's stop, do leave
      it unasked, unless it was asked for otherwise. */
  lemma SlipsAreUnasked(w: World, s: Step, i: SubId, m: MollieSubId)
    requires Sound(w) && RequestsOk(w) && Enabled(w, s) && HasMollie(w, i, m) && m !in w.stopped
    requires if s.Stops? then s.stop == DiesOwing(m) && w.owed[m] == 1 && Closed(w.subs[i]) else Stale(w, s, i) && m !in w.owed
    ensures Unasked(Apply(w, s), i, m)
  {
    var w' := Apply(w, s);
    StepSound(w, s);
    StepAsks(w, s);
    StillHasMollie(w, w', i, m);
    if s.Stops? {
      assert Evolves(w.subs[i], w'.subs[i], w.now);
    } else {
      UpdateDoes(w, s.cancel.c);
      UpdateOwes(w, s.cancel.c);
    }
  }

  lemma UpdateOwes(w: World, c: RequestId)
    requires c in w.cancels
    ensures UpdateCanceled(w, c).owed == w.owed
  {
  }
}
