/** Charges end with the row: what closes a row also stops its Mollie subscription, and exactly
    when that fails. */
module BillingStops {
  import opened Prelude
  import opened Runs
  import opened Billing
  import opened BillingInvariant
  import opened BillingFrames
  import opened BillingDeliveries
  import opened BillingSteps
  import opened BillingHistory
  import opened BillingTakeover
  import opened BillingBooks
  import opened BillingTrace

  // ----- What closes a row -----

  /** Asked to stop, or left to be asked after a commit. */
  predicate Handled(w: World, m: MollieSubId) {
    m in w.stopped || m in w.owed
  }

  predicate HandledIfClosing(r: Row, r': Row, w': World) {
    !Closed(r) && Closed(r') && r'.mollieSub.Some? ==> Handled(w', r'.mollieSub.value)
  }

  ghost predicate HandlesRows(w: World, w': World) {
    forall i | i in w.subs && i in w'.subs :: HandledIfClosing(w.subs[i], w'.subs[i], w')
  }

  lemma SameRowsHandled(w: World, w': World)
    requires w'.subs == w.subs
    ensures HandlesRows(w, w')
  {
  }

  lemma OneRowHandled(w: World, id: SubId, r: Row, w': World)
    requires id in w.subs && w'.subs == w.subs[id := r] && HandledIfClosing(w.subs[id], r, w')
    ensures HandlesRows(w, w')
  {
  }

  lemma Among(subs: map<SubId, Row>, ids: set<SubId>, i: SubId)
    requires i in ids && i in subs && subs[i].mollieSub.Some?
    ensures subs[i].mollieSub.value in MollieSubs(subs, ids)
  {
  }

  lemma HandOverHandles(w: World, newOwner: UserId, lastPaid: Option<Time>)
    ensures HandlesRows(w, HandOver(w, newOwner, lastPaid))
  {
    var w' := HandOver(w, newOwner, lastPaid);
    forall i | i in w.subs ensures HandledIfClosing(w.subs[i], w'.subs[i], w') {
      if !Closed(w.subs[i]) && w.subs[i].mollieSub.Some? {
        Among(w.subs, (set j | j in w.subs && !Closed(w.subs[j])), i);
      }
    }
  }

  lemma TakeOverHandles(w: World, charged: bool)
    requires AnyDue(w, charged)
    ensures HandlesRows(w, TakeOver(w, charged))
  {
    var w' := TakeOver(w, charged);
    forall i | i in w.subs ensures HandledIfClosing(w.subs[i], w'.subs[i], w') {
      if Running(w.subs[i]) && w.subs[i].mollieSub.Some? {
        Among(w.subs, RunningIds(w.subs), i);
      }
    }
  }

  lemma SupersedeHandles(w: World, charged: bool)
    ensures HandlesRows(w, Supersede(w, charged))
  {
    var w' := Supersede(w, charged);
    forall i | i in w.subs ensures HandledIfClosing(w.subs[i], w'.subs[i], w') {
      if Due(w.subs[i], w.now, charged) {
        Among(w.subs, DueIds(w, charged), i);
      }
    }
  }

  lemma PromoteHandles(w: World, charged: bool)
    ensures HandlesRows(w, Promote(w, charged))
  {
    match PromotionOf(w, charged)
    case NothingDue => SameRowsHandled(w, w);
    case Superseded => SupersedeHandles(w, charged);
    case IndexViolation => SameRowsHandled(w, w);
    case TookOver => TakeOverHandles(w, charged);
  }

  lemma DowngradeHandles(w: World, ids: set<SubId>)
    ensures HandlesRows(w, Downgrade(w, ids))
  {
    if !w.plan.Pro? || ids == {} {
      SameRowsHandled(w, w);
    } else {
      var w1 := ExpireAll(w, ids);
      ToFreeRows(w1);
      ToFreeAccumulates(w1);
      forall i | i in w.subs ensures HandledIfClosing(w.subs[i], w1.subs[i], w1) {
        if i in ids && w.subs[i].mollieSub.Some? {
          Among(w.subs, ids, i);
        }
      }
    }
  }

  lemma EndedHandles(w: World, m: MollieSubId, completed: bool)
    ensures HandlesRows(w, SubscriptionEnded(w, m, completed))
  {
  }

  // ----- Deliveries -----

  lemma BeginFirstHandles(w: World, p: PaymentId, answer: Option<MollieSubId>)
    requires Inv(w) && FirstEnabled(w, FirstBegins(p, answer))
    ensures HandlesRows(w, BeginFirst(w, p, answer))
  {
    BeginFirstRows(w, p, answer);
    BeginFirstBooks(w, p, answer);
  }

  lemma ConfirmHandles(w: World, p: PaymentId, i: SubId, mollie: MollieSubId, next: Option<Time>)
    requires i in w.subs && !Closed(w.subs[i])
    ensures HandlesRows(w, Confirm(w, p, i, mollie, next))
  {
  }

  lemma FlipHandles(w: World, p: PaymentId, i: SubId, mollie: MollieSubId, next: Option<Time>)
    requires i in w.subs
    ensures HandlesRows(w, Flip(w, p, i, mollie, next))
  {
    if p in w.invoices {
    }
  }

  lemma FinishFirstHandles(w: World, p: PaymentId, next: Option<Time>)
    requires IsFirst(w, p) && p in w.activating
    ensures HandlesRows(w, FinishFirst(w, p, next))
  {
    var a := w.activating[p];
    if Abandons(w, p) {
      RefundRows(w.(activating := w.activating - {p}, stopped := w.stopped + {a.mollie}), p, w.payments[p].amount);
      SameRowsHandled(w, Abandon(w.(activating := w.activating - {p}), p, a.mollie, w.payments[p].amount));
    } else if a.scheduled {
      ConfirmHandles(w, p, a.sub, a.mollie, next);
    } else {
      FlipHandles(w, p, a.sub, a.mollie, next);
    }
  }

  lemma FirstFailedHandles(w: World, p: PaymentId)
    requires IsFirst(w, p) && EachRowOk(w.subs, w.now)
    ensures HandlesRows(w, FirstFailed(w, p))
  {
    var i := w.payments[p].sub;
    if i in w.subs && (w.subs[i].status.Incomplete? || (w.subs[i].status.Scheduled? && w.subs[i].mollieSub.None?)) {
      assert RowOk(w.subs[i], w.now);
      OneRowHandled(w, i, Cancel(w.subs[i], w.now), FirstFailed(w, p));
    } else {
      SameRowsHandled(w, FirstFailed(w, p));
    }
  }

  lemma FirstStepHandles(w: World, f: FirstStep)
    requires Inv(w) && FirstEnabled(w, f)
    ensures HandlesRows(w, ApplyFirst(w, f))
  {
    match f
    case FirstSettles(_, _) =>
    case FirstBegins(p, answer) => BeginFirstHandles(w, p, answer);
    case FirstFinishes(p, next) => FinishFirstHandles(w, p, next);
    case FirstTakesOver(_) => PromoteHandles(w, false);
    case FirstCrashes(_) =>
    case FirstFails(p) => FirstFailedHandles(w, p);
  }

  lemma TakeOverChargedHandles(w: World, p: PaymentId)
    ensures HandlesRows(w, TakeOverCharged(w, p))
  {
    PromoteHandles(CrashRenewal(w, p), true);
  }

  lemma RecordFailureHandles(w: World, p: PaymentId)
    requires IsCharge(w, p)
    ensures HandlesRows(w, RecordFailure(w, p))
  {
    var w' := RecordFailure(w, p);
    assert forall i | i in w.subs :: i in w'.subs && w'.subs[i] == FailRow(w.subs[i], w.payments[p].mollieSub, w.now);
  }

  lemma FinishRenewalHandles(w: World, p: PaymentId, mollieDate: Option<Time>)
    requires p in w.renewing && w.renewing[p].Renewal?
    ensures HandlesRows(w, FinishRenewal(w, p, mollieDate))
  {
    var i, w' := w.renewing[p].sub, FinishRenewal(w, p, mollieDate);
    if i in w.subs {
      OneRowHandled(w, i, w'.subs[i], w');
    }
  }

  lemma ChargeStepHandles(w: World, c: ChargeStep)
    requires ChargeEnabled(w, c)
    ensures HandlesRows(w, ApplyCharge(w, c))
  {
    match c
    case MollieCharges(_, _) =>
    case ChargeSettles(_, _) =>
    case ChargeLoads(p) =>
      LoadRows(w, p);
      SameRowsHandled(w, LoadScheduled(w, p));
    case ChargeTakesOver(p) => TakeOverChargedHandles(w, p);
    case RenewalBegins(p) =>
      RenewAnyRows(w, p);
      SameRowsHandled(w, BeginRenewal(w, p));
    case RenewalFinishes(p, mollieDate) => FinishRenewalHandles(w, p, mollieDate);
    case RenewalCrashes(_) =>
    case ChargeFails(p) =>
      SameRowsHandled(w, w);
      RecordFailureHandles(w, p);
    case MollieEnds(m, completed) => EndedHandles(w, m, completed);
  }

  lemma CheckoutStepHandles(w: World, c: CheckoutStep, i: SubId)
    requires CheckoutEnabled(w, c) && i in w.subs && i in ApplyCheckout(w, c).subs && i < w.nextId
    ensures HandledIfClosing(w.subs[i], ApplyCheckout(w, c).subs[i], ApplyCheckout(w, c))
  {
    match c
    case ClosesAbandoned =>
    case Inserts(_, _, _, _) =>
    case Schedules(_, _, _, _, _, _) =>
    case Pays(_, _) =>
    case Invoices(_) =>
    case RollsBack(_) =>
    case RollsBackScheduled(_) =>
    case ActivatesProject(p, _, _, _, _) =>
      if HasLive(w) || p in w.invoices {
      }
  }

  lemma SweepStepHandles(w: World, sweep: SweepStep)
    ensures HandlesRows(w, ApplySweep(w, sweep))
  {
    match sweep
    case TakesOver => PromoteHandles(w, false);
    case DropsPastDue => DowngradeHandles(w, PastDueIds(w));
    case DropsLegacy =>
      ToFreeRows(w);
      SameRowsHandled(w, SweepLegacy(w));
    case DropsEnded => DowngradeHandles(w, EndedIds(w));
  }

  // ----- Cancels -----

  /** What requests have read is still so, what they asked is asked, and only stops of
      subscriptions on rows are owed. */
  ghost predicate RequestsOk(w: World) {
    && (forall c | c in w.cancels :: RequestOk(w, c))
    && (forall m | m in w.owed :: exists i :: HasMollie(w, i, m))
  }

  lemma StillHasMollie(w: World, w': World, i: SubId, m: MollieSubId)
    requires Follows(w, w') && HasMollie(w, i, m)
    ensures HasMollie(w', i, m)
  {
    assert i in w'.subs && Evolves(w.subs[i], w'.subs[i], w.now);
  }

  lemma OwedOnRows(w: World, s: Step, m: MollieSubId)
    requires Sound(w) && RequestsOk(w) && Enabled(w, s) && m in Apply(w, s).owed
    ensures exists i :: HasMollie(Apply(w, s), i, m)
  {
    var w' := Apply(w, s);
    StepSound(w, s);
    StepAsks(w, s);
    if m in w.owed {
      var i :| HasMollie(w, i, m);
      StillHasMollie(w, w', i, m);
    } else {
      var i := OwedIsOpen(w, s, m);
      StillHasMollie(w, w', i, m);
    }
  }

  predicate RequestOk(w: World, c: RequestId)
    requires c in w.cancels
  {
    var q := w.cancels[c];
    && q.id < w.nextId
    && (q.mollie.Some? ==> HasMollie(w, q.id, q.mollie.value))
    && (q.mollie.Some? && !q.phase.HasRead? ==> q.mollie.value in w.stopped)
  }

  lemma SameRequestOk(w: World, w': World, c: RequestId)
    requires c in w.cancels && RequestOk(w, c) && c in w'.cancels && w'.cancels[c] == w.cancels[c]
    requires Follows(w, w') && w.stopped <= w'.stopped
    ensures RequestOk(w', c)
  {
    if w.cancels[c].mollie.Some? {
      StillHasMollie(w, w', w.cancels[c].id, w.cancels[c].mollie.value);
    }
  }

  lemma CancelRequestOk(w: World, s: CancelStep, c: RequestId)
    requires RowsOk(w) && CancelEnabled(w, s) && (c in w.cancels ==> RequestOk(w, c)) && c in ApplyCancel(w, s).cancels
    requires Follows(w, ApplyCancel(w, s))
    ensures RequestOk(ApplyCancel(w, s), c)
  {
    if c in w.cancels && w.cancels[c].mollie.Some? {
      StillHasMollie(w, ApplyCancel(w, s), w.cancels[c].id, w.cancels[c].mollie.value);
    }
    match s
    case Reads(_, _, _) =>
    case Asks(_) =>
    case Updates(_) =>
  }

  lemma RequestOf(w: World, s: Step, c: RequestId)
    requires Sound(w) && RequestsOk(w) && Enabled(w, s) && c in Apply(w, s).cancels
    ensures RequestOk(Apply(w, s), c)
  {
    StepSound(w, s);
    StepAsks(w, s);
    if s.Cancels? {
      CancelRequestOk(w, s.cancel, c);
    } else {
      SameRequestOk(w, Apply(w, s), c);
    }
  }

  lemma StepKeepsRequests(w: World, s: Step)
    requires Sound(w) && RequestsOk(w) && Enabled(w, s)
    ensures RequestsOk(Apply(w, s))
  {
    var w' := Apply(w, s);
    forall c | c in w'.cancels ensures RequestOk(w', c) {
      RequestOf(w, s, c);
    }
    forall m | m in w'.owed ensures exists i :: HasMollie(w', i, m) {
      OwedOnRows(w, s, m);
    }
  }

  /** A cancel closes row `i`, having read it before it got the Mollie subscription it has now. */
  predicate Stale(w: World, s: Step, i: SubId) {
    && s.Cancels? && s.cancel.Updates? && s.cancel.c in w.cancels
    && w.cancels[s.cancel.c].id == i && w.cancels[s.cancel.c].mollie.None?
    && i in w.subs && w.subs[i].mollieSub.Some? && !Closed(w.subs[i])
    && Closed(CanceledRow(w.subs[i], w.cancels[s.cancel.c].kind, w.now))
  }

  lemma CancelStepHandles(w: World, c: CancelStep, i: SubId)
    requires RequestsOk(w) && CancelEnabled(w, c) && i in w.subs && i in ApplyCancel(w, c).subs
    requires !Stale(w, Cancels(c), i)
    ensures HandledIfClosing(w.subs[i], ApplyCancel(w, c).subs[i], ApplyCancel(w, c))
  {
    match c
    case Reads(_, _, _) =>
    case Asks(_) =>
    case Updates(q) =>
      if w.cancels[q].id == i && w.cancels[q].mollie.Some? {
        assert RequestOk(w, q);
      }
  }

  lemma StopStepHandles(w: World, t: StopStep)
    ensures HandlesRows(w, ApplyStop(w, t))
  {
    StopStepRows(w, t);
  }

  /** Whichever step closes a row stops its Mollie subscription or owes the stop, but for a
      cancel that had not seen it. */
  lemma StepStops(w: World, s: Step, i: SubId)
    requires Sound(w) && RequestsOk(w) && Enabled(w, s) && i in w.subs && i in Apply(w, s).subs && !Stale(w, s, i)
    ensures HandledIfClosing(w.subs[i], Apply(w, s).subs[i], Apply(w, s))
  {
    match s
    case Tick(_) =>
    case SetCustomer(_, _) =>
    case SetComp(_) =>
    case Transfer(newOwner, lastPaid) => HandOverHandles(w, newOwner, lastPaid);
    case Checkouts(c) => CheckoutStepHandles(w, c, i);
    case FirstPayments(f) => FirstStepHandles(w, f);
    case Charges(c) => ChargeStepHandles(w, c);
    case Cancels(c) => CancelStepHandles(w, c, i);
    case Sweeps(sweep) => SweepStepHandles(w, sweep);
    case Stops(t) => StopStepHandles(w, t);
  }

  lemma InsertedIsOpen(w: World, c: CheckoutStep, i: SubId)
    requires CheckoutEnabled(w, c) && i in ApplyCheckout(w, c).subs && i !in w.subs
    ensures !Closed(ApplyCheckout(w, c).subs[i])
  {
  }

  // ----- Runs -----

  /** A step after which the closed row `i` may go on charging: a cancel that had not seen its
      Mollie subscription, or the death of the last process that still owed the stop. */
  predicate Slips(w: World, s: Step, i: SubId) {
    || Stale(w, s, i)
    || (s.Stops? && s.stop.DiesOwing? && w.owed[s.stop.m] == 1 && HasMollie(w, i, s.stop.m))
  }

  ghost predicate SlippedBefore(ws: seq<World>, steps: seq<Step>, n: nat, i: SubId)
    requires |ws| == |steps| + 1 && n <= |steps|
  {
    exists k: nat :: k < n && Slips(ws[k], steps[k], i)
  }

  predicate StoppedIfClosed(w: World, i: SubId) {
    i in w.subs && Closed(w.subs[i]) && w.subs[i].mollieSub.Some? ==> Handled(w, w.subs[i].mollieSub.value)
  }

  lemma InsertedRowIsOpen(w: World, s: Step, i: SubId)
    requires Sound(w) && Enabled(w, s) && i in Apply(w, s).subs && i !in w.subs
    ensures !Closed(Apply(w, s).subs[i])
  {
    StepSound(w, s);
    if !s.Checkouts? { OnlyCheckoutsInsert(w, s); }
    InsertedIsOpen(w, s.checkout, i);
  }

  lemma StepKeepsStopped(w: World, s: Step, i: SubId)
    requires Sound(w) && RequestsOk(w) && Enabled(w, s) && StoppedIfClosed(w, i) && !Slips(w, s, i)
    ensures StoppedIfClosed(Apply(w, s), i)
  {
    var w' := Apply(w, s);
    if i in w'.subs {
      if i in w.subs {
        if Closed(w.subs[i]) {
          ClosedStaysHandled(w, s, i);
        } else {
          StepStops(w, s, i);
        }
      } else {
        InsertedRowIsOpen(w, s, i);
      }
    }
  }

  lemma ClosedStaysHandled(w: World, s: Step, i: SubId)
    requires Sound(w) && Enabled(w, s) && i in w.subs && i in Apply(w, s).subs && Closed(w.subs[i])
    requires StoppedIfClosed(w, i) && !Slips(w, s, i)
    ensures StoppedIfClosed(Apply(w, s), i)
  {
    StepAsks(w, s);
    assert !Records(w, s, i);
  }

  lemma RunKeepsRequests(ws: seq<World>, steps: seq<Step>, n: nat)
    requires IsRun(ws, steps) && NeverBilled(ws[0]) && n <= |steps|
    ensures Sound(ws[n]) && RequestsOk(ws[n])
  {
    NeverBilledSound(ws[0]);
    var ok := (w: World) => Sound(w) && RequestsOk(w);
    forall k: nat | k + 1 < |ws| && ok(ws[k]) ensures ok(ws[k + 1]) {
      StepSound(ws[k], steps[k]);
      StepKeepsRequests(ws[k], steps[k]);
    }
    Along(ws, ok, (w: World, w': World) => true, n, n);
  }

  /** Over any run from a project never billed: every closed subscription that Mollie knows of
      was asked to stop there, or reported ended, or is about to be asked — unless the row slipped. */
  lemma {:induction false} ClosedAreStoppedUnlessSlipped(ws: seq<World>, steps: seq<Step>, n: nat, i: SubId)
    requires IsRun(ws, steps) && NeverBilled(ws[0]) && n <= |steps|
    ensures StoppedIfClosed(ws[n], i) || SlippedBefore(ws, steps, n, i)
  {
    if n > 0 {
      ClosedAreStoppedUnlessSlipped(ws, steps, n - 1, i);
      RunKeepsRequests(ws, steps, n - 1);
      if StoppedIfClosed(ws[n - 1], i) && !Slips(ws[n - 1], steps[n - 1], i) {
        StepKeepsStopped(ws[n - 1], steps[n - 1], i);
      }
    }
  }
}
