/** The dunning clock over whole histories: past_due_since is the first failure since the
    last successful renewal. */
module BillingDunning {
  import Calendar
  import opened Prelude
  import opened Billing
  import opened BillingInvariant
  import opened BillingFrames
  import opened BillingKept
  import opened BillingDeliveries
  import opened BillingSteps
  import opened BillingHistory
  import opened BillingTakeover
  import opened BillingTrace

  /** A failed charge of row `i` is recorded. */
  ghost predicate Fails(w: World, s: Step, i: SubId) {
    && s.Charges? && s.charge.ChargeFails? && IsCharge(w, s.charge.p)
    && HasMollie(w, i, w.payments[s.charge.p].mollieSub)
    && !ScheduledFor(w, w.payments[s.charge.p].mollieSub)
  }

  /** A successful renewal of row `i` is recorded while it runs. */
  ghost predicate Renews(w: World, s: Step, i: SubId) {
    && s.Charges? && s.charge.RenewalFinishes? && s.charge.p in w.renewing
    && w.renewing[s.charge.p].sub == i && i in w.subs && Running(w.subs[i])
  }

  /** The dunning state stands still. */
  predicate Calm(r: Row, r': Row) {
    && (r'.status.PastDue? ==> r.status.PastDue? && r'.pastDueSince == r.pastDueSince)
    && (r.status.PastDue? ==> !r'.status.Active?)
  }

  ghost predicate CalmRows(w: World, w': World) {
    forall i | i in w.subs :: i in w'.subs && Calm(w.subs[i], w'.subs[i])
  }

  lemma PromoteCalm(w: World, charged: bool)
    ensures CalmRows(w, Promote(w, charged))
  {
    match PromotionOf(w, charged)
    case NothingDue => SameSubsCalm(w, w);
    case Superseded => SupersedeCalm(w, charged);
    case IndexViolation => SameSubsCalm(w, w);
    case TookOver => TakeOverCalm(w, charged);
  }

  lemma SupersedeCalm(w: World, charged: bool)
    ensures CalmRows(w, Supersede(w, charged))
  {
  }

  lemma TakeOverCalm(w: World, charged: bool)
    requires AnyDue(w, charged)
    ensures CalmRows(w, TakeOver(w, charged))
  {
  }

  lemma SameSubsCalm(w: World, w': World)
    requires w'.subs == w.subs
    ensures CalmRows(w, w')
  {
  }

  lemma OneRowCalm(w: World, id: SubId, r: Row, w': World)
    requires id in w.subs && Calm(w.subs[id], r) && w'.subs == w.subs[id := r]
    ensures CalmRows(w, w')
  {
  }

  lemma CloseUnconfirmedCalm(w: World, id: SubId)
    ensures CalmRows(w, CloseUnconfirmed(w, id))
  {
    if id in w.subs && Unconfirmed(w.subs[id]) {
      OneRowCalm(w, id, Stamp(w.subs[id], w.now).(status := Canceled), CloseUnconfirmed(w, id));
    }
  }

  lemma RefuseCalm(w: World, id: SubId, p: PaymentId, amount: nat)
    ensures CalmRows(w, RefundFirst(CloseUnconfirmed(w, id), p, amount))
  {
    CloseUnconfirmedCalm(w, id);
    RefundRows(CloseUnconfirmed(w, id), p, amount);
  }

  lemma BeginFirstCalm(w: World, p: PaymentId, answer: Option<MollieSubId>)
    requires IsFirst(w, p)
    ensures CalmRows(w, BeginFirst(w, p, answer))
  {
    var i := w.payments[p].sub;
    SameSubsCalm(w, w);
    MarkedRows(w, p, InvoicePaid);
    SameSubsCalm(w, MarkInvoice(w, p, InvoicePaid));
    RefuseCalm(w, i, p, w.payments[p].amount);
    if i in w.subs {
      OneRowCalm(w, i, Cancel(w.subs[i], w.now), w.(subs := w.subs[i := Cancel(w.subs[i], w.now)]));
      if answer.Some? { StartCalm(w, p, i, answer.value); }
    }
  }

  lemma StartCalm(w: World, p: PaymentId, i: SubId, m: MollieSubId)
    requires i in w.subs
    ensures CalmRows(w, StartActivation(w, p, i, m, w.subs[i].status.Scheduled?))
  {
    StartActivationRows(w, p, i, m, w.subs[i].status.Scheduled?);
    SameSubsCalm(w, StartActivation(w, p, i, m, w.subs[i].status.Scheduled?));
  }

  lemma FlipCalm(w: World, p: PaymentId, i: SubId, mollie: MollieSubId, next: Option<Time>)
    requires i in w.subs && w.subs[i].status.Incomplete?
    ensures CalmRows(w, Flip(w, p, i, mollie, next))
  {
  }

  lemma ConfirmCalm(w: World, p: PaymentId, i: SubId, mollie: MollieSubId, next: Option<Time>)
    requires i in w.subs
    ensures CalmRows(w, Confirm(w, p, i, mollie, next))
  {
  }

  lemma AbandonCalm(w: World, p: PaymentId, mollie: MollieSubId, amount: nat)
    ensures CalmRows(w, Abandon(w.(activating := w.activating - {p}), p, mollie, amount))
  {
    RefundRows(w.(activating := w.activating - {p}, stopped := w.stopped + {mollie}), p, amount);
    SameSubsCalm(w, Abandon(w.(activating := w.activating - {p}), p, mollie, amount));
  }

  lemma FinishFirstCalm(w: World, p: PaymentId, next: Option<Time>)
    requires IsFirst(w, p) && p in w.activating
    ensures CalmRows(w, FinishFirst(w, p, next))
  {
    var a := w.activating[p];
    AbandonCalm(w, p, a.mollie, w.payments[p].amount);
    if a.sub in w.subs {
      if a.scheduled {
        ConfirmCalm(w, p, a.sub, a.mollie, next);
      } else if w.subs[a.sub].status.Incomplete? {
        FlipCalm(w, p, a.sub, a.mollie, next);
      }
    }
  }

  lemma FirstStepCalm(w: World, f: FirstStep)
    requires FirstEnabled(w, f)
    ensures CalmRows(w, ApplyFirst(w, f))
  {
    match f
    case FirstSettles(_, _) =>
    case FirstBegins(p, answer) => BeginFirstCalm(w, p, answer);
    case FirstFinishes(p, next) => FinishFirstCalm(w, p, next);
    case FirstTakesOver(_) => PromoteCalm(w, false);
    case FirstCrashes(_) =>
    case FirstFails(_) =>
  }

  lemma CheckoutStepCalm(w: World, c: CheckoutStep, i: SubId)
    requires CheckoutEnabled(w, c) && i in w.subs && i in ApplyCheckout(w, c).subs && i < w.nextId
    ensures Calm(w.subs[i], ApplyCheckout(w, c).subs[i])
  {
    match c
    case ClosesAbandoned =>
    case Inserts(user, customer, plan, price) => InsertSameRow(w, user, customer, plan, price, i);
    case Schedules(user, customer, plan, price, startsAt, predecessor) =>
      ScheduleSameRow(w, user, customer, plan, price, startsAt, predecessor, i);
    case Pays(_, _) =>
    case Invoices(_) =>
    case RollsBack(id) => RollbackSameRow(w, id, i);
    case RollsBackScheduled(id) => RollbackSameRow(w, id, i);
    case ActivatesProject(p, customer, price, mollie, next) => ActivatedSameRow(w, p, customer, price, mollie, next, i);
  }

  lemma CanceledCalm(r: Row, kind: CancelKind, now: Time)
    ensures Calm(r, CanceledRow(r, kind, now))
  {
  }

  lemma CancelStepCalm(w: World, c: CancelStep)
    requires CancelEnabled(w, c)
    ensures CalmRows(w, ApplyCancel(w, c))
  {
    if c.Updates? && w.cancels[c.c].id in w.subs {
      var q := w.cancels[c.c];
      CanceledCalm(w.subs[q.id], q.kind, w.now);
      OneRowCalm(w, q.id, CanceledRow(w.subs[q.id], q.kind, w.now), ApplyCancel(w, c));
    } else {
      SameSubsCalm(w, ApplyCancel(w, c));
    }
  }

  lemma DowngradeCalm(w: World, ids: set<SubId>)
    ensures CalmRows(w, Downgrade(w, ids))
  {
    if w.plan.Pro? && ids != {} {
      ToFreeRows(ExpireAll(w, ids));
    }
  }

  lemma SweepStepCalm(w: World, sweep: SweepStep)
    ensures CalmRows(w, ApplySweep(w, sweep))
  {
    match sweep
    case TakesOver => PromoteCalm(w, false);
    case DropsPastDue => DowngradeCalm(w, PastDueIds(w));
    case DropsLegacy => ToFreeRows(w);
    case DropsEnded => DowngradeCalm(w, EndedIds(w));
  }

  lemma StopStepCalm(w: World, s: StopStep)
    ensures CalmRows(w, ApplyStop(w, s))
  {
    SameSubsCalm(w, ApplyStop(w, s));
  }

  // ----- Charges -----

  lemma TakeOverChargedCalm(w: World, p: PaymentId)
    ensures CalmRows(w, TakeOverCharged(w, p))
  {
    PromoteCalm(CrashRenewal(w, p), true);
  }

  /** What a charge step does to one row's dunning state. */
  ghost predicate DunningStep(w: World, s: Step, w': World, i: SubId)
    requires i in w.subs && i in w'.subs
  {
    var r, r' := w.subs[i], w'.subs[i];
    if Fails(w, s, i) then
      && !r'.status.Active? && !r'.status.Scheduled? && !r'.status.Incomplete?
      && (r'.status.PastDue? ==> r'.pastDueSince == if r.status.PastDue? then r.pastDueSince else Some(w.now))
    else if Renews(w, s, i) then r'.status.Active?
    else Calm(r, r')
  }

  lemma BeginRenewalCalm(w: World, p: PaymentId)
    requires IsCharge(w, p)
    ensures CalmRows(w, BeginRenewal(w, p))
  {
    RenewAnyRows(w, p);
    SameSubsCalm(w, BeginRenewal(w, p));
  }

  lemma FinishRenewalRows(w: World, p: PaymentId, mollieDate: Option<Time>)
    requires p in w.renewing && w.renewing[p].Renewal?
    ensures var i, w' := w.renewing[p].sub, FinishRenewal(w, p, mollieDate);
      if i in w.subs then
        w'.subs == w.subs[i := RenewedRow(w.subs[i], Calendar.RenewalNextCharge(mollieDate, w.renewing[p].previous, w.now))]
      else w'.subs == w.subs
  {
  }

  lemma FinishRenewalDunning(w: World, p: PaymentId, mollieDate: Option<Time>, i: SubId)
    requires p in w.renewing && w.renewing[p].Renewal? && i in w.subs
    ensures i in FinishRenewal(w, p, mollieDate).subs
    ensures DunningStep(w, Charges(RenewalFinishes(p, mollieDate)), FinishRenewal(w, p, mollieDate), i)
  {
    FinishRenewalRows(w, p, mollieDate);
  }

  lemma RecordFailureRow(w: World, p: PaymentId, i: SubId)
    requires IsCharge(w, p) && i in w.subs
    ensures i in RecordFailure(w, p).subs
    ensures RecordFailure(w, p).subs[i] == FailRow(w.subs[i], w.payments[p].mollieSub, w.now)
  {
  }

  lemma ChargeFailedDunning(w: World, p: PaymentId, i: SubId)
    requires Inv(w) && IsCharge(w, p) && i in w.subs
    ensures i in ChargeFailed(w, p).subs && DunningStep(w, Charges(ChargeFails(p)), ChargeFailed(w, p), i)
  {
    assert RowOk(w.subs[i], w.now);
    SameSubsCalm(w, w);
    if !ScheduledFor(w, w.payments[p].mollieSub) {
      RecordFailureRow(w, p, i);
    }
  }

  lemma EndedCalm(w: World, m: MollieSubId, completed: bool)
    ensures CalmRows(w, SubscriptionEnded(w, m, completed))
  {
  }

  lemma ChargeStepDunning(w: World, c: ChargeStep, i: SubId)
    requires Inv(w) && ChargeEnabled(w, c) && i in w.subs
    ensures i in ApplyCharge(w, c).subs && DunningStep(w, Charges(c), ApplyCharge(w, c), i)
  {
    match c
    case MollieCharges(_, _) =>
    case ChargeSettles(_, _) =>
    case ChargeLoads(p) =>
      LoadRows(w, p);
      SameSubsCalm(w, LoadScheduled(w, p));
    case ChargeTakesOver(p) => TakeOverChargedCalm(w, p);
    case RenewalBegins(p) => BeginRenewalCalm(w, p);
    case RenewalFinishes(p, mollieDate) => FinishRenewalDunning(w, p, mollieDate, i);
    case RenewalCrashes(_) =>
    case ChargeFails(p) => ChargeFailedDunning(w, p, i);
    case MollieEnds(m, completed) => EndedCalm(w, m, completed);
  }

  /** Only recorded failures and renewals move the dunning state of a row. */
  lemma StepDunning(w: World, s: Step, i: SubId)
    requires Inv(w) && Enabled(w, s) && i in w.subs && i in Apply(w, s).subs && i < w.nextId
    ensures DunningStep(w, s, Apply(w, s), i)
  {
    match s
    case Tick(_) =>
    case SetCustomer(_, _) =>
    case SetComp(_) =>
    case Transfer(newOwner, lastPaid) => HandOverCalm(w, newOwner, lastPaid);
    case Checkouts(c) => CheckoutStepCalm(w, c, i);
    case FirstPayments(f) => FirstStepCalm(w, f);
    case Charges(c) => ChargeStepDunning(w, c, i);
    case Cancels(c) => CancelStepCalm(w, c);
    case Sweeps(sweep) => SweepStepCalm(w, sweep);
    case Stops(stop) => StopStepCalm(w, stop);
  }

  lemma HandOverCalm(w: World, newOwner: UserId, lastPaid: Option<Time>)
    ensures CalmRows(w, HandOver(w, newOwner, lastPaid))
  {
  }

  lemma InsertedIsNotPastDue(w: World, c: CheckoutStep, i: SubId)
    requires CheckoutEnabled(w, c) && i in ApplyCheckout(w, c).subs && i !in w.subs
    ensures !ApplyCheckout(w, c).subs[i].status.PastDue?
  {
  }

  // ----- Histories -----

  ghost predicate FailsAt(ws: seq<World>, steps: seq<Step>, k: int, i: SubId)
    requires |ws| == |steps| + 1
  {
    0 <= k < |steps| && Fails(ws[k], steps[k], i)
  }

  ghost predicate RenewsAt(ws: seq<World>, steps: seq<Step>, k: int, i: SubId)
    requires |ws| == |steps| + 1
  {
    0 <= k < |steps| && Renews(ws[k], steps[k], i)
  }

  /** Before moment n, every recorded failure was followed by a successful renewal. */
  ghost predicate Recovered(ws: seq<World>, steps: seq<Step>, n: nat, i: SubId)
    requires |ws| == |steps| + 1
  {
    forall j | 0 <= j < n && FailsAt(ws, steps, j, i) :: exists l :: j < l < n && RenewsAt(ws, steps, l, i)
  }

  /** Moment k is the first failure since the last successful renewal, seen from moment n. */
  ghost predicate FirstFailure(ws: seq<World>, steps: seq<Step>, n: nat, i: SubId, k: nat)
    requires |ws| == |steps| + 1
  {
    && k < n && FailsAt(ws, steps, k, i)
    && Recovered(ws, steps, k, i)
    && forall l | k < l < n :: !RenewsAt(ws, steps, l, i)
  }

  /** The dunning state tells the history. */
  ghost predicate Told(ws: seq<World>, steps: seq<Step>, n: nat, i: SubId)
    requires |ws| == |steps| + 1 && n <= |steps|
  {
    i in ws[n].subs ==>
      var r := ws[n].subs[i];
      && (r.status.Incomplete? || r.status.Scheduled? ==> forall j | 0 <= j < n :: !FailsAt(ws, steps, j, i))
      && (r.status.Active? ==> Recovered(ws, steps, n, i))
      && (r.status.PastDue? ==>
            r.pastDueSince.Some? && exists k: nat :: FirstFailure(ws, steps, n, i, k) && ws[k].now == r.pastDueSince.value)
  }

  lemma RecoveredLonger(ws: seq<World>, steps: seq<Step>, n: nat, i: SubId)
    requires |ws| == |steps| + 1 && Recovered(ws, steps, n, i) && !FailsAt(ws, steps, n, i)
    ensures Recovered(ws, steps, n + 1, i)
  {
    forall j | 0 <= j < n + 1 && FailsAt(ws, steps, j, i) ensures exists l :: j < l < n + 1 && RenewsAt(ws, steps, l, i) {
      var l :| j < l < n && RenewsAt(ws, steps, l, i);
    }
  }

  lemma FirstFailureLonger(ws: seq<World>, steps: seq<Step>, n: nat, i: SubId, k: nat)
    requires |ws| == |steps| + 1 && FirstFailure(ws, steps, n, i, k) && !RenewsAt(ws, steps, n, i)
    ensures FirstFailure(ws, steps, n + 1, i, k)
  {
  }

  lemma RenewalRecovers(ws: seq<World>, steps: seq<Step>, n: nat, i: SubId)
    requires |ws| == |steps| + 1 && RenewsAt(ws, steps, n, i)
    ensures Recovered(ws, steps, n + 1, i)
  {
    assert !FailsAt(ws, steps, n, i);
  }

  lemma ToldNext(ws: seq<World>, steps: seq<Step>, n: nat, i: SubId)
    requires |ws| == |steps| + 1 && n < |steps| && Told(ws, steps, n, i)
    requires i in ws[n].subs && i in ws[n + 1].subs
    requires RowOk(ws[n].subs[i], ws[n].now) && Evolves(ws[n].subs[i], ws[n + 1].subs[i], ws[n].now)
    requires DunningStep(ws[n], steps[n], ws[n + 1], i)
    ensures Told(ws, steps, n + 1, i)
  {
    var r, r' := ws[n].subs[i], ws[n + 1].subs[i];
    if Fails(ws[n], steps[n], i) {
      if r'.status.PastDue? {
        if r.status.PastDue? {
          var k: nat :| FirstFailure(ws, steps, n, i, k) && ws[k].now == r.pastDueSince.value;
          FirstFailureLonger(ws, steps, n, i, k);
        } else {
          assert FirstFailure(ws, steps, n + 1, i, n);
        }
      }
    } else if Renews(ws[n], steps[n], i) {
      RenewalRecovers(ws, steps, n, i);
    } else {
      if r'.status.PastDue? {
        var k: nat :| FirstFailure(ws, steps, n, i, k) && ws[k].now == r.pastDueSince.value;
        FirstFailureLonger(ws, steps, n, i, k);
      } else if r'.status.Active? {
        RecoveredLonger(ws, steps, n, i);
      }
    }
  }

  /** Rows with a Mollie subscription never disappear, so a new row has no history. */
  lemma NewRowHasNoHistory(ws: seq<World>, steps: seq<Step>, n: nat, i: SubId, j: nat)
    requires IsRun(ws, steps) && Sound(ws[0]) && j <= n <= |steps| && i !in ws[n].subs
    ensures !FailsAt(ws, steps, j, i)
  {
    RunKeeps(ws, steps, j, n);
  }

  lemma InsertedRow(w: World, s: Step, i: SubId)
    requires Sound(w) && Enabled(w, s) && i in Apply(w, s).subs && i !in w.subs
    ensures !Apply(w, s).subs[i].status.PastDue?
  {
    StepSound(w, s);
    if !s.Checkouts? { OnlyCheckoutsInsert(w, s); }
    InsertedIsNotPastDue(w, s.checkout, i);
  }

  lemma NextIsCovered(ws: seq<World>, steps: seq<Step>, n: nat, i: SubId)
    requires IsRun(ws, steps) && Sound(ws[0]) && n < |steps| && i in ws[n].subs && i in ws[n + 1].subs
    ensures RowOk(ws[n].subs[i], ws[n].now) && Evolves(ws[n].subs[i], ws[n + 1].subs[i], ws[n].now)
    ensures DunningStep(ws[n], steps[n], ws[n + 1], i)
  {
    RunKeeps(ws, steps, n, n + 1);
    StepDunning(ws[n], steps[n], i);
  }

  /** At every moment of a history that starts without subscriptions: a past-due row's
      past_due_since is the time of the first failure recorded since its last successful
      renewal, retries notwithstanding, and an active row has recovered from every failure. */
  lemma {:induction false} DunningTellsHistory(ws: seq<World>, steps: seq<Step>, n: nat, i: SubId)
    requires IsRun(ws, steps) && Sound(ws[0]) && ws[0].subs == map[] && n <= |steps|
    ensures Told(ws, steps, n, i)
  {
    if n > 0 && i in ws[n].subs {
      DunningTellsHistory(ws, steps, n - 1, i);
      if i in ws[n - 1].subs {
        NextIsCovered(ws, steps, n - 1, i);
        ToldNext(ws, steps, n - 1, i);
      } else {
        RunKeeps(ws, steps, n - 1, n - 1);
        InsertedRow(ws[n - 1], steps[n - 1], i);
        forall j | 0 <= j < n ensures !FailsAt(ws, steps, j, i) {
          NewRowHasNoHistory(ws, steps, n - 1, i, j);
        }
      }
    }
  }

  /** The past-due branch of the sweep only takes rows whose first failure since the last
      successful renewal is more than seven days old, with no successful renewal since. */
  lemma GraceIsSevenDays(ws: seq<World>, steps: seq<Step>, n: nat, i: SubId)
    requires IsRun(ws, steps) && Sound(ws[0]) && ws[0].subs == map[] && n <= |steps|
    requires i in PastDueIds(ws[n])
    ensures exists k: nat :: FirstFailure(ws, steps, n, i, k) && ws[k].now < ws[n].now - 7 * 24 * 3600
  {
    DunningTellsHistory(ws, steps, n, i);
    var k: nat :| FirstFailure(ws, steps, n, i, k) && ws[k].now == ws[n].subs[i].pastDueSince.value;
  }
}
