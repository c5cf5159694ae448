/** Runs from a project never billed that show the exceptions are real. */
module BillingScenarios {
  import opened Prelude
  import opened Billing
  import opened BillingInvariant
  import opened BillingSteps
  import opened BillingHistory
  import opened BillingTakeover
  import opened BillingBooks
  import opened BillingTrace
  import opened BillingStops
  import opened BillingCancels
  import opened BillingFirstPayments
  import opened BillingRecovery
  import opened BillingProgress
  import opened BillingPasses
  import opened BillingStrands

  /** One more step. */
  lemma Continue(ws: seq<World>, steps: seq<Step>, s: Step) returns (ws': seq<World>, steps': seq<Step>)
    requires IsRun(ws, steps) && Enabled(ws[|steps|], s)
    ensures IsRun(ws', steps') && |steps'| == |steps| + 1 && ws'[..|ws|] == ws && steps'[..|steps|] == steps
    ensures steps'[|steps|] == s && ws'[|steps'|] == Apply(ws[|steps|], s)
  {
    ws', steps' := ws + [Apply(ws[|steps|], s)], steps + [s];
  }

  /** An active project whose owner has a Mollie customer of their own. */
  predicate Opening(w: World, customer: Customer) {
    && NeverBilled(w) && w.projectActive
    && w.owner in w.customerOf && w.customerOf[w.owner] == customer
    && forall u | u in w.customerOf && u < w.owner :: w.customerOf[u] != customer
  }

  function Checkout(customer: Customer, price: nat): Row {
    NewRow(Incomplete, customer, Pro, price)
  }

  /** A first checkout, paid, whose delivery has just created the Mollie subscription. */
  function Delivering(w: World, customer: Customer, price: nat, p: PaymentId, m: MollieSubId): World {
    var i := w.nextId;
    w.(subs := map[i := Checkout(customer, price)], nextId := i + 1,
       payments := map[p := First(i, customer, price, Paid)],
       invoices := map[p := Invoice(i, price, Pending, None)],
       created := map[i := m], activating := map[p := Activation(i, m, false)])
  }

  function Invoiced(w: World, customer: Customer, price: nat, p: PaymentId, state: PaymentState): World {
    var i := w.nextId;
    w.(subs := map[i := Checkout(customer, price)], nextId := i + 1,
       payments := map[p := First(i, customer, price, state)],
       invoices := map[p := Invoice(i, price, Pending, None)])
  }

  lemma OpenCheckout(w: World, customer: Customer, price: nat, p: PaymentId)
    returns (ws: seq<World>, steps: seq<Step>)
    requires Opening(w, customer)
    ensures IsRun(ws, steps) && ws[0] == w && |steps| == 3
    ensures ws[3] == Invoiced(w, customer, price, p, Open)
  {
    var i := w.nextId;
    ws, steps := [w], [];
    ws, steps := Continue(ws, steps, Checkouts(Inserts(w.owner, customer, Pro, price)));
    var w1 := w.(subs := map[i := Checkout(customer, price)], nextId := i + 1);
    assert ws[1] == w1;
    ws, steps := Continue(ws, steps, Checkouts(Pays(p, i)));
    var w2 := w1.(payments := map[p := First(i, customer, price, Open)]);
    assert ws[2] == w2;
    ws, steps := Continue(ws, steps, Checkouts(Invoices(p)));
  }

  lemma PaidCheckout(w: World, customer: Customer, price: nat, p: PaymentId, m: MollieSubId)
    returns (ws: seq<World>, steps: seq<Step>)
    requires Opening(w, customer)
    ensures IsRun(ws, steps) && ws[0] == w && |steps| == 5
    ensures ws[5] == Delivering(w, customer, price, p, m)
  {
    ws, steps := OpenCheckout(w, customer, price, p);
    ws, steps := Continue(ws, steps, FirstPayments(FirstSettles(p, true)));
    assert ws[4] == Invoiced(w, customer, price, p, Paid);
    ws, steps := Continue(ws, steps, FirstPayments(FirstBegins(p, Some(m))));
    DeliveryBegins(Invoiced(w, customer, price, p, Paid), p, m);
  }

  lemma DeliveryBegins(w: World, p: PaymentId, m: MollieSubId)
    requires IsFirst(w, p) && w.payments[p].sub in w.subs
    requires w.subs[w.payments[p].sub] == Checkout(w.payments[p].customer, w.subs[w.payments[p].sub].price)
    requires w.owner in w.customerOf && w.customerOf[w.owner] == w.payments[p].customer
    requires forall u | u in w.customerOf && u < w.owner :: w.customerOf[u] != w.payments[p].customer
    ensures BeginFirst(w, p, Some(m)) == StartActivation(w, p, w.payments[p].sub, m, false)
  {
    PayerMeans(w, w.subs[w.payments[p].sub], w.payments[p].customer);
  }

  /** A cancel reads the open checkout just before its delivery goes live. */
  lemma ReadThenLive(w: World, customer: Customer, price: nat, p: PaymentId, m: MollieSubId,
                     c: RequestId, mode: CancelKind, next: Option<Time>)
    returns (ws: seq<World>, steps: seq<Step>)
    requires Opening(w, customer) && (mode.ForDeletion? || mode.Immediately?)
    ensures IsRun(ws, steps) && ws[0] == w && |steps| == 7
    ensures LiveUnseen(ws[7], w.nextId, m, p, c) && ws[7].cancels[c] == Request(w.nextId, None, mode, HasRead)
  {
    var i := w.nextId;
    ws, steps := PaidCheckout(w, customer, price, p, m);
    ws, steps := Continue(ws, steps, Cancels(Reads(c, i, mode)));
    var w6 := Delivering(w, customer, price, p, m).(cancels := map[c := Request(i, None, mode, HasRead)]);
    assert ws[6] == w6;
    ws, steps := Continue(ws, steps, FirstPayments(FirstFinishes(p, next)));
    GoesLive(w6, p, i, m, next);
  }

  /** Paid and running, with a cancel on its way that has not seen the Mollie subscription. */
  predicate LiveUnseen(w: World, i: SubId, m: MollieSubId, p: PaymentId, c: RequestId) {
    && HasMollie(w, i, m) && w.subs[i].status.Active? && !Handled(w, m)
    && c in w.cancels && w.cancels[c].id == i && w.cancels[c].mollie.None?
    && p in w.invoices && w.invoices[p].status.InvoicePaid? && p !in w.refunds
  }

  /** ... and closes the row: the customer has paid, and nobody stops the Mollie subscription. */
  lemma StaleCancelRun(w: World, customer: Customer, price: nat, p: PaymentId, m: MollieSubId,
                       c: RequestId, mode: CancelKind, next: Option<Time>)
    returns (ws: seq<World>, steps: seq<Step>)
    requires Opening(w, customer) && (mode.ForDeletion? || mode.Immediately?)
    ensures IsRun(ws, steps) && ws[0] == w
    ensures var w' := ws[|steps|];
      Unasked(w', w.nextId, m) && p in w'.invoices && w'.invoices[p].status.InvoicePaid? && p !in w'.refunds
  {
    var i := w.nextId;
    ws, steps := ReadThenLive(w, customer, price, p, m, c, mode, next);
    var w7 := ws[7];
    ws, steps := Continue(ws, steps, Cancels(Asks(c)));
    var w8 := w7.(cancels := w7.cancels[c := Request(i, None, mode, HasAsked)]);
    assert ws[8] == w8;
    ws, steps := Continue(ws, steps, Cancels(Updates(c)));
    RunKeepsRequests(ws, steps, 8);
    StaleUpdate(w8, c, i, m);
  }

  lemma StaleUpdate(w: World, c: RequestId, i: SubId, m: MollieSubId)
    requires Sound(w) && RequestsOk(w) && c in w.cancels && HasMollie(w, i, m) && w.subs[i].status.Active?
    requires w.cancels[c].id == i && w.cancels[c].mollie.None? && w.cancels[c].phase.HasAsked?
    requires (w.cancels[c].kind.ForDeletion? || w.cancels[c].kind.Immediately?) && !Handled(w, m)
    ensures var w' := UpdateCanceled(w, c); Unasked(w', i, m) && w'.refunds == w.refunds && w'.invoices == w.invoices
  {
    SlipsAreUnasked(w, Cancels(Updates(c)), i, m);
    UpdateTables(w, c);
  }

  lemma GoesLive(w: World, p: PaymentId, i: SubId, m: MollieSubId, next: Option<Time>)
    requires IsFirst(w, p) && p in w.activating && w.activating[p] == Activation(i, m, false) && p in w.invoices
    requires i in w.subs && w.subs[i].status.Incomplete?
    ensures var w' := FinishFirst(w, p, next);
      && w'.stopped == w.stopped && w'.owed == w.owed && w'.cancels == w.cancels && w'.refunds == w.refunds
      && HasMollie(w', i, m) && w'.subs[i].status.Active?
      && p in w'.invoices && w'.invoices[p].status.InvoicePaid?
  {
  }

  lemma UpdateTables(w: World, c: RequestId)
    requires c in w.cancels
    ensures UpdateCanceled(w, c).refunds == w.refunds && UpdateCanceled(w, c).invoices == w.invoices
  {
  }

  /** The checkout of a delivery that died, after a transfer. */
  function Transferred(w: World, customer: Customer, price: nat, p: PaymentId, m: MollieSubId, newOwner: UserId): World {
    var w6 := Delivering(w, customer, price, p, m).(activating := map[]);
    w6.(owner := newOwner, subs := map[w.nextId := Cancel(Checkout(customer, price), w.now)])
  }

  lemma TransferredRun(w: World, customer: Customer, price: nat, p: PaymentId, m: MollieSubId, newOwner: UserId)
    returns (ws: seq<World>, steps: seq<Step>)
    requires Opening(w, customer)
    ensures IsRun(ws, steps) && ws[0] == w && |steps| == 7 && ws[7] == Transferred(w, customer, price, p, m, newOwner)
  {
    ws, steps := PaidCheckout(w, customer, price, p, m);
    ws, steps := Continue(ws, steps, FirstPayments(FirstCrashes(p)));
    var w6 := Delivering(w, customer, price, p, m).(activating := map[]);
    assert ws[6] == w6;
    ws, steps := Continue(ws, steps, Transfer(newOwner, None));
    TransferOfCheckout(w6, newOwner, w.nextId);
  }

  lemma TransferOfCheckout(w: World, newOwner: UserId, i: SubId)
    requires w.subs.Keys == {i} && w.subs[i].status.Incomplete? && w.subs[i].mollieSub.None?
    ensures HandOver(w, newOwner, None) == w.(owner := newOwner, subs := map[i := Cancel(w.subs[i], w.now)])
  {
    var w' := HandOver(w, newOwner, None);
    assert MollieSubs(w.subs, set j | j in w.subs && !Closed(w.subs[j])) == {};
    assert w'.subs == map[i := Cancel(w.subs[i], w.now)];
  }

  /** A delivery dies after creating the Mollie subscription, the project is transferred, and the
      redelivery gives the money back: the subscription is off every row, and `OffRowsForGood`. */
  lemma CrashLeavesUntracked(w: World, customer: Customer, price: nat, p: PaymentId, m: MollieSubId, newOwner: UserId)
    returns (ws: seq<World>, steps: seq<Step>)
    requires Opening(w, customer) && price > 0
    ensures IsRun(ws, steps) && ws[0] == w
    ensures GivenBack(ws[|steps|], p) && OffRows(ws[|steps|], w.nextId, m) && m !in ws[|steps|].stopped
  {
    ws, steps := TransferredRun(w, customer, price, p, m, newOwner);
    var w7 := ws[7];
    ws, steps := Continue(ws, steps, FirstPayments(FirstBegins(p, Some(m))));
    RunKeepsRequests(ws, steps, 7);
    ClosedIsLost(w7, p, m);
  }

  lemma ClosedIsLost(w: World, p: PaymentId, m: MollieSubId)
    requires Sound(w) && RequestsOk(w) && Tracked(w, p) && p !in w.activating
    requires var i := w.payments[p].sub; Closed(w.subs[i]) && w.subs[i].mollieSub.None? && i in w.created && w.created[i] == m
    requires m !in w.stopped
    ensures var w' := BeginFirst(w, p, Some(m)); GivenBack(w', p) && OffRows(w', w.payments[p].sub, m) && m !in w'.stopped
  {
    RedeliveryRecoversExactlyWhen(w, p, m, None);
    BeginOutcome(w, p, Some(m));
  }

  /** A first checkout that went live. */
  function Subscribed(w: World, customer: Customer, price: nat, p: PaymentId, m: MollieSubId, next: Option<Time>): World {
    var i := w.nextId;
    Delivering(w, customer, price, p, m).(
      activating := map[], plan := Pro, graceUntil := None,
      subs := map[i := Checkout(customer, price).(mollieSub := Some(m), status := Active, startedAt := Some(w.now), nextChargeAt := next)],
      invoices := map[p := Invoice(i, price, InvoicePaid, Some(w.now))])
  }

  lemma SubscribedRun(w: World, customer: Customer, price: nat, p: PaymentId, m: MollieSubId, next: Option<Time>)
    returns (ws: seq<World>, steps: seq<Step>)
    requires Opening(w, customer)
    ensures IsRun(ws, steps) && ws[0] == w && |steps| == 6 && ws[6] == Subscribed(w, customer, price, p, m, next)
  {
    ws, steps := PaidCheckout(w, customer, price, p, m);
    ws, steps := Continue(ws, steps, FirstPayments(FirstFinishes(p, next)));
    var w5, w6 := Delivering(w, customer, price, p, m), Subscribed(w, customer, price, p, m, next);
    assert FinishFirst(w5, p, next) == Flip(w5, p, w.nextId, m, next);
    assert Flip(w5, p, w.nextId, m, next) == w6;
  }

  /** ... with a cancel at the end of its period that has stopped the Mollie subscription. */
  function Stopping(w: World, customer: Customer, price: nat, p: PaymentId, m: MollieSubId,
                    c: RequestId, next: Option<Time>): World {
    Subscribed(w, customer, price, p, m, next).(
      cancels := map[c := Request(w.nextId, Some(m), AtPeriodEnd, HasAsked)], stopped := {m})
  }

  lemma StoppingRun(w: World, customer: Customer, price: nat, p: PaymentId, m: MollieSubId, c: RequestId, next: Option<Time>)
    returns (ws: seq<World>, steps: seq<Step>)
    requires Opening(w, customer)
    ensures IsRun(ws, steps) && ws[0] == w && |steps| == 8 && ws[8] == Stopping(w, customer, price, p, m, c, next)
  {
    var i := w.nextId;
    ws, steps := SubscribedRun(w, customer, price, p, m, next);
    var w6 := Subscribed(w, customer, price, p, m, next);
    ws, steps := Continue(ws, steps, Cancels(Reads(c, i, AtPeriodEnd)));
    assert ws[7] == w6.(cancels := map[c := Request(i, Some(m), AtPeriodEnd, HasRead)]);
    ws, steps := Continue(ws, steps, Cancels(Asks(c)));
  }

  /** A subscription is cancelled at the end of its period, and Mollie reports the cancel: within
      the period the project is stranded on Pro, and `StrandedForGood`. */
  lemma ReportedCancelRun(w: World, customer: Customer, price: nat, p: PaymentId, m: MollieSubId,
                          c: RequestId, next: Option<Time>)
    returns (ws: seq<World>, steps: seq<Step>)
    requires Opening(w, customer)
    ensures IsRun(ws, steps) && ws[0] == w && Stranded(ws[|steps|]) && ws[|steps|].now == w.now
  {
    var w8 := Stopping(w, customer, price, p, m, c, next);
    ws, steps := StoppingRun(w, customer, price, p, m, c, next);
    ws, steps := CancelThenReport(ws, steps, w8, c, w.nextId, m);
  }

  lemma CancelThenReport(ws: seq<World>, steps: seq<Step>, w: World, c: RequestId, i: SubId, m: MollieSubId)
    returns (ws': seq<World>, steps': seq<Step>)
    requires IsRun(ws, steps) && ws[|steps|] == w && c in w.cancels && w.plan.Pro? && w.graceUntil.None?
    requires w.cancels[c] == Request(i, Some(m), AtPeriodEnd, HasAsked) && w.subs.Keys == {i} && w.subs[i].mollieSub == Some(m) && Running(w.subs[i])
    ensures IsRun(ws', steps') && ws'[0] == ws[0] && Stranded(ws'[|steps'|]) && ws'[|steps'|].now == w.now
  {
    ws', steps' := Continue(ws, steps, Cancels(Updates(c)));
    ws', steps' := Continue(ws', steps', Charges(MollieEnds(m, false)));
  }

  // ----- A successor confirmed in the middle of a sweep -----

  lemma SuccessorOpens(ws: seq<World>, steps: seq<Step>, w9: World, i: SubId, customer: Customer, price: nat, t: Time, p': PaymentId)
    returns (ws': seq<World>, steps': seq<Step>)
    requires IsRun(ws, steps) && ws[|steps|] == w9 && MayCheckOut(w9, w9.owner) && w9.nextId == i + 1
    requires w9.subs.Keys == {i} && Running(w9.subs[i]) && w9.subs[i].startedAt.Some? && Unused(w9, p')
    requires forall q | q in w9.payments && w9.payments[q].First? :: w9.payments[q].sub == i
    ensures IsRun(ws', steps') && ws'[0] == ws[0] && |steps'| == |steps| + 3
    ensures var r := NewRow(Scheduled, customer, Pro, price).(startsAt := Some(t), predecessor := Some(i));
      ws'[|steps'|] == w9.(subs := w9.subs[i + 1 := r], nextId := i + 2,
                           payments := w9.payments[p' := First(i + 1, customer, 0, Paid)])
  {
    var r := NewRow(Scheduled, customer, Pro, price).(startsAt := Some(t), predecessor := Some(i));
    ws', steps' := Continue(ws, steps, Checkouts(Schedules(w9.owner, customer, Pro, price, t, i)));
    var w10 := w9.(subs := w9.subs[i + 1 := r], nextId := i + 2);
    assert ws'[|steps'|] == w10;
    ws', steps' := Continue(ws', steps', Checkouts(Pays(p', i + 1)));
    var w11 := w10.(payments := w9.payments[p' := First(i + 1, customer, 0, Open)]);
    assert ws'[|steps'|] == w11;
    ws', steps' := Continue(ws', steps', FirstPayments(FirstSettles(p', true)));
  }

  /** The row of a paid-up subscription with its cancel, and a successor that its delivery has
      still to confirm, both for the moment t. */
  predicate Unrecorded(w: World, i: SubId, s: SubId, t: Time, p: PaymentId, m: MollieSubId) {
    && w.subs.Keys == {i, s} && i != s && w.plan.Pro? && w.graceUntil.None?
    && w.subs[i].status.Active? && w.subs[i].canceledAt.Some? && w.subs[i].nextChargeAt == Some(t)
    && w.subs[s].status.Scheduled? && w.subs[s].mollieSub.None? && w.subs[s].startsAt == Some(t)
    && IsFirst(w, p) && p in w.activating && w.activating[p] == Activation(s, m, true)
  }

  lemma SuccessorBegins(w: World, i: SubId, t: Time, p': PaymentId, m': MollieSubId)
    requires w.subs.Keys == {i, i + 1} && w.subs[i].status.Active? && w.subs[i].canceledAt.Some?
    requires IsFirst(w, p') && w.payments[p'].sub == i + 1
    requires w.subs[i + 1].status.Scheduled? && w.subs[i + 1].mollieSub.None? && w.subs[i + 1].startsAt == Some(t)
    requires PayerIsOwner(w, w.subs[i + 1], w.payments[p'].customer)
    ensures BeginFirst(w, p', Some(m')) == StartActivation(w, p', i + 1, m', true)
  {
    assert !Conflicting(w);
  }

  /** The subscription runs out at t, and its owner has not checked out anything else. */
  predicate RunningOut(w: World, i: SubId, customer: Customer, m: MollieSubId, t: Time) {
    && w.subs.Keys == {i} && w.nextId == i + 1 && w.plan.Pro? && w.graceUntil.None? && MayCheckOut(w, w.owner)
    && w.subs[i].status.Active? && w.subs[i].startedAt.Some? && w.subs[i].canceledAt.Some? && w.subs[i].nextChargeAt == Some(t)
    && (forall q | q in w.payments && w.payments[q].First? :: w.payments[q].sub == i)
    && w.created == map[i := m]
    && w.owner in w.customerOf && w.customerOf[w.owner] == customer
    && forall u | u in w.customerOf && u < w.owner :: w.customerOf[u] != customer
  }

  lemma RunningOutRun(w: World, customer: Customer, price: nat, p: PaymentId, m: MollieSubId, c: RequestId,
                      t: Time, p': PaymentId)
    returns (ws: seq<World>, steps: seq<Step>)
    requires Opening(w, customer) && p' != p
    ensures IsRun(ws, steps) && ws[0] == w && |steps| == 9 && ws[9].now == w.now
    ensures RunningOut(ws[9], w.nextId, customer, m, t) && Unused(ws[9], p')
  {
    ws, steps := StoppingRun(w, customer, price, p, m, c, Some(t));
    ws, steps := Continue(ws, steps, Cancels(Updates(c)));
  }

  lemma SuccessorRun(w: World, customer: Customer, price: nat, p: PaymentId, m: MollieSubId, c: RequestId,
                     t: Time, p': PaymentId, m': MollieSubId)
    returns (ws: seq<World>, steps: seq<Step>)
    requires Opening(w, customer) && p' != p && m' != m
    ensures IsRun(ws, steps) && ws[0] == w && |steps| == 13
    ensures Unrecorded(ws[13], w.nextId, w.nextId + 1, t, p', m') && ws[13].now == w.now
  {
    var i := w.nextId;
    ws, steps := RunningOutRun(w, customer, price, p, m, c, t, p');
    ws, steps := SuccessorOpens(ws, steps, ws[9], i, customer, price, t, p');
    var w12 := ws[12];
    PayerMeans(w12, w12.subs[i + 1], customer);
    ws, steps := Continue(ws, steps, FirstPayments(FirstBegins(p', Some(m'))));
    SuccessorBegins(w12, i, t, p', m');
  }

  /** The delivery confirms the successor after the sweep has looked for takeovers and dies before
      its own: the subscription that is over survives the sweep, and the project stays on Pro. */
  lemma LateConfirmationRun(w: World, customer: Customer, price: nat, p: PaymentId, m: MollieSubId, c: RequestId,
                            t: Time, p': PaymentId, m': MollieSubId)
    returns (ws: seq<World>, steps: seq<Step>)
    requires Opening(w, customer) && p' != p && m' != m
    ensures IsRun(ws, steps) && ws[0] == w && |steps| == 19 && Pass(steps, 14, 16, 17, 18)
    ensures ClosedOrUp(ws[14], w.nextId) && ClosedOrUp(ws[18], w.nextId)
    ensures LateSuccessor(ws, steps, 14, 18, w.nextId + 1)
    ensures w.nextId in ws[19].subs && !Closed(ws[19].subs[w.nextId]) && ws[19].plan.Pro?
  {
    ws, steps := SuccessorRun(w, customer, price, p, m, c, t, p', m');
    ws, steps := Continue(ws, steps, Tick(if t < w.now then 0 else t - w.now + 1));
    ws, steps := LateSweep(ws, steps, w.nextId, w.nextId + 1, t, p', m');
    ConfirmedLate(ws[14], w.nextId, w.nextId + 1, t, p', m');
    assert RecordsAt(ws, steps, 15, w.nextId + 1);
  }

  lemma NothingToHandOver(w: World, i: SubId, s: SubId, t: Time, p: PaymentId, m: MollieSubId)
    requires Unrecorded(w, i, s, t, p, m)
    ensures Promote(w, false) == w
  {
    assert !AnyDue(w, false);
  }

  lemma SweepsPastConfirmed(w: World, i: SubId, s: SubId)
    requires w.subs.Keys == {i, s} && w.plan.Pro? && w.graceUntil.None?
    requires w.subs[i].status.Active? && Confirmed(w.subs[s])
    ensures SweepPastDue(w) == w && SweepLegacy(w) == w && SweepEnded(w) == w
  {
    assert PastDueIds(w) == {};
    assert HasConfirmed(w);
  }

  lemma ConfirmedLate(w: World, i: SubId, s: SubId, t: Time, p: PaymentId, m: MollieSubId)
    requires Unrecorded(w, i, s, t, p, m) && t < w.now
    ensures Records(w, FirstPayments(FirstFinishes(p, None)), s)
    ensures ClosedOrUp(w, i) && !Closed(w.subs[i])
    ensures var w' := Confirm(w, p, s, m, None); ClosedOrUp(w', i) && Waiting(w', s) && !Closed(w'.subs[i]) && w'.plan.Pro?
  {
  }

  lemma RestOfPass(ws: seq<World>, steps: seq<Step>) returns (ws': seq<World>, steps': seq<Step>)
    requires IsRun(ws, steps)
    requires var w := ws[|steps|]; SweepPastDue(w) == w && SweepLegacy(w) == w && SweepEnded(w) == w
    ensures IsRun(ws', steps') && |steps'| == |steps| + 3
    ensures (forall k | 0 <= k < |ws| :: ws'[k] == ws[k]) && (forall k | 0 <= k < |steps| :: steps'[k] == steps[k])
    ensures ws'[|steps| + 2] == ws[|steps|] && ws'[|steps| + 3] == ws[|steps|]
    ensures steps'[|steps|] == Sweeps(DropsPastDue)
    ensures steps'[|steps| + 1] == Sweeps(DropsLegacy) && steps'[|steps| + 2] == Sweeps(DropsEnded)
  {
    ws', steps' := Continue(ws, steps, Sweeps(DropsPastDue));
    ws', steps' := Continue(ws', steps', Sweeps(DropsLegacy));
    ws', steps' := Continue(ws', steps', Sweeps(DropsEnded));
  }

  lemma LateSweep(ws: seq<World>, steps: seq<Step>, i: SubId, s: SubId, t: Time, p: PaymentId, m: MollieSubId)
    returns (ws': seq<World>, steps': seq<Step>)
    requires IsRun(ws, steps) && |steps| == 14 && Unrecorded(ws[14], i, s, t, p, m) && t < ws[14].now
    ensures IsRun(ws', steps') && ws'[0] == ws[0] && |steps'| == 19 && Pass(steps', 14, 16, 17, 18)
    ensures ws'[14] == ws[14] && ws'[15] == ws[14] && steps'[15] == FirstPayments(FirstFinishes(p, None))
    ensures ws'[18] == Confirm(ws[14], p, s, m, None) && ws'[19] == ws'[18]
  {
    ws', steps' := Continue(ws, steps, Sweeps(TakesOver));
    NothingToHandOver(ws[14], i, s, t, p, m);
    ws', steps' := Continue(ws', steps', FirstPayments(FirstFinishes(p, None)));
    SweepsPastConfirmed(ws'[16], i, s);
    ws', steps' := RestOfPass(ws', steps');
  }
}
