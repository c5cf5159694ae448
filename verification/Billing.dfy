/** The billing state of one project, and every transaction, guarded statement and Mollie
    event that changes it, as a function from one state to the next. */
module Billing {
  import opened Prelude
  import Calendar

  type Time = int          // seconds
  type UserId = int        // ordered by account creation
  type Customer = int      // a Mollie customer
  type SubId = int         // a row of public.subscriptions
  type MollieSubId = int
  type PaymentId = int
  type RequestId = int     // a cancel request

  const HOUR: Time := 3600
  const PAST_DUE_GRACE: Time := 7 * 24 * HOUR

  datatype Plan = Free | Pro | Team | LegalTeam

  datatype Status = Incomplete | Scheduled | Active | PastDue | Canceled | Expired

  datatype Row = Row(
    status: Status,
    customer: Customer,
    plan: Plan,
    price: nat,
    predecessor: Option<SubId>,
    startsAt: Option<Time>,
    mollieSub: Option<MollieSubId>,
    startedAt: Option<Time>,
    nextChargeAt: Option<Time>,
    canceledAt: Option<Time>,
    pastDueSince: Option<Time>)

  predicate Closed(r: Row) {
    r.status.Canceled? || r.status.Expired?
  }

  predicate Running(r: Row) {
    r.status.Active? || r.status.PastDue?
  }

  /** The states of idx_subscriptions_project_live. */
  predicate Live(r: Row) {
    r.status.Incomplete? || Running(r)
  }

  /** A scheduled subscription whose mandate payment completed. */
  predicate Confirmed(r: Row) {
    r.status.Scheduled? && r.mollieSub.Some?
  }

  /** A checkout that can still be closed without a Mollie subscription behind it. */
  predicate Unconfirmed(r: Row) {
    (r.status.Incomplete? || r.status.Scheduled?) && r.mollieSub.None?
  }

  datatype InvoiceStatus = Pending | InvoicePaid | InvoiceFailed | Refunded
  datatype Invoice = Invoice(sub: SubId, amount: nat, status: InvoiceStatus, paidAt: Option<Time>)

  datatype PaymentState = Open | Paid | Failed

  /** A payment at Mollie: the first one of a checkout, a charge of a Mollie subscription,
      or the first payment of a project that did not exist yet. */
  datatype Payment =
    | First(sub: SubId, customer: Customer, amount: nat, state: PaymentState)
    | Charge(mollieSub: MollieSubId, createdAt: Time, state: PaymentState)
    | NewProject

  /** A first-payment delivery between creating the Mollie subscription and recording it. */
  datatype Activation = Activation(sub: SubId, mollie: MollieSubId, scheduled: bool)

  /** A delivery of a charge: one that found its subscription still scheduled and has to make it
      take over first, or a renewal between its cancel check and its transaction. */
  datatype Renewal =
    | TakingOver(sub: SubId)
    | Renewal(sub: SubId, previous: Option<Time>)

  /** What a cancel does to its row. */
  datatype CancelKind = AtPeriodEnd | Immediately | OfScheduled | ForDeletion

  datatype Phase = HasRead | HasAsked | Done

  /** A cancel request: the row it is about, the Mollie subscription and the kind it read there,
      and how far it got. One that fails on the way takes no further step. */
  datatype Request = Request(id: SubId, mollie: Option<MollieSubId>, kind: CancelKind, phase: Phase)

  datatype World = World(
    now: Time,
    // the project's row
    owner: UserId, projectActive: bool, plan: Plan,
    graceUntil: Option<Time>, compedUntil: Option<Time>, lastActiveAt: Time,
    // the other tables
    customerOf: map<UserId, Customer>,
    subs: map<SubId, Row>, nextId: SubId,
    invoices: map<PaymentId, Invoice>,
    // Mollie: payments, subscriptions by idempotency key, subscriptions asked to stop or
    // reported ended, and orphan refunds requested
    payments: map<PaymentId, Payment>,
    created: map<SubId, MollieSubId>,
    stopped: set<MollieSubId>,
    refunds: set<PaymentId>,
    // stops that processes have still to ask for, after their commits
    owed: multiset<MollieSubId>,
    // deliveries in flight
    activating: map<PaymentId, Activation>,
    renewing: map<PaymentId, Renewal>,
    // cancel requests, by their own ids
    cancels: map<RequestId, Request>)

  // ----- Payments -----

  predicate IsFirst(w: World, p: PaymentId) {
    p in w.payments && w.payments[p].First?
  }

  predicate IsCharge(w: World, p: PaymentId) {
    p in w.payments && w.payments[p].Charge?
  }

  /** Mollie's answer under an idempotency key: the subscription made before, or a new one. */
  predicate Answers(w: World, id: SubId, answer: Option<MollieSubId>) {
    answer.Some? ==>
      if id in w.created then answer.value == w.created[id]
      else forall i | i in w.created :: w.created[i] != answer.value
  }

  // ----- Rows -----

  function Cancel(r: Row, now: Time): Row {
    r.(status := Canceled, canceledAt := Some(now))
  }

  /** canceled_at = COALESCE(canceled_at, now()) */
  function Stamp(r: Row, now: Time): Row {
    r.(canceledAt := r.canceledAt.Or(Some(now)))
  }

  function Expire(r: Row, now: Time): Row {
    Stamp(r, now).(status := Expired)
  }

  function MollieSubs(subs: map<SubId, Row>, ids: set<SubId>): set<MollieSubId> {
    set i | i in ids && i in subs && subs[i].mollieSub.Some? :: subs[i].mollieSub.value
  }

  function RunningIds(subs: map<SubId, Row>): set<SubId> {
    set i | i in subs && Running(subs[i])
  }

  // ----- Clock and surroundings -----

  function Elapse(w: World, seconds: nat): World {
    w.(now := w.now + seconds)
  }

  /** A user gets a Mollie customer. */
  function WithCustomer(w: World, user: UserId, customer: Customer): World {
    w.(customerOf := w.customerOf[user := customer])
  }

  function WithComp(w: World, until: Option<Time>): World {
    w.(compedUntil := until)
  }

  // ----- Ownership transfer (handover.go) -----

  predicate PaidFor(invoices: map<PaymentId, Invoice>, i: SubId, p: PaymentId) {
    p in invoices && invoices[p].sub == i && invoices[p].status.InvoicePaid? && invoices[p].paidAt.Some?
  }

  /** max(paid_at) of a subscription's paid invoices. */
  ghost predicate IsLastPaid(invoices: map<PaymentId, Invoice>, i: SubId, t: Option<Time>) {
    if t.None? then forall p | p in invoices :: !PaidFor(invoices, i, p)
    else
      && (exists p | p in invoices :: PaidFor(invoices, i, p) && invoices[p].paidAt == t)
      && (forall p | p in invoices :: PaidFor(invoices, i, p) ==> invoices[p].paidAt.value <= t.value)
  }

  /** When a period with no known end is taken to end: a month after the last paid charge,
      but not in the past. */
  function DerivedEnd(lastPaid: Option<Time>, now: Time): Time {
    if lastPaid.Some? && Calendar.AddMonth(lastPaid.value) > now then Calendar.AddMonth(lastPaid.value) else now
  }

  function HandOverRow(r: Row, lastPaid: Option<Time>, now: Time): Row {
    if r.status.Incomplete? || r.status.Scheduled? then Cancel(r, now)
    else if Running(r) then
      Stamp(r, now).(nextChargeAt := r.nextChargeAt.Or(Some(DerivedEnd(lastPaid, now))))
    else r
  }

  /** The transfer's transaction, which leaves the open subscriptions to be stopped at Mollie.
      `lastPaid` is the last paid charge of the running subscription. */
  function HandOver(w: World, newOwner: UserId, lastPaid: Option<Time>): World {
    var open := set i | i in w.subs && !Closed(w.subs[i]);
    w.(owner := newOwner,
       subs := map i | i in w.subs :: HandOverRow(w.subs[i], lastPaid, w.now),
       owed := w.owed + multiset(MollieSubs(w.subs, open)))
  }

  // ----- Takeover (handover.go, promoteScheduled) -----

  predicate Due(r: Row, now: Time, charged: bool) {
    Confirmed(r) && ((r.startsAt.Some? && r.startsAt.value <= now) || charged)
  }

  function DueIds(w: World, charged: bool): set<SubId> {
    set i | i in w.subs && Due(w.subs[i], w.now, charged)
  }

  predicate AnyDue(w: World, charged: bool) {
    exists i :: i in w.subs && Due(w.subs[i], w.now, charged)
  }

  /** A running subscription nobody cancelled. */
  predicate Uncancelled(w: World) {
    exists i :: i in w.subs && Running(w.subs[i]) && w.subs[i].canceledAt.None?
  }

  predicate HasIncomplete(w: World) {
    exists i :: i in w.subs && w.subs[i].status.Incomplete?
  }

  datatype Promotion = NothingDue | Superseded | IndexViolation | TookOver

  function PromotionOf(w: World, charged: bool): Promotion {
    if !AnyDue(w, charged) then NothingDue
    else if Uncancelled(w) then Superseded
    else if HasIncomplete(w) then IndexViolation
    else TookOver
  }

  function TakeOverRow(r: Row, now: Time, charged: bool): Row {
    if Running(r) then Expire(r, now)
    else if Due(r, now, charged) then r.(status := Active, startedAt := r.startedAt.Or(Some(now)))
    else r
  }

  function SupersedeRow(r: Row, now: Time, charged: bool): Row {
    if Due(r, now, charged) then Cancel(r, now) else r
  }

  /** The project's plan after the takeover; Team plans are never changed. */
  ghost function PlanAfter(w: World, charged: bool): Plan
    requires AnyDue(w, charged)
  {
    var s :| s in w.subs && Due(w.subs[s], w.now, charged);
    if w.plan.Team? || w.plan.LegalTeam? then w.plan else w.subs[s].plan
  }

  function Supersede(w: World, charged: bool): World {
    w.(subs := map i | i in w.subs :: SupersedeRow(w.subs[i], w.now, charged),
       owed := w.owed + multiset(MollieSubs(w.subs, DueIds(w, charged))))
  }

  ghost function TakeOver(w: World, charged: bool): World
    requires AnyDue(w, charged)
  {
    w.(subs := map i | i in w.subs :: TakeOverRow(w.subs[i], w.now, charged),
       plan := PlanAfter(w, charged),
       graceUntil := if w.plan.Team? || w.plan.LegalTeam? then w.graceUntil else None,
       owed := w.owed + multiset(MollieSubs(w.subs, RunningIds(w.subs))))
  }

  /** A process asks Mollie for a stop it owes. */
  function StopOwed(w: World, m: MollieSubId): World {
    w.(owed := w.owed - multiset{m}, stopped := w.stopped + {m})
  }

  /** ... or dies before it does. */
  function DieOwing(w: World, m: MollieSubId): World {
    w.(owed := w.owed - multiset{m})
  }

  ghost function Promote(w: World, charged: bool): World {
    match PromotionOf(w, charged)
    case NothingDue => w
    case IndexViolation => w
    case Superseded => Supersede(w, charged)
    case TookOver => TakeOver(w, charged)
  }

  // ----- The hourly sweep (downgrade.go) -----

  predicate CompedAt(until: Option<Time>, now: Time) {
    until.Some? && until.value >= now
  }

  predicate Comped(w: World) {
    CompedAt(w.compedUntil, w.now)
  }

  predicate GraceElapsed(r: Row, now: Time) {
    r.status.PastDue? && r.pastDueSince.Some? && r.pastDueSince.value < now - PAST_DUE_GRACE
  }

  predicate PeriodElapsed(r: Row, now: Time) {
    r.status.Active? && r.canceledAt.Some? && r.nextChargeAt.Some? && r.nextChargeAt.value < now
  }

  predicate HasConfirmed(w: World) {
    exists i :: i in w.subs && Confirmed(w.subs[i])
  }

  function ToFree(w: World): World {
    if w.plan.Pro? && !Comped(w) then w.(plan := Free, graceUntil := None, lastActiveAt := w.now) else w
  }

  function ExpiredRows(subs: map<SubId, Row>, ids: set<SubId>, now: Time): map<SubId, Row> {
    map i | i in subs :: if i in ids then Expire(subs[i], now) else subs[i]
  }

  function ExpireAll(w: World, ids: set<SubId>): World {
    w.(subs := ExpiredRows(w.subs, ids, w.now), stopped := w.stopped + MollieSubs(w.subs, ids))
  }

  /** downgradeOne for each selected subscription. */
  function Downgrade(w: World, ids: set<SubId>): World {
    if !w.plan.Pro? || ids == {} then w else ToFree(ExpireAll(w, ids))
  }

  function PastDueIds(w: World): set<SubId> {
    set i | i in w.subs && GraceElapsed(w.subs[i], w.now)
  }

  function EndedIds(w: World): set<SubId> {
    if HasConfirmed(w) then {} else set i | i in w.subs && PeriodElapsed(w.subs[i], w.now)
  }

  predicate LegacyElapsed(w: World) {
    && w.plan.Pro? && w.graceUntil.Some? && w.graceUntil.value < w.now && !Comped(w)
    && forall i | i in w.subs :: !Live(w.subs[i])
  }

  function SweepPastDue(w: World): World {
    Downgrade(w, PastDueIds(w))
  }

  function SweepLegacy(w: World): World {
    if LegacyElapsed(w) then ToFree(w) else w
  }

  function SweepEnded(w: World): World {
    Downgrade(w, EndedIds(w))
  }

  ghost function Sweep(w: World): World {
    SweepEnded(SweepLegacy(SweepPastDue(Promote(w, false))))
  }

  // ----- Checkouts (service.go, handover.go) -----

  function CloseAbandoned(w: World): World {
    w.(subs := map i | i in w.subs ::
         if w.subs[i].status.Scheduled? && w.subs[i].mollieSub.None? then Cancel(w.subs[i], w.now) else w.subs[i])
  }

  predicate MayCheckOut(w: World, user: UserId) {
    w.owner == user && w.projectActive
  }

  predicate HasLive(w: World) {
    exists i :: i in w.subs && Live(w.subs[i])
  }

  predicate HasScheduled(w: World) {
    exists i :: i in w.subs && w.subs[i].status.Scheduled?
  }

  function NewRow(status: Status, customer: Customer, plan: Plan, price: nat): Row {
    Row(status, customer, plan, price, None, None, None, None, None, None, None)
  }

  /** Inserts the incomplete row; the live index refuses a second one. */
  function InsertIncomplete(w: World, user: UserId, customer: Customer, plan: Plan, price: nat): World {
    if !MayCheckOut(w, user) || HasLive(w) then w
    else w.(subs := w.subs[w.nextId := NewRow(Incomplete, customer, plan, price)], nextId := w.nextId + 1)
  }

  /** Inserts the scheduled row; the scheduled index refuses a second one. */
  function InsertScheduled(w: World, user: UserId, customer: Customer, plan: Plan, price: nat,
                           startsAt: Time, predecessor: SubId): World {
    if !MayCheckOut(w, user) || HasScheduled(w) then w
    else
      var r := NewRow(Scheduled, customer, plan, price).(startsAt := Some(startsAt), predecessor := Some(predecessor));
      w.(subs := w.subs[w.nextId := r], nextId := w.nextId + 1)
  }

  function Remove(subs: map<SubId, Row>, id: SubId): map<SubId, Row> {
    map i | i in subs && i != id :: subs[i]
  }

  /** Deletes an incomplete row whose first payment could not be created. */
  function RollbackIncomplete(w: World, id: SubId): World {
    if id in w.subs && w.subs[id].status.Incomplete? then w.(subs := Remove(w.subs, id)) else w
  }

  function RollbackScheduled(w: World, id: SubId): World {
    if id in w.subs && w.subs[id].status.Scheduled? && w.subs[id].mollieSub.None?
    then w.(subs := Remove(w.subs, id)) else w
  }

  /** The row a new-project activation inserts, with its paid invoice. */
  function InsertActivated(w: World, p: PaymentId, customer: Customer, price: nat,
                           mollie: Option<MollieSubId>, next: Option<Time>): World {
    if HasLive(w) || p in w.invoices then w
    else
      var r := NewRow(Active, customer, Pro, price).(mollieSub := mollie, startedAt := Some(w.now), nextChargeAt := next);
      w.(subs := w.subs[w.nextId := r], nextId := w.nextId + 1,
         payments := w.payments[p := NewProject],
         created := if mollie.Some? then w.created[w.nextId := mollie.value] else w.created,
         invoices := w.invoices[p := Invoice(w.nextId, price, InvoicePaid, Some(w.now))])
  }

  // ----- First payments (webhook.go, activateFromFirstPayment) -----

  /** The payer must be the customer the checkout was started for, and that customer the
      current owner's; a customer no user carries passes only if the owner has none. */
  predicate PayerIsOwner(w: World, r: Row, customer: Customer) {
    && r.customer == customer
    && if exists u :: u in w.customerOf && w.customerOf[u] == customer then
         && w.owner in w.customerOf && w.customerOf[w.owner] == customer
         && forall u | u in w.customerOf && w.customerOf[u] == customer :: w.owner <= u
       else w.owner !in w.customerOf
  }

  /** Another live subscription nobody cancelled. */
  predicate Conflicting(w: World) {
    exists i :: i in w.subs && Live(w.subs[i]) && w.subs[i].canceledAt.None?
  }

  function MarkInvoice(w: World, p: PaymentId, status: InvoiceStatus): World {
    if p !in w.invoices then w
    else
      var v := w.invoices[p];
      var paidAt := if status.InvoicePaid? then v.paidAt.Or(Some(w.now)) else v.paidAt;
      w.(invoices := w.invoices[p := v.(status := status, paidAt := paidAt)])
  }

  /** Requests the refund of a first payment that is not zero, and marks its invoice. */
  function RefundFirst(w: World, p: PaymentId, amount: nat): World {
    if amount == 0 then w
    else MarkInvoice(w.(refunds := w.refunds + {p}), p, Refunded)
  }

  function CloseUnconfirmed(w: World, id: SubId): World {
    if id in w.subs && Unconfirmed(w.subs[id]) then w.(subs := w.subs[id := Stamp(w.subs[id], w.now).(status := Canceled)])
    else w
  }

  /** Mollie created the subscription, which the delivery has still to record. */
  function StartActivation(w: World, p: PaymentId, i: SubId, mollie: MollieSubId, scheduled: bool): World {
    w.(created := w.created[i := mollie], activating := w.activating[p := Activation(i, mollie, scheduled)])
  }

  /** A paid first payment's delivery, up to and including the creation of the Mollie
      subscription. `answer` is Mollie's: None when the call fails. */
  function BeginFirst(w: World, p: PaymentId, answer: Option<MollieSubId>): World
    requires p in w.payments && w.payments[p].First?
  {
    var f := w.payments[p];
    if f.sub !in w.subs then w
    else
      var r := w.subs[f.sub];
      if r.mollieSub.Some? then
        if r.status.Active? || r.status.Scheduled? then MarkInvoice(w, p, InvoicePaid) else w
      else if (!r.status.Incomplete? && !r.status.Scheduled?) || !PayerIsOwner(w, r, f.customer) then
        RefundFirst(CloseUnconfirmed(w, f.sub), p, f.amount)
      else if r.status.Scheduled? && Conflicting(w) then
        w.(subs := w.subs[f.sub := Cancel(r, w.now)])
      else if answer.None? then w
      else
        StartActivation(w, p, f.sub, answer.value, r.status.Scheduled?)
  }

  /** abandonActivation: the new Mollie subscription is cancelled, the payment refunded. */
  function Abandon(w: World, p: PaymentId, mollie: MollieSubId, amount: nat): World {
    RefundFirst(w.(stopped := w.stopped + {mollie}), p, amount)
  }

  /** The mandate of a scheduled checkout is in place: its row waits for its start. */
  function Confirm(w: World, p: PaymentId, i: SubId, mollie: MollieSubId, next: Option<Time>): World
    requires i in w.subs
  {
    w.(activating := w.activating - {p},
       subs := w.subs[i := w.subs[i].(mollieSub := Some(mollie), nextChargeAt := next)])
  }

  /** The checkout goes live, its invoice is paid and the project gets its plan. */
  function Flip(w: World, p: PaymentId, i: SubId, mollie: MollieSubId, next: Option<Time>): World
    requires i in w.subs
  {
    var r := w.subs[i];
    var r' := r.(mollieSub := Some(mollie), status := Active, startedAt := r.startedAt.Or(Some(w.now)), nextChargeAt := next);
    MarkInvoice(w.(activating := w.activating - {p}, subs := w.subs[i := r'], plan := r.plan, graceUntil := None),
                p, InvoicePaid)
  }

  /** The rest of the delivery: record the Mollie subscription if the checkout is still open. One
      that confirms a scheduled checkout then takes over, if that is due, in a transaction of its own. */
  function FinishFirst(w: World, p: PaymentId, next: Option<Time>): World
    requires p in w.payments && w.payments[p].First? && p in w.activating
  {
    var a := w.activating[p];
    if a.scheduled then
      if a.sub in w.subs && w.subs[a.sub].status.Scheduled? && w.subs[a.sub].mollieSub.None? then
        Confirm(w, p, a.sub, a.mollie, next)
      else
        Abandon(w.(activating := w.activating - {p}), p, a.mollie, w.payments[p].amount)
    else if a.sub in w.subs && w.subs[a.sub].status.Incomplete? then
      Flip(w, p, a.sub, a.mollie, next)
    else
      Abandon(w.(activating := w.activating - {p}), p, a.mollie, w.payments[p].amount)
  }

  /** The process dies between the two. */
  function CrashFirst(w: World, p: PaymentId): World
    requires p in w.activating
  {
    w.(activating := w.activating - {p})
  }

  /** A first payment that failed, expired or was abandoned (markPaymentFailure). */
  function FirstFailed(w: World, p: PaymentId): World
    requires p in w.payments && w.payments[p].First?
  {
    var w1 := MarkInvoice(w, p, InvoiceFailed);
    var i := w.payments[p].sub;
    if i in w.subs && (w.subs[i].status.Incomplete? || (w.subs[i].status.Scheduled? && w.subs[i].mollieSub.None?))
    then w1.(subs := w.subs[i := Cancel(w.subs[i], w.now)]) else w1
  }

  // ----- Recurring charges (webhook.go) -----

  predicate HasMollie(w: World, i: SubId, m: MollieSubId) {
    i in w.subs && w.subs[i].mollieSub == Some(m)
  }

  predicate ScheduledFor(w: World, m: MollieSubId) {
    exists i :: i in w.subs && HasMollie(w, i, m) && w.subs[i].status.Scheduled?
  }

  /** The row a recurring charge belongs to. */
  ghost function RowOf(w: World, m: MollieSubId): (i: SubId)
    requires exists i :: HasMollie(w, i, m)
    ensures HasMollie(w, i, m)
  {
    var i :| HasMollie(w, i, m); i
  }

  /** The cancel check: a charge Mollie created after the subscription was cancelled is
      refunded and the cancel repeated; any other is to be recorded. */
  function RenewRow(w: World, p: PaymentId, i: SubId): World
    requires p in w.payments && w.payments[p].Charge? && i in w.subs
  {
    var c, r := w.payments[p], w.subs[i];
    if r.canceledAt.Some? && c.createdAt > r.canceledAt.value then
      w.(refunds := w.refunds + {p}, stopped := w.stopped + {c.mollieSub})
    else
      w.(renewing := w.renewing[p := Renewal(i, r.nextChargeAt)])
  }

  ghost function RenewAny(w: World, p: PaymentId): World
    requires p in w.payments && w.payments[p].Charge?
  {
    var m := w.payments[p].mollieSub;
    if exists i :: HasMollie(w, i, m) then RenewRow(w, p, RowOf(w, m)) else w
  }

  /** A delivery of a charge finds its subscription still scheduled. */
  ghost function LoadScheduled(w: World, p: PaymentId): World
    requires p in w.payments && w.payments[p].Charge? && ScheduledFor(w, w.payments[p].mollieSub)
  {
    w.(renewing := w.renewing[p := TakingOver(RowOf(w, w.payments[p].mollieSub))])
  }

  /** It makes the project's scheduled subscription take over, whatever its start date. */
  ghost function TakeOverCharged(w: World, p: PaymentId): World {
    Promote(CrashRenewal(w, p), true)
  }

  /** recordRecurringPayment from its (re)load up to and including the cancel check; a scheduled
      subscription has to take over first. */
  ghost function BeginRenewal(w: World, p: PaymentId): World
    requires p in w.payments && w.payments[p].Charge?
  {
    if ScheduledFor(w, w.payments[p].mollieSub) then w else RenewAny(w, p)
  }

  function RenewedRow(r: Row, next: Option<Time>): Row {
    if Running(r) then r.(status := Active, pastDueSince := None, nextChargeAt := next.Or(r.nextChargeAt)) else r
  }

  /** The renewal's transaction: the invoice, unless this payment already has one, and the
      row back to active with its next charge date. */
  function FinishRenewal(w: World, p: PaymentId, mollieDate: Option<Time>): World
    requires p in w.renewing && w.renewing[p].Renewal?
  {
    var i, previous := w.renewing[p].sub, w.renewing[p].previous;
    if i !in w.subs then w.(renewing := w.renewing - {p})
    else
      var next := Calendar.RenewalNextCharge(mollieDate, previous, w.now);
      w.(renewing := w.renewing - {p},
         invoices := if p in w.invoices then w.invoices
                     else w.invoices[p := Invoice(i, w.subs[i].price, InvoicePaid, Some(w.now))],
         subs := w.subs[i := RenewedRow(w.subs[i], next)])
  }

  function CrashRenewal(w: World, p: PaymentId): World {
    w.(renewing := w.renewing - {p})
  }

  function FailRow(r: Row, m: MollieSubId, now: Time): Row {
    if r.mollieSub == Some(m) && r.status.Active? then r.(status := PastDue, pastDueSince := Some(now)) else r
  }

  function FailedRows(subs: map<SubId, Row>, m: MollieSubId, now: Time): map<SubId, Row> {
    map i | i in subs :: FailRow(subs[i], m, now)
  }

  function RecordFailure(w: World, p: PaymentId): World
    requires p in w.payments && w.payments[p].Charge?
  {
    MarkInvoice(w.(subs := FailedRows(w.subs, w.payments[p].mollieSub, w.now)), p, InvoiceFailed)
  }

  /** A failed recurring charge (markPaymentFailure); again a scheduled subscription takes over first. */
  function ChargeFailed(w: World, p: PaymentId): World
    requires p in w.payments && w.payments[p].Charge?
  {
    if ScheduledFor(w, w.payments[p].mollieSub) then w else RecordFailure(w, p)
  }

  function EndRow(r: Row, m: MollieSubId, completed: bool, now: Time): Row {
    if r.mollieSub != Some(m) then r
    else if completed then (if Running(r) then Expire(r, now) else r)
    else if Running(r) || r.status.Scheduled? then Stamp(r, now).(status := Canceled)
    else r
  }

  /** Mollie reports a subscription canceled, or completed (processSubscriptionWebhook). */
  function SubscriptionEnded(w: World, m: MollieSubId, completed: bool): World {
    w.(subs := map i | i in w.subs :: EndRow(w.subs[i], m, completed, w.now),
       stopped := w.stopped + {m})
  }

  // ----- Cancels (cancel.go) -----

  /** A subscription read as scheduled is closed before it starts, unless its project is deleted. */
  function KindRead(status: Status, mode: CancelKind): CancelKind {
    if status.Scheduled? && !mode.ForDeletion? then OfScheduled else mode
  }

  /** The request loads the row: from here on it only knows what it read. */
  function ReadForCancel(w: World, c: RequestId, id: SubId, mode: CancelKind): World
    requires id in w.subs
  {
    var r := w.subs[id];
    w.(cancels := w.cancels[c := Request(id, r.mollieSub, KindRead(r.status, mode), HasRead)])
  }

  /** It stops the Mollie subscription it read, if it read one. */
  function AskToStop(w: World, c: RequestId): World
    requires c in w.cancels
  {
    var q := w.cancels[c];
    w.(cancels := w.cancels[c := q.(phase := HasAsked)],
       stopped := if q.mollie.Some? then w.stopped + {q.mollie.value} else w.stopped)
  }

  /** The row under a cancel. One read as scheduled that took over meanwhile ends with its period. */
  function CanceledRow(r: Row, kind: CancelKind, now: Time): Row {
    match kind
    case AtPeriodEnd => Stamp(r, now)
    case OfScheduled => if r.status.Scheduled? then Cancel(r, now) else Stamp(r, now)
    case Immediately => Stamp(r, now).(status := Canceled)
    case ForDeletion => Stamp(r, now).(status := Canceled)
  }

  function CanceledRows(subs: map<SubId, Row>, q: Request, now: Time): map<SubId, Row> {
    if q.id in subs then subs[q.id := CanceledRow(subs[q.id], q.kind, now)] else subs
  }

  /** It updates the row by its id, whatever happened since it read it; an immediate cancel
      also drops a Pro project to Free. */
  function UpdateCanceled(w: World, c: RequestId): World
    requires c in w.cancels
  {
    var q := w.cancels[c];
    var drops := q.kind.Immediately? && w.plan.Pro?;
    w.(cancels := w.cancels[c := q.(phase := Done)],
       subs := CanceledRows(w.subs, q, w.now),
       plan := if drops then Free else w.plan,
       graceUntil := if drops then None else w.graceUntil,
       lastActiveAt := if drops then w.now else w.lastActiveAt)
  }
}
