/** The billing service as the source writes it: transactions, guarded updates and loops over a
    project's rows, each shown to take exactly its step of the protocol. */
module BillingStore {
  import opened Prelude
  import Calendar
  import opened Billing
  import opened BillingInvariant
  import opened BillingFrames
  import opened BillingKept
  import opened BillingDeliveries

  /** A monthly subscription can follow another from an hour before that one ends. */
  const MIN_SCHEDULE_LEAD: Time := HOUR

  datatype Target =
    | AlreadyScheduled
    | AlreadySubscribed
    | Follows(predecessor: SubId, startsAt: Time)
    | Immediate

  /** An active subscription that is cancelled and has more than the lead left to run. */
  predicate PeriodRuns(r: Row, now: Time) {
    r.status.Active? && r.canceledAt.Some? && r.nextChargeAt.Some? && r.nextChargeAt.value > now + MIN_SCHEDULE_LEAD
  }

  /** Open or in force, and not a cancelled subscription that runs for over an hour yet. */
  predicate Blocks(r: Row, now: Time) {
    || r.status.Incomplete? || r.status.PastDue?
    || (r.status.Active? && (r.canceledAt.None? || r.nextChargeAt.None? || r.nextChargeAt.value <= now + 3600))
  }

  datatype Outcome = NotFound | Refused(target: Target) | Started(id: SubId, follows: Option<SubId>)

  predicate SameRead(q: Request, q': Request) {
    q'.id == q.id && q'.mollie == q.mollie && q'.kind == q.kind
  }

  class Store {
    var now: Time
    var owner: UserId
    var projectActive: bool
    var plan: Plan
    var graceUntil: Option<Time>
    var compedUntil: Option<Time>
    var lastActiveAt: Time
    var customerOf: map<UserId, Customer>
    var subs: map<SubId, Row>
    var nextId: SubId
    var invoices: map<PaymentId, Invoice>
    var payments: map<PaymentId, Payment>
    var created: map<SubId, MollieSubId>
    var stopped: set<MollieSubId>
    var refunds: set<PaymentId>
    var activating: map<PaymentId, Activation>
    var renewing: map<PaymentId, Renewal>
    var owed: multiset<MollieSubId>
    var cancels: map<RequestId, Request>

    function State(): World
      reads this
    {
      World(now, owner, projectActive, plan, graceUntil, compedUntil, lastActiveAt, customerOf, subs, nextId,
            invoices, payments, created, stopped, refunds, owed, activating, renewing, cancels)
    }

    // ----- Ownership transfer -----

    /** SELECT max(paid_at) over the paid invoices of a subscription. */
    method LastPaid(i: SubId) returns (last: Option<Time>)
      ensures IsLastPaid(invoices, i, last)
      ensures last.None? <==> forall p | p in invoices ::
                !(invoices[p].sub == i && invoices[p].status.InvoicePaid? && invoices[p].paidAt.Some?)
      ensures last.Some? ==>
        && (exists p | p in invoices :: invoices[p].sub == i && invoices[p].status.InvoicePaid? && invoices[p].paidAt == last)
        && forall p | p in invoices && invoices[p].sub == i && invoices[p].status.InvoicePaid? && invoices[p].paidAt.Some? ::
             invoices[p].paidAt.value <= last.value
    {
      last := None;
      var ids := invoices.Keys;
      while ids != {}
        invariant ids <= invoices.Keys
        invariant last.None? ==> forall p | p in invoices && p !in ids :: !PaidFor(invoices, i, p)
        invariant last.Some? ==>
          && (exists p | p in invoices :: PaidFor(invoices, i, p) && invoices[p].paidAt == last)
          && forall p | p in invoices && p !in ids && PaidFor(invoices, i, p) :: invoices[p].paidAt.value <= last.value
        decreases ids
      {
        Inhabited(ids);
        var p :| p in ids;
        ids := ids - {p};
        if PaidFor(invoices, i, p) && (last.None? || last.value < invoices[p].paidAt.value) {
          last := invoices[p].paidAt;
        }
      }
    }

    /** The running subscription, if any. */
    method FindRunning() returns (found: Option<SubId>)
      ensures found.Some? ==> found.value in subs && Running(subs[found.value])
      ensures found.None? ==> forall i | i in subs :: !Running(subs[i])
    {
      found := None;
      var ids := subs.Keys;
      while ids != {}
        invariant ids <= subs.Keys
        invariant found.Some? ==> found.value in subs && Running(subs[found.value])
        invariant found.None? ==> forall i | i in subs && i !in ids :: !Running(subs[i])
        decreases ids
      {
        Inhabited(ids);
        var i :| i in ids;
        ids := ids - {i};
        if Running(subs[i]) { found := Some(i); }
      }
    }

    /** The end of the paid period: its known end, or one derived from the last paid charge. */
    method PaidUntil(i: SubId) returns (end: Time, ghost lastPaid: Option<Time>)
      requires i in subs
      ensures Some(end) == subs[i].nextChargeAt.Or(Some(DerivedEnd(lastPaid, now)))
      ensures subs[i].nextChargeAt.None? ==> IsLastPaid(invoices, i, lastPaid)
    {
      lastPaid := None;
      if subs[i].nextChargeAt.Some? {
        end := subs[i].nextChargeAt.value;
      } else {
        var last := LastPaid(i);
        lastPaid := last;
        end := DerivedEnd(last, now);
      }
    }

    /** Closes an open checkout and a follow-on subscription; returns what to stop at Mollie. */
    method CloseOpen() returns (toCancel: set<MollieSubId>)
      modifies this`subs
      ensures subs == ClosedOpen(old(subs), now) && toCancel == MollieSubs(old(subs), OpenIds(old(subs)))
    {
      toCancel := MollieSubs(subs, OpenIds(subs));
      subs := map i | i in subs :: if i in OpenIds(subs) then Cancel(subs[i], now) else subs[i];
    }

    /** Cancels the running subscription at the end of its period. */
    method CancelRunning() returns (toCancel: set<MollieSubId>, ghost lastPaid: Option<Time>)
      requires OneRunning(subs)
      modifies this`subs
      ensures subs == EndedRunning(old(subs), lastPaid, now) && toCancel == MollieSubs(old(subs), RunningIds(old(subs)))
      ensures forall i | i in old(subs) && Running(old(subs)[i]) && old(subs)[i].nextChargeAt.None? ::
                IsLastPaid(invoices, i, lastPaid)
    {
      var running := FindRunning();
      if running.Some? {
        var i := running.value;
        var end, last := PaidUntil(i);
        lastPaid := last;
        toCancel := MollieSubs(subs, {i});
        OnlyOneRuns(subs, i);
        subs := subs[i := Stamp(subs[i], now).(nextChargeAt := Some(end))];
      } else {
        lastPaid, toCancel := None, {};
        NoneRuns(subs);
      }
      assert forall i | i in old(subs) :: i in subs && subs[i] == EndedRunning(old(subs), lastPaid, now)[i];
      assert subs == EndedRunning(old(subs), lastPaid, now);
    }

    /** HandOverInTx: close what is open, cancel the running subscription at the end of its period,
        and leave all of them to be stopped at Mollie after the commit. */
    method HandOverInTx(newOwner: UserId) returns (ghost lastPaid: Option<Time>)
      requires OneRunning(subs)
      modifies this`owner, this`subs, this`owed
      ensures State() == HandOver(old(State()), newOwner, lastPaid)
      ensures forall i | i in old(subs) && Running(old(subs)[i]) && old(subs)[i].nextChargeAt.None? ::
                IsLastPaid(invoices, i, lastPaid)
    {
      var toCancel, last := CloseRows();
      lastPaid := last;
      owner := newOwner;
      owed := owed + multiset(toCancel);
      HandOverIs(old(State()), newOwner, lastPaid, State());
    }

    method CloseRows() returns (toCancel: set<MollieSubId>, ghost lastPaid: Option<Time>)
      requires OneRunning(subs)
      modifies this`subs
      ensures State() == old(State()).(subs := subs)
      ensures var closed := ClosedOpen(old(subs), now);
        && subs == EndedRunning(closed, lastPaid, now)
        && toCancel == MollieSubs(old(subs), OpenIds(old(subs))) + MollieSubs(closed, RunningIds(closed))
      ensures forall i | i in old(subs) && Running(old(subs)[i]) && old(subs)[i].nextChargeAt.None? ::
                IsLastPaid(invoices, i, lastPaid)
    {
      StillOneRuns(subs, now);
      var open := CloseOpen();
      var running, last := CancelRunning();
      toCancel, lastPaid := open + running, last;
    }

    /** What runs after a commit: Mollie is asked for each stop in turn. */
    method StopAll(toCancel: set<MollieSubId>)
      requires multiset(toCancel) <= owed
      modifies this`owed, this`stopped
      ensures stopped == old(stopped) + toCancel && owed == old(owed) - multiset(toCancel)
    {
      var rest := toCancel;
      while rest != {}
        invariant rest <= toCancel
        invariant stopped == old(stopped) + (toCancel - rest) && owed == old(owed) - multiset(toCancel - rest)
        decreases rest
      {
        Inhabited(rest);
        var m :| m in rest;
        StopOneMore(old(owed), old(stopped), toCancel, rest, m);
        rest := rest - {m};
        StopOne(m);
      }
    }

    method StopOne(m: MollieSubId)
      modifies this`owed, this`stopped
      ensures State() == StopOwed(old(State()), m)
      ensures stopped == old(stopped) + {m} && owed == old(owed) - multiset{m}
    {
      owed := owed - multiset{m};
      stopped := stopped + {m};
    }

    // ----- Takeover -----

    method FindDue(charged: bool) returns (found: Option<SubId>)
      ensures found.Some? ==> found.value in subs && Due(subs[found.value], now, charged)
      ensures found.None? ==> !AnyDue(State(), charged)
    {
      found := None;
      var ids := subs.Keys;
      while ids != {}
        invariant ids <= subs.Keys
        invariant found.Some? ==> found.value in subs && Due(subs[found.value], now, charged)
        invariant found.None? ==> forall i | i in subs && i !in ids :: !Due(subs[i], now, charged)
        decreases ids
      {
        Inhabited(ids);
        var i :| i in ids;
        ids := ids - {i};
        if Due(subs[i], now, charged) { found := Some(i); }
      }
    }

    /** The first running subscription nobody cancelled. */
    method FindUncancelled() returns (found: Option<SubId>)
      ensures found.Some? <==> Uncancelled(State())
    {
      found := None;
      var preds := RunningIds(subs);
      while preds != {}
        invariant preds <= RunningIds(subs) && found.None?
        invariant forall i | i in subs && Running(subs[i]) && i !in preds :: subs[i].canceledAt.Some?
        decreases preds
      {
        Inhabited(preds);
        var i :| i in preds;
        preds := preds - {i};
        if subs[i].canceledAt.None? { return Some(i); }
      }
    }

    method CancelSuperseded(s: SubId)
      requires s in subs
      modifies this`subs, this`owed
      ensures State() == old(State()).(subs := subs, owed := owed)
      ensures subs == old(subs)[s := Cancel(old(subs)[s], now)] && owed == old(owed) + multiset(MollieSubs(old(subs), {s}))
    {
      owed := owed + multiset(MollieSubs(subs, {s}));
      subs := subs[s := Cancel(subs[s], now)];
    }

    /** Expires what is running, activates the successor and sets the plan. */
    method ExpireAndActivate(s: SubId)
      requires s in subs && subs[s].status.Scheduled?
      modifies this`subs, this`owed, this`plan, this`graceUntil
      ensures State() == old(State()).(subs := subs, owed := owed, plan := plan, graceUntil := graceUntil)
      ensures subs == TakenOverRows(old(subs), s, now)
      ensures owed == old(owed) + multiset(MollieSubs(old(subs), RunningIds(old(subs))))
      ensures if old(plan).Team? || old(plan).LegalTeam? then plan == old(plan) && graceUntil == old(graceUntil)
              else plan == old(subs)[s].plan && graceUntil == None
    {
      TakePlan(subs[s].plan);
      var rows := map i | i in subs :: if Running(subs[i]) then Expire(subs[i], now) else subs[i];
      rows := rows[s := rows[s].(status := Active, startedAt := rows[s].startedAt.Or(Some(now)))];
      subs, owed := rows, owed + multiset(MollieSubs(subs, RunningIds(subs)));
    }

    /** The project gets the plan, unless it is on a Team plan. */
    method TakePlan(p: Plan)
      modifies this`plan, this`graceUntil
      ensures State() == old(State()).(plan := plan, graceUntil := graceUntil)
      ensures if old(plan).Team? || old(plan).LegalTeam? then plan == old(plan) && graceUntil == old(graceUntil)
              else plan == p && graceUntil == None
    {
      if !plan.Team? && !plan.LegalTeam? {
        plan, graceUntil := p, None;
      }
    }

    /** promoteScheduled: one transaction, after whose commit the old subscriptions are to be stopped. */
    method PromoteScheduled(charged: bool) returns (outcome: Promotion)
      requires RowsOk(State())
      modifies this`subs, this`plan, this`graceUntil, this`owed
      ensures State() == Promote(old(State()), charged)
      ensures outcome == PromotionOf(old(State()), charged)
    {
      var due := FindDue(charged);
      if due.None? {
        NothingDueIs(State(), charged);
        return NothingDue;
      }
      var s := due.value;
      DueIsOne(State(), charged, s);
      var uncancelled := FindUncancelled();
      if uncancelled.Some? {
        SupersededIs(State(), charged, s);
        CancelSuperseded(s);
        return Superseded;
      }
      if HasIncomplete(State()) {
        RefusedIs(State(), charged);
        return IndexViolation;
      }
      TakenOverIs(State(), charged, s);
      ExpireAndActivate(s);
      return TookOver;
    }

    // ----- The hourly sweep -----

    /** The project's part of downgradeOne. */
    method DropToFree()
      modifies this`plan, this`graceUntil, this`lastActiveAt
      ensures State() == ToFree(old(State()))
      ensures if old(plan).Pro? && !CompedAt(compedUntil, now) then plan == Free && graceUntil == None && lastActiveAt == now
              else plan == old(plan) && graceUntil == old(graceUntil) && lastActiveAt == old(lastActiveAt)
    {
      if plan.Pro? && !CompedAt(compedUntil, now) {
        plan, graceUntil, lastActiveAt := Free, None, now;
      }
    }

    /** downgradeOne for a candidate read on a Pro plan. */
    method DowngradeOne(i: SubId)
      requires i in subs && Live(subs[i])
      modifies this`subs, this`stopped, this`plan, this`graceUntil, this`lastActiveAt
      ensures subs == old(subs)[i := Expire(old(subs)[i], now)] && stopped == old(stopped) + MollieSubs(old(subs), {i})
      ensures if old(plan).Pro? && !CompedAt(compedUntil, now) then plan == Free && graceUntil == None && lastActiveAt == now
              else plan == old(plan) && graceUntil == old(graceUntil) && lastActiveAt == old(lastActiveAt)
    {
      stopped := stopped + MollieSubs(subs, {i});
      subs := subs[i := Expire(subs[i], now)];
      DropToFree();
    }

    /** downgradeOne for each candidate of a selection. */
    method DowngradeEach(ids: set<SubId>)
      requires plan.Pro? && ids != {} && forall i | i in ids :: i in subs && Live(subs[i])
      modifies this`subs, this`stopped, this`plan, this`graceUntil, this`lastActiveAt
      ensures subs == ExpiredRows(old(subs), ids, now) && stopped == old(stopped) + MollieSubs(old(subs), ids)
      ensures if CompedAt(compedUntil, now) then plan == Pro && graceUntil == old(graceUntil) && lastActiveAt == old(lastActiveAt)
              else plan == Free && graceUntil == None && lastActiveAt == now
    {
      ghost var rows, stops, grace, active := subs, stopped, graceUntil, lastActiveAt;
      var rest := ids;
      while rest != {}
        invariant rest <= ids && subs == ExpiredRows(rows, ids - rest, now)
        invariant stopped == stops + MollieSubs(rows, ids - rest)
        invariant if rest == ids || CompedAt(compedUntil, now) then plan == Pro && graceUntil == grace && lastActiveAt == active
                  else plan == Free && graceUntil == None && lastActiveAt == now
        decreases rest
      {
        Inhabited(rest);
        var i :| i in rest;
        ExpireOneMore(rows, ids - rest, i, now);
        assert ids - (rest - {i}) == (ids - rest) + {i};
        DowngradeOne(i);
        rest := rest - {i};
      }
      assert ids - rest == ids;
    }

    /** One selection of the sweep; candidates that are not on Pro are refused. */
    method DowngradeSelected(ids: set<SubId>)
      requires forall i | i in ids :: i in subs && Live(subs[i])
      modifies this`subs, this`stopped, this`plan, this`graceUntil, this`lastActiveAt
      ensures State() == Downgrade(old(State()), ids)
    {
      if plan.Pro? && ids != {} {
        DowngradeIs(State(), ids);
        DowngradeEach(ids);
      }
    }

    /** RunSweep: takeover first, then the three selections and their downgrades. */
    method RunSweep()
      requires RowsOk(State())
      modifies this
      ensures State() == Sweep(old(State()))
    {
      var outcome := PromoteScheduled(false);
      DowngradeSelected(PastDueIds(State()));
      if LegacyElapsed(State()) { DropToFree(); }
      DowngradeSelected(EndedIds(State()));
    }

    // ----- First payments -----

    method MarkInvoiceAs(p: PaymentId, status: InvoiceStatus)
      modifies this`invoices
      ensures State() == MarkInvoice(old(State()), p, status)
    {
      if p in invoices {
        var v := invoices[p];
        var paidAt := if status.InvoicePaid? then v.paidAt.Or(Some(now)) else v.paidAt;
        invoices := invoices[p := v.(status := status, paidAt := paidAt)];
      }
    }

    method RefundFirstPayment(p: PaymentId, amount: nat)
      modifies this`invoices, this`refunds
      ensures State() == RefundFirst(old(State()), p, amount)
    {
      if amount != 0 {
        refunds := refunds + {p};
        MarkInvoiceAs(p, Refunded);
      }
    }

    method CloseCheckout(i: SubId)
      modifies this`subs
      ensures State() == CloseUnconfirmed(old(State()), i)
    {
      if i in subs && Unconfirmed(subs[i]) {
        subs := subs[i := Stamp(subs[i], now).(status := Canceled)];
      }
    }

    /** activateFromFirstPayment up to its Mollie call. */
    method BeginActivation(p: PaymentId, answer: Option<MollieSubId>)
      requires IsFirst(State(), p)
      modifies this`subs, this`invoices, this`refunds, this`created, this`activating
      ensures State() == BeginFirst(old(State()), p, answer)
    {
      var f := payments[p];
      if f.sub !in subs { return; }
      var r := subs[f.sub];
      if r.mollieSub.Some? {
        if r.status.Active? || r.status.Scheduled? { MarkInvoiceAs(p, InvoicePaid); }
        return;
      }
      if (!r.status.Incomplete? && !r.status.Scheduled?) || !PayerIsOwner(State(), r, f.customer) {
        CloseCheckout(f.sub);
        RefundFirstPayment(p, f.amount);
        return;
      }
      if r.status.Scheduled? && Conflicting(State()) {
        subs := subs[f.sub := Cancel(r, now)];
        return;
      }
      if answer.None? { return; }
      created := created[f.sub := answer.value];
      activating := activating[p := Activation(f.sub, answer.value, r.status.Scheduled?)];
    }

    method AbandonActivation(p: PaymentId, mollie: MollieSubId, amount: nat)
      modifies this`stopped, this`invoices, this`refunds
      ensures State() == Abandon(old(State()), p, mollie, amount)
    {
      stopped := stopped + {mollie};
      RefundFirstPayment(p, amount);
    }

    /** The flip, in one transaction with the invoice and the plan. */
    method FlipToActive(p: PaymentId, i: SubId, mollie: MollieSubId, next: Option<Time>)
      requires i in subs
      modifies this`subs, this`plan, this`graceUntil, this`invoices, this`activating
      ensures State() == Flip(old(State()), p, i, mollie, next)
    {
      var r := subs[i];
      activating := activating - {p};
      subs := subs[i := r.(mollieSub := Some(mollie), status := Active,
                           startedAt := r.startedAt.Or(Some(now)), nextChargeAt := next)];
      plan := r.plan;
      graceUntil := None;
      MarkInvoiceAs(p, InvoicePaid);
    }

    /** activateFromFirstPayment after its Mollie call. A confirmed checkout may be due already:
        PromoteScheduled(false) follows, in its own transaction and with its failure only logged. */
    method FinishActivation(p: PaymentId, next: Option<Time>)
      requires Inv(State()) && IsFirst(State(), p) && p in activating
      modifies this
      ensures State() == FinishFirst(old(State()), p, next)
    {
      var f, a := payments[p], activating[p];
      assert FirstOk(State(), p);
      if a.scheduled && a.sub in subs && subs[a.sub].status.Scheduled? && subs[a.sub].mollieSub.None? {
        activating := activating - {p};
        subs := subs[a.sub := subs[a.sub].(mollieSub := Some(a.mollie), nextChargeAt := next)];
      } else if !a.scheduled && a.sub in subs && subs[a.sub].status.Incomplete? {
        FlipToActive(p, a.sub, a.mollie, next);
      } else {
        activating := activating - {p};
        AbandonActivation(p, a.mollie, f.amount);
      }
    }

    // ----- Recurring charges -----

    /** The row of a Mollie subscription. */
    method FindRow(m: MollieSubId) returns (found: Option<SubId>)
      ensures found.Some? ==> HasMollie(State(), found.value, m)
      ensures found.None? ==> forall i | i in subs :: !HasMollie(State(), i, m)
    {
      found := None;
      var ids := subs.Keys;
      while ids != {}
        invariant ids <= subs.Keys
        invariant found.Some? ==> found.value in subs && subs[found.value].mollieSub == Some(m)
        invariant found.None? ==> forall i | i in subs && i !in ids :: subs[i].mollieSub != Some(m)
        decreases ids
      {
        Inhabited(ids);
        var i :| i in ids;
        ids := ids - {i};
        if subs[i].mollieSub == Some(m) { found := Some(i); }
      }
    }

    /** The load of a charge's delivery: a subscription still scheduled has to take over first. */
    method LoadCharge(p: PaymentId) returns (scheduled: bool)
      requires Inv(State()) && IsCharge(State(), p)
      modifies this`renewing
      ensures scheduled <==> ScheduledFor(old(State()), payments[p].mollieSub)
      ensures State() == if scheduled then LoadScheduled(old(State()), p) else old(State())
    {
      scheduled := false;
      var row := FindRow(payments[p].mollieSub);
      if row.Some? {
        OwnMollieRow(State(), row.value, payments[p].mollieSub);
        if subs[row.value].status.Scheduled? {
          scheduled := true;
          renewing := renewing[p := TakingOver(row.value)];
        }
      }
    }

    /** Its takeover; the delivery fails when that does. */
    method TakeOverFirst(p: PaymentId) returns (failed: bool)
      requires RowsOk(State())
      modifies this`subs, this`plan, this`graceUntil, this`owed, this`renewing
      ensures State() == TakeOverCharged(old(State()), p)
      ensures failed <==> PromotionOf(CrashRenewal(old(State()), p), true).IndexViolation?
    {
      renewing := renewing - {p};
      var outcome := PromoteScheduled(true);
      failed := outcome.IndexViolation?;
    }

    /** The cancel check. */
    method CheckCancelled(p: PaymentId, i: SubId)
      requires IsCharge(State(), p) && i in subs
      modifies this`refunds, this`stopped, this`renewing
      ensures State() == RenewRow(old(State()), p, i)
    {
      var c, r := payments[p], subs[i];
      if r.canceledAt.Some? && c.createdAt > r.canceledAt.value {
        refunds := refunds + {p};
        stopped := stopped + {c.mollieSub};
      } else {
        renewing := renewing[p := Renewal(i, r.nextChargeAt)];
      }
    }

    /** recordRecurringPayment from its load, or its reload after a takeover, up to and including
        its cancel check. */
    method BeginRecurring(p: PaymentId) returns (known: bool)
      requires Inv(State()) && IsCharge(State(), p) && !ScheduledFor(State(), payments[p].mollieSub)
      modifies this`refunds, this`stopped, this`renewing
      ensures State() == BeginRenewal(old(State()), p)
      ensures known <==> exists i :: HasMollie(old(State()), i, payments[p].mollieSub)
    {
      var row := FindRow(payments[p].mollieSub);
      known := row.Some?;
      if known {
        OwnMollieRow(State(), row.value, payments[p].mollieSub);
        CheckCancelled(p, row.value);
      }
    }

    /** The renewal's transaction. */
    method FinishRecurring(p: PaymentId, mollieDate: Option<Time>)
      requires p in renewing && renewing[p].Renewal?
      modifies this`renewing, this`invoices, this`subs
      ensures State() == FinishRenewal(old(State()), p, mollieDate)
    {
      var i, previous := renewing[p].sub, renewing[p].previous;
      renewing := renewing - {p};
      if i !in subs { return; }
      InvoiceCharge(p, i);
      var next := Calendar.RenewalNextCharge(mollieDate, previous, now);
      if Running(subs[i]) {
        subs := subs[i := subs[i].(status := Active, pastDueSince := None, nextChargeAt := next.Or(subs[i].nextChargeAt))];
      }
    }

    /** INSERT ... ON CONFLICT DO NOTHING: a payment has one invoice. */
    method InvoiceCharge(p: PaymentId, i: SubId)
      requires i in subs
      modifies this`invoices
      ensures State() == old(State()).(invoices := invoices)
      ensures invoices == if p in old(invoices) then old(invoices)
                          else old(invoices)[p := Invoice(i, subs[i].price, InvoicePaid, Some(now))]
    {
      if p !in invoices {
        invoices := invoices[p := Invoice(i, subs[i].price, InvoicePaid, Some(now))];
      }
    }

    /** markPaymentFailure for a recurring charge, once its subscription is not scheduled (any more). */
    method RecordChargeFailure(p: PaymentId)
      requires IsCharge(State(), p) && !ScheduledFor(State(), payments[p].mollieSub)
      modifies this`subs, this`invoices
      ensures State() == ChargeFailed(old(State()), p)
    {
      subs := FailedRows(subs, payments[p].mollieSub, now);
      MarkInvoiceAs(p, InvoiceFailed);
    }

    /** markPaymentFailure for a first payment. */
    method RecordFirstFailure(p: PaymentId)
      requires IsFirst(State(), p)
      modifies this`invoices, this`subs
      ensures State() == FirstFailed(old(State()), p)
    {
      MarkInvoiceAs(p, InvoiceFailed);
      var i := payments[p].sub;
      if i in subs && (subs[i].status.Incomplete? || (subs[i].status.Scheduled? && subs[i].mollieSub.None?)) {
        subs := subs[i := Cancel(subs[i], now)];
      }
    }

    // ----- Cancels -----

    /** CancelSubscription's load: a closed row is refused, and from here on only what was read counts. */
    method LoadForCancel(c: RequestId, id: SubId, mode: CancelKind) returns (ok: bool)
      requires c !in cancels && id in subs && !mode.OfScheduled?
      modifies this`cancels
      ensures ok <==> !Closed(subs[id])
      ensures State() == if ok then ReadForCancel(old(State()), c, id, mode) else old(State())
    {
      var status := subs[id].status;
      if status.Canceled? || status.Expired? { return false; }
      cancels := cancels[c := Request(id, subs[id].mollieSub, if status.Scheduled? && !mode.ForDeletion? then OfScheduled else mode, HasRead)];
      return true;
    }

    /** Its call to Mollie, if it read a subscription to stop. */
    method AskMollie(c: RequestId)
      requires c in cancels
      modifies this`cancels, this`stopped
      ensures State() == AskToStop(old(State()), c)
      ensures cancels == old(cancels)[c := old(cancels)[c].(phase := HasAsked)]
      ensures stopped == if old(cancels)[c].mollie.Some? then old(stopped) + {old(cancels)[c].mollie.value} else old(stopped)
    {
      if cancels[c].mollie.Some? {
        stopped := stopped + {cancels[c].mollie.value};
      }
      cancels := cancels[c := cancels[c].(phase := HasAsked)];
    }

    /** Its update, by the row's id alone. */
    method UpdateRow(c: RequestId)
      requires c in cancels
      modifies this`subs, this`cancels, this`plan, this`graceUntil, this`lastActiveAt
      ensures State() == UpdateCanceled(old(State()), c)
      ensures subs == CanceledRows(old(subs), old(cancels)[c], now) && cancels == old(cancels)[c := old(cancels)[c].(phase := Done)]
    {
      var q := cancels[c];
      cancels := cancels[c := q.(phase := Done)];
      UpdateCanceledRow(q);
      DropCanceled(q.kind);
    }

    /** An immediate cancel's update of a Pro project. */
    method DropCanceled(kind: CancelKind)
      modifies this`plan, this`graceUntil, this`lastActiveAt
      ensures var drops := kind.Immediately? && old(plan).Pro?;
        && plan == (if drops then Free else old(plan))
        && graceUntil == (if drops then None else old(graceUntil))
        && lastActiveAt == if drops then now else old(lastActiveAt)
    {
      if kind.Immediately? && plan.Pro? {
        plan, graceUntil, lastActiveAt := Free, None, now;
      }
    }

    /** The UPDATE of each kind of cancel, which finds no row if it is gone. */
    method UpdateCanceledRow(q: Request)
      modifies this`subs
      ensures subs == CanceledRows(old(subs), q, now)
    {
      if q.id !in subs { return; }
      var r := Stamp(subs[q.id], now);
      if q.kind.OfScheduled? && r.status.Scheduled? {
        r := subs[q.id].(status := Canceled, canceledAt := Some(now));
      } else if q.kind.Immediately? || q.kind.ForDeletion? {
        r := r.(status := Canceled);
      }
      subs := subs[q.id := r];
    }

    /** One row of a deletion's list. */
    method CancelNext(c: RequestId)
      requires c in cancels && cancels[c].kind.ForDeletion?
      modifies this`subs, this`stopped, this`cancels, this`plan, this`graceUntil, this`lastActiveAt
      ensures subs == CanceledRows(old(subs), old(cancels)[c], now)
      ensures stopped == if old(cancels)[c].mollie.Some? then old(stopped) + {old(cancels)[c].mollie.value} else old(stopped)
      ensures cancels == old(cancels)[c := old(cancels)[c].(phase := Done)]
    {
      AskMollie(c);
      UpdateRow(c);
    }

    /** CancelSubscriptionForProject, from its list of open rows on, read some time before: it goes
        through them one by one and gives up at the first one Mollie refuses. Only when it succeeds
        is every row on the list closed; rows not on it stay as they are, and Mollie is asked for
        what the list says, whatever the rows say by now. */
    method CancelForProject(list: set<RequestId>, refused: set<MollieSubId>) returns (ok: bool)
      requires forall c | c in list :: c in cancels && cancels[c].kind.ForDeletion?
      modifies this`subs, this`stopped, this`cancels, this`plan, this`graceUntil, this`lastActiveAt
      ensures subs.Keys == old(subs).Keys
      ensures forall i | i in subs && (forall c | c in list :: old(cancels)[c].id != i) :: subs[i] == old(subs)[i]
      ensures ok ==> forall c | c in list && old(cancels)[c].id in subs :: Closed(subs[old(cancels)[c].id])
      ensures ok ==> forall c | c in list && old(cancels)[c].mollie.Some? ::
                old(cancels)[c].mollie.value in stopped && old(cancels)[c].mollie.value !in refused
      ensures !ok ==> exists c | c in list :: old(cancels)[c].mollie.Some? && old(cancels)[c].mollie.value in refused
      ensures old(stopped) <= stopped
    {
      var rest := list;
      while rest != {}
        invariant rest <= list && subs.Keys == old(subs).Keys && old(stopped) <= stopped
        invariant forall c | c in list :: c in cancels && SameRead(old(cancels)[c], cancels[c])
        invariant forall i | i in subs && (forall c | c in list :: old(cancels)[c].id != i) :: subs[i] == old(subs)[i]
        invariant forall c | c in list && c !in rest && old(cancels)[c].id in subs :: Closed(subs[old(cancels)[c].id])
        invariant forall c | c in list && c !in rest && old(cancels)[c].mollie.Some? ::
          old(cancels)[c].mollie.value in stopped && old(cancels)[c].mollie.value !in refused
        decreases rest
      {
        Inhabited(rest);
        var c :| c in rest;
        rest := rest - {c};
        if cancels[c].mollie.Some? && cancels[c].mollie.value in refused { return false; }
        CancelNext(c);
      }
      return true;
    }

    // ----- Checkouts -----

    method FindLive() returns (found: Option<SubId>)
      ensures found.Some? ==> found.value in subs && Live(subs[found.value])
      ensures found.Some? ==> HasLive(State())
      ensures found.None? ==> !HasLive(State())
    {
      found := None;
      var ids := subs.Keys;
      while ids != {}
        invariant ids <= subs.Keys
        invariant found.Some? ==> found.value in subs && Live(subs[found.value])
        invariant found.None? ==> forall i | i in subs && i !in ids :: !Live(subs[i])
        decreases ids
      {
        Inhabited(ids);
        var i :| i in ids;
        ids := ids - {i};
        if Live(subs[i]) { found := Some(i); }
      }
      if found.Some? {
        var i := found.value;
        assert i in State().subs && Live(State().subs[i]);
      }
    }

    /** scheduleTarget: what a checkout may do now. It is refused while a subscription with a mandate
        waits, and beside an open checkout or a subscription that is past due, not cancelled or not
        known to run for over an hour; it follows one that is cancelled and does. */
    method ScheduleTarget() returns (t: Target)
      ensures t.AlreadyScheduled? <==> exists i | i in subs :: subs[i].status.Scheduled? && subs[i].mollieSub.Some?
      ensures t.AlreadySubscribed? ==> exists i | i in subs :: Blocks(subs[i], now)
      ensures t.Immediate? ==> forall i | i in subs :: subs[i].status.Scheduled? || subs[i].status.Canceled? || subs[i].status.Expired?
      ensures t.Follows? ==>
        && t.predecessor in subs && subs[t.predecessor].status.Active? && subs[t.predecessor].canceledAt.Some?
        && subs[t.predecessor].nextChargeAt == Some(t.startsAt) && t.startsAt > now + 3600
      ensures RowsOk(State()) && t.Follows? ==> forall i | i in subs :: !Blocks(subs[i], now)
    {
      WaitsMeans(State());
      if HasConfirmed(State()) { return AlreadyScheduled; }
      var live := FindLive();
      if live.None? {
        NothingLive(State());
        return Immediate;
      }
      var r := subs[live.value];
      LiveDecides(State(), live.value);
      if PeriodRuns(r, now) { return Follows(live.value, r.nextChargeAt.value); }
      return AlreadySubscribed;
    }

    method CloseAbandonedCheckouts()
      modifies this`subs
      ensures State() == CloseAbandoned(old(State()))
    {
      subs := map i | i in subs ::
        if subs[i].status.Scheduled? && subs[i].mollieSub.None? then Cancel(subs[i], now) else subs[i];
    }

    method StartImmediate(user: UserId, customer: Customer, chosen: Plan, price: nat)
      requires MayCheckOut(State(), user) && !HasLive(State())
      modifies this`subs, this`nextId
      ensures State() == InsertIncomplete(old(State()), user, customer, chosen, price)
    {
      subs := subs[nextId := NewRow(Incomplete, customer, chosen, price)];
      nextId := nextId + 1;
    }

    method StartScheduled(user: UserId, customer: Customer, chosen: Plan, price: nat, startsAt: Time, predecessor: SubId)
      requires MayCheckOut(State(), user) && !HasScheduled(State())
      modifies this`subs, this`nextId
      ensures State() == InsertScheduled(old(State()), user, customer, chosen, price, startsAt, predecessor)
    {
      subs := subs[nextId := NewRow(Scheduled, customer, chosen, price).(
                     startsAt := Some(startsAt), predecessor := Some(predecessor))];
      nextId := nextId + 1;
    }

    /** CreateCheckout up to its payment, with nobody in between: the owner of an active project is
        refused exactly when a subscription with a mandate waits or something in force or open is in
        the way; otherwise abandoned scheduled checkouts are closed and a row is started, which no
        index refuses: behind the subscription that runs out, or at once when there is none. */
    method CreateCheckout(user: UserId, customer: Customer, chosen: Plan, price: nat) returns (r: Outcome)
      requires RowsOk(State())
      modifies this`subs, this`nextId
      ensures r.NotFound? <==> !(owner == user && projectActive)
      ensures r.Refused? <==>
        && owner == user && projectActive
        && exists i | i in old(subs) ::
             (old(subs)[i].status.Scheduled? && old(subs)[i].mollieSub.Some?) || Blocks(old(subs)[i], now)
      ensures r.Refused? ==>
        (r.target.AlreadyScheduled? || r.target.AlreadySubscribed?)
        && (r.target.AlreadyScheduled? <==> exists i | i in old(subs) :: old(subs)[i].status.Scheduled? && old(subs)[i].mollieSub.Some?)
      ensures !r.Started? ==> State() == old(State())
      ensures r.Started? && r.follows.None? ==>
        && (forall i | i in old(subs) :: !Blocks(old(subs)[i], now) && !old(subs)[i].status.Active?)
        && StartsRow(old(subs), subs, r.id, Row(Incomplete, customer, chosen, price, None, None, None, None, None, None, None), now)
      ensures r.Started? && r.follows.Some? ==>
        && r.follows.value in old(subs)
        && var q := old(subs)[r.follows.value];
           && q.status.Active? && q.canceledAt.Some? && q.nextChargeAt.Some? && q.nextChargeAt.value > now + 3600
           && q.startedAt.Some?
           && StartsRow(old(subs), subs, r.id,
                        Row(Scheduled, customer, chosen, price, r.follows, q.nextChargeAt, None, None, None, None, None), now)
      ensures r.Started? ==> r.id == old(nextId) && nextId == r.id + 1
    {
      if !MayCheckOut(State(), user) { return NotFound; }
      WaitsMeans(State());
      var target := ScheduleTarget();
      if target.AlreadyScheduled? || target.AlreadySubscribed? { return Refused(target); }
      FreeMeans(State(), target);
      var id := StartCheckout(user, customer, chosen, price, target);
      return Started(id, if target.Follows? then Some(target.predecessor) else None);
    }

    /** The checkout's row, after closing abandoned scheduled ones. */
    method StartCheckout(user: UserId, customer: Customer, chosen: Plan, price: nat, target: Target) returns (id: SubId)
      requires RowsOk(State()) && MayCheckOut(State(), user) && !HasConfirmed(State())
      requires target.Follows? || (target.Immediate? && !HasLive(State()))
      modifies this`subs, this`nextId
      ensures id == old(nextId) && nextId == id + 1 && StartsRow(old(subs), subs, id, TargetRow(target, customer, chosen, price), now)
    {
      id := nextId;
      CloseKeepsLive(State());
      CloseAbandonedCheckouts();
      if target.Follows? {
        StartsBehind(old(State()), user, customer, chosen, price, target.startsAt, target.predecessor);
        StartScheduled(user, customer, chosen, price, target.startsAt, target.predecessor);
      } else {
        StartsAtOnce(old(State()), user, customer, chosen, price);
        StartImmediate(user, customer, chosen, price);
      }
    }

    /** rollbackSubscription and its scheduled counterpart. */
    method RollbackCheckout(id: SubId, scheduled: bool)
      modifies this`subs
      ensures State() == if scheduled then RollbackScheduled(old(State()), id) else RollbackIncomplete(old(State()), id)
    {
      if id in subs && (if scheduled then subs[id].status.Scheduled? && subs[id].mollieSub.None? else subs[id].status.Incomplete?) {
        subs := Remove(subs, id);
      }
    }
  }

  function OpenIds(subs: map<SubId, Row>): set<SubId> {
    set i | i in subs && (subs[i].status.Incomplete? || subs[i].status.Scheduled?)
  }

  function ClosedOpen(subs: map<SubId, Row>, now: Time): map<SubId, Row> {
    map i | i in subs :: if subs[i].status.Incomplete? || subs[i].status.Scheduled? then Cancel(subs[i], now) else subs[i]
  }

  function EndedRunning(subs: map<SubId, Row>, lastPaid: Option<Time>, now: Time): map<SubId, Row> {
    map i | i in subs ::
      if Running(subs[i]) then Stamp(subs[i], now).(nextChargeAt := subs[i].nextChargeAt.Or(Some(DerivedEnd(lastPaid, now))))
      else subs[i]
  }

  predicate OneRunning(subs: map<SubId, Row>) {
    forall i, j | i in subs && j in subs && Running(subs[i]) && Running(subs[j]) :: i == j
  }

  lemma OnlyOneRuns(subs: map<SubId, Row>, i: SubId)
    requires OneRunning(subs) && i in subs && Running(subs[i])
    ensures RunningIds(subs) == {i}
  {
    assert forall j: SubId :: j in RunningIds(subs) <==> j in {i};
  }

  lemma NoneRuns(subs: map<SubId, Row>)
    requires forall i | i in subs :: !Running(subs[i])
    ensures RunningIds(subs) == {}
  {
    assert forall j: SubId :: j !in RunningIds(subs);
  }

  lemma StillOneRuns(subs: map<SubId, Row>, now: Time)
    requires OneRunning(subs)
    ensures OneRunning(ClosedOpen(subs, now))
  {
    var closed := ClosedOpen(subs, now);
    forall i, j | i in closed && j in closed && Running(closed[i]) && Running(closed[j]) ensures i == j {
      assert Running(subs[i]) && Running(subs[j]);
    }
  }

  /** The two parts of the transfer make up the whole. */
  lemma HandOverIs(w: World, newOwner: UserId, lastPaid: Option<Time>, w': World)
    requires var closed := ClosedOpen(w.subs, w.now);
      w' == w.(owner := newOwner, subs := EndedRunning(closed, lastPaid, w.now),
            owed := w.owed + multiset(MollieSubs(w.subs, OpenIds(w.subs)) + MollieSubs(closed, RunningIds(closed))))
    ensures w' == HandOver(w, newOwner, lastPaid)
  {
    HandOverRows(w, lastPaid);
    HandOverStops(w);
  }

  lemma HandOverRows(w: World, lastPaid: Option<Time>)
    ensures EndedRunning(ClosedOpen(w.subs, w.now), lastPaid, w.now)
         == map i | i in w.subs :: HandOverRow(w.subs[i], lastPaid, w.now)
  {
    var closed := ClosedOpen(w.subs, w.now);
    forall i | i in w.subs
      ensures EndedRunning(closed, lastPaid, w.now)[i] == HandOverRow(w.subs[i], lastPaid, w.now)
    {
      assert Running(closed[i]) <==> Running(w.subs[i]);
    }
  }

  lemma HandOverStops(w: World)
    ensures MollieSubs(w.subs, OpenIds(w.subs)) + MollieSubs(ClosedOpen(w.subs, w.now), RunningIds(ClosedOpen(w.subs, w.now)))
         == MollieSubs(w.subs, set i | i in w.subs && !Closed(w.subs[i]))
  {
    var closed := ClosedOpen(w.subs, w.now);
    assert forall i: SubId :: i in RunningIds(closed) <==> i in RunningIds(w.subs);
    SameMollieSubs(closed, w.subs, RunningIds(w.subs));
    MollieUnion(w.subs, OpenIds(w.subs), RunningIds(w.subs));
    assert forall i: SubId :: i in OpenIds(w.subs) + RunningIds(w.subs) <==> i in w.subs && !Closed(w.subs[i]);
  }

  lemma SameMollieSubs(subs: map<SubId, Row>, subs': map<SubId, Row>, ids: set<SubId>)
    requires subs.Keys == subs'.Keys && forall i | i in subs :: subs[i].mollieSub == subs'[i].mollieSub
    ensures MollieSubs(subs, ids) == MollieSubs(subs', ids)
  {
  }

  lemma MollieUnion(subs: map<SubId, Row>, a: set<SubId>, b: set<SubId>)
    ensures MollieSubs(subs, a + b) == MollieSubs(subs, a) + MollieSubs(subs, b)
  {
  }

  lemma StopOneMore(owed: multiset<MollieSubId>, stopped: set<MollieSubId>,
                    all: set<MollieSubId>, rest: set<MollieSubId>, m: MollieSubId)
    requires m in rest && rest <= all
    ensures stopped + (all - rest) + {m} == stopped + (all - (rest - {m}))
    ensures owed - multiset(all - rest) - multiset{m} == owed - multiset(all - (rest - {m}))
  {
    assert all - (rest - {m}) == (all - rest) + {m};
    assert multiset((all - rest) + {m}) == multiset(all - rest) + multiset{m};
  }

  // ----- Takeover -----

  lemma DueIsOne(w: World, charged: bool, s: SubId)
    requires RowsOk(w) && s in w.subs && Due(w.subs[s], w.now, charged)
    ensures AnyDue(w, charged) && DueIds(w, charged) == {s}
    ensures forall i | i in w.subs && Due(w.subs[i], w.now, charged) :: i == s
  {
    assert forall i: SubId :: i in DueIds(w, charged) <==> i in {s};
  }

  lemma NothingDueIs(w: World, charged: bool)
    requires !AnyDue(w, charged)
    ensures PromotionOf(w, charged).NothingDue? && Promote(w, charged) == w
  {
  }

  lemma RefusedIs(w: World, charged: bool)
    requires AnyDue(w, charged) && !Uncancelled(w) && HasIncomplete(w)
    ensures PromotionOf(w, charged).IndexViolation? && Promote(w, charged) == w
  {
  }

  lemma SupersededIs(w: World, charged: bool, s: SubId)
    requires s in w.subs && AnyDue(w, charged) && Uncancelled(w) && DueIds(w, charged) == {s}
    requires forall i | i in w.subs :: Due(w.subs[i], w.now, charged) <==> i == s
    ensures PromotionOf(w, charged).Superseded?
    ensures Promote(w, charged)
         == w.(subs := w.subs[s := Cancel(w.subs[s], w.now)], owed := w.owed + multiset(MollieSubs(w.subs, {s})))
  {
    forall i | i in w.subs ensures SupersedeRow(w.subs[i], w.now, charged) == w.subs[s := Cancel(w.subs[s], w.now)][i] {
    }
    assert Supersede(w, charged).subs == w.subs[s := Cancel(w.subs[s], w.now)];
  }

  function TakenOverRows(subs: map<SubId, Row>, s: SubId, now: Time): map<SubId, Row>
    requires s in subs
  {
    map i | i in subs ::
      if Running(subs[i]) then Expire(subs[i], now)
      else if i == s then subs[i].(status := Active, startedAt := subs[i].startedAt.Or(Some(now)))
      else subs[i]
  }

  lemma TakenOverIs(w: World, charged: bool, s: SubId)
    requires s in w.subs && AnyDue(w, charged) && !Uncancelled(w) && !HasIncomplete(w)
    requires forall i | i in w.subs :: Due(w.subs[i], w.now, charged) <==> i == s
    ensures PromotionOf(w, charged).TookOver?
    ensures Promote(w, charged)
         == w.(subs := TakenOverRows(w.subs, s, w.now), owed := w.owed + multiset(MollieSubs(w.subs, RunningIds(w.subs))),
               plan := if w.plan.Team? || w.plan.LegalTeam? then w.plan else w.subs[s].plan,
               graceUntil := if w.plan.Team? || w.plan.LegalTeam? then w.graceUntil else None)
  {
    forall i | i in w.subs ensures TakeOverRow(w.subs[i], w.now, charged) == TakenOverRows(w.subs, s, w.now)[i] {
    }
    assert TakeOver(w, charged).subs == TakenOverRows(w.subs, s, w.now);
  }

  // ----- The sweep -----

  /** One more candidate after the others. */
  lemma ExpireOneMore(subs: map<SubId, Row>, done: set<SubId>, i: SubId, now: Time)
    requires i in subs && i !in done
    ensures var rows := ExpiredRows(subs, done, now);
      && rows[i] == subs[i]
      && rows[i := Expire(rows[i], now)] == ExpiredRows(subs, done + {i}, now)
      && MollieSubs(subs, done) + MollieSubs(rows, {i}) == MollieSubs(subs, done + {i})
  {
    var rows := ExpiredRows(subs, done, now);
    MollieOneMore(subs, done, i);
    assert MollieSubs(rows, {i}) == MollieSubs(subs, {i});
  }

  lemma MollieOneMore(subs: map<SubId, Row>, done: set<SubId>, i: SubId)
    ensures MollieSubs(subs, done + {i}) == MollieSubs(subs, done) + MollieSubs(subs, {i})
  {
  }

  lemma DowngradeIs(w: World, ids: set<SubId>)
    requires w.plan.Pro? && ids != {}
    ensures Downgrade(w, ids)
         == w.(subs := ExpiredRows(w.subs, ids, w.now), stopped := w.stopped + MollieSubs(w.subs, ids),
               plan := if Comped(w) then w.plan else Free,
               graceUntil := if Comped(w) then w.graceUntil else None,
               lastActiveAt := if Comped(w) then w.lastActiveAt else w.now)
  {
    if Comped(w) {
    }
  }

  // ----- Charges -----

  /** No other row has this Mollie subscription. */
  lemma OwnMollieRow(w: World, i: SubId, m: MollieSubId)
    requires Inv(w) && HasMollie(w, i, m)
    ensures forall j | HasMollie(w, j, m) :: j == i
    ensures RowOf(w, m) == i
  {
    OneRowOf(w, m, i);
  }

  // ----- Checkouts -----

  /** Closing abandoned checkouts leaves the live row alone, and no scheduled one unless confirmed. */
  lemma CloseKeepsLive(w: World)
    requires RowsOk(w) && !HasConfirmed(w)
    ensures !HasScheduled(CloseAbandoned(w)) && (HasLive(CloseAbandoned(w)) <==> HasLive(w))
    ensures forall i | i in w.subs && Running(w.subs[i]) :: w.subs[i].startedAt.Some?
  {
    var w' := CloseAbandoned(w);
    forall i | i in w.subs ensures !w'.subs[i].status.Scheduled? && (Live(w'.subs[i]) <==> Live(w.subs[i])) {
    }
    forall i | i in w.subs && Running(w.subs[i]) ensures w.subs[i].startedAt.Some? {
      assert RowOk(w.subs[i], w.now);
    }
  }

  lemma WaitsMeans(w: World)
    ensures HasConfirmed(w) <==> exists i | i in w.subs :: w.subs[i].status.Scheduled? && w.subs[i].mollieSub.Some?
  {
    if i :| i in w.subs && w.subs[i].status.Scheduled? && w.subs[i].mollieSub.Some? { assert Confirmed(w.subs[i]); }
  }

  lemma NothingLive(w: World)
    requires !HasLive(w)
    ensures forall i | i in w.subs :: w.subs[i].status.Scheduled? || w.subs[i].status.Canceled? || w.subs[i].status.Expired?
  {
    assert forall i | i in w.subs :: !Live(w.subs[i]);
  }

  /** The one live row decides. */
  lemma LiveDecides(w: World, i: SubId)
    requires i in w.subs && Live(w.subs[i])
    ensures Blocks(w.subs[i], w.now) <==> !PeriodRuns(w.subs[i], w.now)
    ensures RowsOk(w) ==> forall j | j in w.subs && (Blocks(w.subs[j], w.now) || Running(w.subs[j])) :: j == i
  {
    assert forall j | j in w.subs && (Blocks(w.subs[j], w.now) || Running(w.subs[j])) :: Live(w.subs[j]);
  }

  function TargetRow(target: Target, customer: Customer, chosen: Plan, price: nat): Row {
    if target.Follows?
    then Row(Scheduled, customer, chosen, price, Some(target.predecessor), Some(target.startsAt), None, None, None, None, None)
    else Row(Incomplete, customer, chosen, price, None, None, None, None, None, None, None)
  }

  lemma FreeMeans(w: World, target: Target)
    requires RowsOk(w)
    requires target.Immediate? ==> forall i | i in w.subs :: w.subs[i].status.Scheduled? || w.subs[i].status.Canceled? || w.subs[i].status.Expired?
    requires target.Follows? ==> target.predecessor in w.subs && w.subs[target.predecessor].status.Active?
    ensures target.Immediate? ==> !HasLive(w) && forall i | i in w.subs :: !Blocks(w.subs[i], w.now)
    ensures target.Follows? ==> w.subs[target.predecessor].startedAt.Some?
  {
    if target.Follows? { assert RowOk(w.subs[target.predecessor], w.now); }
  }

  /** Abandoned checkouts are closed and one row is added. */
  predicate StartsRow(subs: map<SubId, Row>, subs': map<SubId, Row>, id: SubId, r: Row, now: Time) {
    && id !in subs && subs'.Keys == subs.Keys + {id} && subs'[id] == r
    && forall i | i in subs ::
         subs'[i] == if subs[i].status.Scheduled? then subs[i].(status := Canceled, canceledAt := Some(now)) else subs[i]
  }

  lemma StartsAtOnce(w: World, user: UserId, customer: Customer, chosen: Plan, price: nat)
    requires RowsOk(w) && !HasConfirmed(w) && MayCheckOut(w, user) && !HasLive(w)
    ensures var w' := InsertIncomplete(CloseAbandoned(w), user, customer, chosen, price);
      StartsRow(w.subs, w'.subs, w.nextId, Row(Incomplete, customer, chosen, price, None, None, None, None, None, None, None), w.now)
      && w'.nextId == w.nextId + 1
  {
    CloseKeepsLive(w);
    AbandonedClosed(w);
  }

  lemma StartsBehind(w: World, user: UserId, customer: Customer, chosen: Plan, price: nat, startsAt: Time, q: SubId)
    requires RowsOk(w) && !HasConfirmed(w) && MayCheckOut(w, user)
    ensures var w' := InsertScheduled(CloseAbandoned(w), user, customer, chosen, price, startsAt, q);
      StartsRow(w.subs, w'.subs, w.nextId,
                Row(Scheduled, customer, chosen, price, Some(q), Some(startsAt), None, None, None, None, None), w.now)
      && w'.nextId == w.nextId + 1
  {
    CloseKeepsLive(w);
    AbandonedClosed(w);
  }

  lemma AbandonedClosed(w: World)
    requires !HasConfirmed(w)
    ensures var w' := CloseAbandoned(w);
      && w'.subs.Keys == w.subs.Keys && w'.nextId == w.nextId && w'.owner == w.owner && w'.projectActive == w.projectActive
      && forall i | i in w.subs ::
           w'.subs[i] == if w.subs[i].status.Scheduled? then w.subs[i].(status := Canceled, canceledAt := Some(w.now)) else w.subs[i]
  {
    assert forall i | i in w.subs :: !Confirmed(w.subs[i]);
  }
}
