/** Webhook deliveries: first payments, renewals and failures, each shown to keep the invariant. */
module BillingDeliveries {
  import opened Prelude
  import opened Billing
  import opened BillingInvariant
  import opened BillingFrames
  import opened BillingQuiet
  import opened BillingKept
  import opened BillingPayments
  import Calendar

  lemma ThenKept(w: World, w': World, w'': World)
    requires Inv(w) && Kept(w, w') && Kept(w', w'')
    ensures Kept(w, w'')
  {
    FollowsTransitive(w, w', w'');
  }

  // ----- First payments, up to the Mollie call -----

  lemma CloseUnconfirmedKeeps(w: World, id: SubId)
    requires Inv(w)
    ensures Kept(w, CloseUnconfirmed(w, id))
  {
    if id in w.subs && Unconfirmed(w.subs[id]) {
      StampQuiet(w.subs[id], w.now);
      OneRowKeeps(w, id, Stamp(w.subs[id], w.now).(status := Canceled), CloseUnconfirmed(w, id));
    } else {
      NothingKeeps(w);
    }
  }

  lemma CloseUnconfirmedFrame(w: World, id: SubId)
    requires id in w.subs
    ensures var w' := CloseUnconfirmed(w, id);
      && w' == w.(subs := w'.subs) && id in w'.subs && w'.subs[id].mollieSub == w.subs[id].mollieSub
      && (Running(w'.subs[id]) ==> Running(w.subs[id])) && (w.subs[id].mollieSub.None? && !Running(w.subs[id]) ==> Closed(w'.subs[id]))
  {
    if Unconfirmed(w.subs[id]) {
    }
  }

  lemma RefuseFirstKeeps(w: World, p: PaymentId)
    requires Inv(w) && IsFirst(w, p) && w.payments[p].state.Paid? && p !in w.activating
    requires w.payments[p].sub in w.subs && w.subs[w.payments[p].sub].mollieSub.None?
    ensures Kept(w, RefundFirst(CloseUnconfirmed(w, w.payments[p].sub), p, w.payments[p].amount))
  {
    var w1 := CloseUnconfirmed(w, w.payments[p].sub);
    assert FirstOk(w, p);
    CloseUnconfirmedKeeps(w, w.payments[p].sub);
    CloseUnconfirmedFrame(w, w.payments[p].sub);
    RefundFirstKeeps(w1, p);
    ThenKept(w, w1, RefundFirst(w1, p, w.payments[p].amount));
  }

  lemma CreateSubscriptionKeeps(w: World, p: PaymentId, m: MollieSubId, w': World)
    requires Inv(w) && IsFirst(w, p) && w.payments[p].state.Paid? && p !in w.activating
    requires Answers(w, w.payments[p].sub, Some(m))
    requires w.payments[p].sub in w.subs && Unconfirmed(w.subs[w.payments[p].sub])
    requires var i := w.payments[p].sub;
      w' == w.(created := w.created[i := m],
               activating := w.activating[p := Activation(i, m, w.subs[i].status.Scheduled?)])
    ensures Kept(w, w')
  {
    var i := w.payments[p].sub;
    assert RowOk(w.subs[i], w.now);
    SameSubsKept(w, w');
    CreatedMollieOk(w, i, m, w');
    ChargesKept(w, w');
    CreatedFirsts(w, p, m, w');
    FirstsKept(w, w', i);
  }

  lemma CreatedFirsts(w: World, p: PaymentId, m: MollieSubId, w': World)
    requires FirstsOk(w) && IsFirst(w, p) && w.payments[p].state.Paid? && p !in w.activating
    requires w.payments[p].sub in w.subs && Unconfirmed(w.subs[w.payments[p].sub]) && RowOk(w.subs[w.payments[p].sub], w.now)
    requires var i := w.payments[p].sub;
      w' == w.(created := w.created[i := m],
               activating := w.activating[p := Activation(i, m, w.subs[i].status.Scheduled?)])
    ensures forall q | q in w'.payments && w'.payments[q].First? ::
      if w'.payments[q].sub == w.payments[p].sub then FirstOk(w', q) else SameFirst(w, w', q)
  {
    forall q | q in w'.payments && w'.payments[q].First?
      ensures if w'.payments[q].sub == w.payments[p].sub then FirstOk(w', q) else SameFirst(w, w', q)
    {
      assert FirstOk(w, q);
    }
  }

  lemma SameSubsKept(w: World, w': World)
    requires RowsOk(w) && GraceOk(w)
    requires w'.subs == w.subs && w'.now == w.now && w'.nextId == w.nextId && w'.graceUntil == w.graceUntil
    ensures RowsOk(w') && GraceOk(w') && Follows(w, w') && RowsEvolve(w, w')
  {
    SameEvolve(w);
  }

  lemma CreatedMollieOk(w: World, i: SubId, m: MollieSubId, w': World)
    requires MollieOk(w) && Answers(w, i, Some(m)) && i in w.subs && i < w.nextId && w.subs[i].mollieSub.None?
    requires w'.subs == w.subs && w'.created == w.created[i := m] && w'.nextId == w.nextId
    ensures MollieOk(w')
  {
  }

  lemma SupersededCheckoutKeeps(w: World, i: SubId)
    requires Inv(w) && i in w.subs && w.subs[i].status.Scheduled?
    ensures Kept(w, w.(subs := w.subs[i := Cancel(w.subs[i], w.now)]))
  {
    assert RowOk(w.subs[i], w.now);
    CancelQuiet(w.subs[i], w.now);
    OneRowKeeps(w, i, Cancel(w.subs[i], w.now), w.(subs := w.subs[i := Cancel(w.subs[i], w.now)]));
  }

  lemma BeginFirstKeeps(w: World, p: PaymentId, answer: Option<MollieSubId>)
    requires Inv(w) && IsFirst(w, p) && w.payments[p].state.Paid? && p !in w.activating
    requires Answers(w, w.payments[p].sub, answer)
    ensures Kept(w, BeginFirst(w, p, answer))
  {
    var f := w.payments[p];
    assert FirstOk(w, p);
    if f.sub !in w.subs {
      NothingKeeps(w);
    } else {
      var r := w.subs[f.sub];
      assert RowOk(r, w.now);
      if r.mollieSub.Some? {
        NothingKeeps(w);
        MarkFirstKeeps(w, p, InvoicePaid);
      } else if (!r.status.Incomplete? && !r.status.Scheduled?) || !PayerIsOwner(w, r, f.customer) {
        RefuseFirstKeeps(w, p);
      } else if r.status.Scheduled? && Conflicting(w) {
        SupersededCheckoutKeeps(w, f.sub);
      } else if answer.None? {
        NothingKeeps(w);
      } else {
        CreateSubscriptionKeeps(w, p, answer.value, StartActivation(w, p, f.sub, answer.value, r.status.Scheduled?));
      }
    }
  }

  // ----- First payments, after the Mollie call -----

  /** A delivery ends without recording its Mollie subscription. */
  lemma DropKeeps(w: World, p: PaymentId, w': World)
    requires Inv(w) && IsFirst(w, p) && p in w.activating
    requires w' == w.(activating := w.activating - {p}, stopped := w'.stopped)
    ensures Kept(w, w')
  {
    assert FirstOk(w, p);
    SameRowsKept(w, w');
    ChargesKept(w, w');
    forall q | q in w'.payments && w'.payments[q].First?
      ensures if w'.payments[q].sub == w.payments[p].sub then FirstOk(w', q) else SameFirst(w, w', q)
    {
      assert FirstOk(w, q);
    }
    FirstsKept(w, w', w.payments[p].sub);
  }

  lemma AbandonKeeps(w: World, p: PaymentId)
    requires Inv(w) && IsFirst(w, p) && p in w.activating
    requires var i := w.payments[p].sub; i in w.subs ==> Closed(w.subs[i])
    ensures Kept(w, Abandon(w.(activating := w.activating - {p}), p, w.activating[p].mollie, w.payments[p].amount))
  {
    assert FirstOk(w, p);
    var w1 := w.(activating := w.activating - {p}, stopped := w.stopped + {w.activating[p].mollie});
    DropKeeps(w, p, w1);
    RefundFirstKeeps(w1, p);
    ThenKept(w, w1, RefundFirst(w1, p, w.payments[p].amount));
  }

  /** The row recorded by the delivery: a confirmed scheduled one, or a live one. */
  lemma RecordRowsKept(w: World, i: SubId, r': Row, w': World)
    requires RowsPart(w) && i in w.subs && i in w.created && Unconfirmed(w.subs[i])
    requires Evolves(w.subs[i], r', w.now) && RowOk(r', w.now) && r'.mollieSub == Some(w.created[i])
    requires if w.subs[i].status.Scheduled? then r'.status.Scheduled? && w'.graceUntil == w.graceUntil
             else r'.status.Active? && w'.graceUntil.None?
    requires w'.subs == w.subs[i := r'] && w'.now == w.now && w'.nextId == w.nextId && w'.created == w.created
    ensures RowsPart(w') && Follows(w, w')
  {
    SameEvolve(w);
    assert RowsOk(w') && Follows(w, w');
    assert MollieOk(w');
  }

  lemma RecordFirsts(w: World, p: PaymentId, r': Row, w': World)
    requires FirstsOk(w) && IsFirst(w, p) && p in w.activating && w.payments[p].sub in w.subs
    requires var i := w.payments[p].sub;
      && i in w.created && Unconfirmed(w.subs[i]) && r'.mollieSub == Some(w.created[i]) && r'.startsAt == w.subs[i].startsAt
      && !Closed(r')
      && w' == w.(activating := w.activating - {p}, subs := w.subs[i := r'], plan := w'.plan, graceUntil := w'.graceUntil)
    requires p in w.invoices ==> w.invoices[p].status.InvoicePaid?
    ensures forall q | q in w.payments && w.payments[q].First? ::
      if w.payments[q].sub == w.payments[p].sub then FirstOk(w', q) else SameFirst(w, w', q)
  {
    forall q | q in w.payments && w.payments[q].First?
      ensures if w.payments[q].sub == w.payments[p].sub then FirstOk(w', q) else SameFirst(w, w', q)
    {
      assert FirstOk(w, q);
    }
  }

  lemma RecordKeeps(w: World, p: PaymentId, r': Row, w': World)
    requires Inv(w) && IsFirst(w, p) && p in w.activating && w.payments[p].sub in w.subs
    requires var i := w.payments[p].sub;
      && Unconfirmed(w.subs[i]) && Evolves(w.subs[i], r', w.now) && RowOk(r', w.now)
      && r'.mollieSub == Some(w.activating[p].mollie)
      && (if w.subs[i].status.Scheduled? then r'.status.Scheduled? && w'.graceUntil == w.graceUntil
          else r'.status.Active? && w'.graceUntil.None?)
      && w' == w.(activating := w.activating - {p}, subs := w.subs[i := r'], plan := w'.plan, graceUntil := w'.graceUntil)
    requires p in w.invoices ==> w.invoices[p].status.InvoicePaid?
    ensures Kept(w, w')
  {
    var i := w.payments[p].sub;
    assert FirstOk(w, p);
    RecordRowsKept(w, i, r', w');
    FollowsEvolve(w, w');
    ChargesKept(w, w');
    RecordFirsts(w, p, r', w');
    FirstsKept(w, w', i);
  }

  lemma ConfirmKeeps(w: World, p: PaymentId, next: Option<Time>)
    requires Inv(w) && IsFirst(w, p) && p in w.activating
    requires var i := w.payments[p].sub; i in w.subs && w.subs[i].status.Scheduled? && w.subs[i].mollieSub.None?
    ensures var i := w.payments[p].sub;
      Kept(w, Confirm(w, p, i, w.activating[p].mollie, next))
  {
    var i := w.payments[p].sub;
    assert FirstOk(w, p);
    assert RowOk(w.subs[i], w.now);
    RecordKeeps(w, p, w.subs[i].(mollieSub := Some(w.activating[p].mollie), nextChargeAt := next),
                Confirm(w, p, i, w.activating[p].mollie, next));
  }

  lemma FlipIs(w: World, p: PaymentId, i: SubId, mollie: MollieSubId, next: Option<Time>)
    requires i in w.subs
    ensures var w1, w2 := MarkInvoice(w, p, InvoicePaid), Flip(w, p, i, mollie, next);
      && i in w2.subs && w2 == w1.(activating := w.activating - {p}, subs := w.subs[i := w2.subs[i]], plan := w2.plan, graceUntil := None)
      && w1.subs == w.subs && w1.activating == w.activating
      && w2.subs[i] == w.subs[i].(mollieSub := Some(mollie), status := Active,
                                  startedAt := w.subs[i].startedAt.Or(Some(w.now)), nextChargeAt := next)
  {
    if p in w.invoices {
    }
  }

  lemma FlipKeeps(w: World, p: PaymentId, next: Option<Time>)
    requires Inv(w) && IsFirst(w, p) && p in w.activating
    requires var i := w.payments[p].sub; i in w.subs && w.subs[i].status.Incomplete?
    ensures var i := w.payments[p].sub; Kept(w, Flip(w, p, i, w.activating[p].mollie, next))
  {
    var i := w.payments[p].sub;
    assert FirstOk(w, p);
    assert RowOk(w.subs[i], w.now);
    MarkFirstKeeps(w, p, InvoicePaid);
    var w1 := MarkInvoice(w, p, InvoicePaid);
    var w2 := Flip(w, p, i, w.activating[p].mollie, next);
    FlipIs(w, p, i, w.activating[p].mollie, next);
    RecordKeeps(w1, p, w2.subs[i], w2);
    ThenKept(w, w1, w2);
  }

  lemma FinishFirstKeeps(w: World, p: PaymentId, next: Option<Time>)
    requires Inv(w) && IsFirst(w, p) && p in w.activating
    ensures Kept(w, FinishFirst(w, p, next))
  {
    assert FirstOk(w, p);
    var a := w.activating[p];
    if a.sub in w.subs && Unconfirmed(w.subs[a.sub]) {
      assert RowOk(w.subs[a.sub], w.now);
      if a.scheduled {
        ConfirmKeeps(w, p, next);
      } else {
        FlipKeeps(w, p, next);
      }
    } else {
      AbandonKeeps(w, p);
    }
  }

  lemma CrashFirstKeeps(w: World, p: PaymentId)
    requires Inv(w) && p in w.activating
    ensures Kept(w, CrashFirst(w, p))
  {
    DropKeeps(w, p, CrashFirst(w, p));
  }

  lemma FailUnconfirmedKeeps(w: World, i: SubId)
    requires Inv(w) && i in w.subs
    ensures Kept(w, w.(subs := w.subs[i := Cancel(w.subs[i], w.now)]))
  {
    CancelQuiet(w.subs[i], w.now);
    OneRowKeeps(w, i, Cancel(w.subs[i], w.now), w.(subs := w.subs[i := Cancel(w.subs[i], w.now)]));
  }

  lemma FirstFailedKeeps(w: World, p: PaymentId)
    requires Inv(w) && IsFirst(w, p) && w.payments[p].state.Failed?
    ensures Kept(w, FirstFailed(w, p))
  {
    assert FirstOk(w, p);
    var w1 := MarkInvoice(w, p, InvoiceFailed);
    MarkFirstKeeps(w, p, InvoiceFailed);
    var i := w.payments[p].sub;
    if i in w.subs && (w.subs[i].status.Incomplete? || (w.subs[i].status.Scheduled? && w.subs[i].mollieSub.None?)) {
      FailUnconfirmedKeeps(w1, i);
      assert FirstFailed(w, p) == w1.(subs := w1.subs[i := Cancel(w1.subs[i], w1.now)]);
      ThenKept(w, w1, FirstFailed(w, p));
    }
  }

  // ----- Recurring charges -----

  lemma SupersedeFrame(w: World, charged: bool)
    ensures SameTables(w, Supersede(w, charged)) && Supersede(w, charged).now == w.now
    ensures Supersede(w, charged).nextId == w.nextId
  {
  }

  lemma TakeOverFrame(w: World, charged: bool)
    requires AnyDue(w, charged)
    ensures SameTables(w, TakeOver(w, charged)) && TakeOver(w, charged).now == w.now
    ensures TakeOver(w, charged).nextId == w.nextId
  {
  }

  lemma PromoteFrame(w: World, charged: bool)
    ensures SameTables(w, Promote(w, charged)) && Promote(w, charged).now == w.now
    ensures Promote(w, charged).nextId == w.nextId
  {
    match PromotionOf(w, charged)
    case NothingDue =>
    case IndexViolation =>
    case Superseded => SupersedeFrame(w, charged);
    case TookOver => TakeOverFrame(w, charged);
  }

  /** Only the renewals in flight and the invoices of recurring charges change. */
  lemma RenewalTablesKeep(w: World, w': World)
    requires Inv(w) && w' == w.(renewing := w'.renewing, invoices := w'.invoices) && ChargesOk(w')
    requires forall p | p in w.payments && w.payments[p].First? ::
      if p in w.invoices then p in w'.invoices && w'.invoices[p] == w.invoices[p] else p !in w'.invoices
    ensures Kept(w, w')
  {
    SameRowsKept(w, w');
    FirstsSame(w, w');
  }

  lemma LoadScheduledKeeps(w: World, p: PaymentId)
    requires Inv(w) && IsCharge(w, p) && ScheduledFor(w, w.payments[p].mollieSub)
    ensures Kept(w, LoadScheduled(w, p))
  {
    assert forall j, m | HasMollie(w, j, m) :: HasMollie(LoadScheduled(w, p), j, m);
    RenewalTablesKeep(w, LoadScheduled(w, p));
  }

  lemma TakeOverChargedKeeps(w: World, p: PaymentId)
    requires Inv(w)
    ensures Kept(w, TakeOverCharged(w, p))
  {
    CrashRenewalKeeps(w, p);
    PromoteKeeps(CrashRenewal(w, p), true);
    ThenKept(w, CrashRenewal(w, p), TakeOverCharged(w, p));
  }

  lemma StartRenewalKeeps(w: World, p: PaymentId, i: SubId, previous: Option<Time>)
    requires Inv(w) && IsCharge(w, p) && HasMollie(w, i, w.payments[p].mollieSub)
    requires ChargedBeforeCancel(w.subs[i], w.payments[p].createdAt)
    ensures Kept(w, w.(renewing := w.renewing[p := Renewal(i, previous)]))
  {
    var w' := w.(renewing := w.renewing[p := Renewal(i, previous)]);
    assert forall j, m | HasMollie(w, j, m) :: HasMollie(w', j, m);
    RenewalTablesKeep(w, w');
  }

  lemma RenewRowKeeps(w: World, p: PaymentId, i: SubId)
    requires Inv(w) && IsCharge(w, p) && HasMollie(w, i, w.payments[p].mollieSub)
    ensures Kept(w, RenewRow(w, p, i))
  {
    if ChargedBeforeCancel(w.subs[i], w.payments[p].createdAt) {
      StartRenewalKeeps(w, p, i, w.subs[i].nextChargeAt);
    } else {
      RefundChargeKeeps(w, p, w.payments[p].mollieSub);
    }
  }

  lemma RenewAnyKeeps(w: World, p: PaymentId)
    requires Inv(w) && IsCharge(w, p)
    ensures Kept(w, RenewAny(w, p))
  {
    if exists i :: HasMollie(w, i, w.payments[p].mollieSub) {
      RenewRowKeeps(w, p, RowOf(w, w.payments[p].mollieSub));
    } else {
      NothingKeeps(w);
    }
  }

  lemma BeginRenewalKeeps(w: World, p: PaymentId)
    requires Inv(w) && IsCharge(w, p)
    ensures Kept(w, BeginRenewal(w, p))
  {
    if ScheduledFor(w, w.payments[p].mollieSub) {
      NothingKeeps(w);
    } else {
      RenewAnyKeeps(w, p);
    }
  }

  lemma RenewedRowQuiet(r: Row, next: Option<Time>, now: Time)
    requires RowOk(r, now)
    ensures Quiet(r, RenewedRow(r, next), now)
  {
  }

  lemma RenewalInvoiceKeeps(w: World, p: PaymentId, v: Invoice, w': World)
    requires Inv(w) && p in w.renewing && w.renewing[p].Renewal? && v.sub == w.renewing[p].sub
    requires w' == w.(renewing := w.renewing - {p}, invoices := w'.invoices)
    requires w'.invoices == w.invoices
          || (p !in w.invoices && w'.invoices == w.invoices[p := v])
    ensures Kept(w, w')
  {
    assert HasMollie(w, w.renewing[p].sub, w.payments[p].mollieSub);
    assert ChargedBeforeCancel(w.subs[w.renewing[p].sub], w.payments[p].createdAt);
    assert forall j, m | HasMollie(w, j, m) :: HasMollie(w', j, m);
    assert ChargesOk(w');
    RenewalTablesKeep(w, w');
  }

  lemma FinishRenewalKeeps(w: World, p: PaymentId, mollieDate: Option<Time>)
    requires Inv(w) && p in w.renewing && w.renewing[p].Renewal?
    ensures Kept(w, FinishRenewal(w, p, mollieDate))
  {
    var i := w.renewing[p].sub;
    assert HasMollie(w, i, w.payments[p].mollieSub);
    var w2 := FinishRenewal(w, p, mollieDate);
    var w1 := w.(renewing := w.renewing - {p}, invoices := w2.invoices);
    RenewalInvoiceKeeps(w, p, Invoice(i, w.subs[i].price, InvoicePaid, Some(w.now)), w1);
    RenewedRowQuiet(w.subs[i], Calendar.RenewalNextCharge(mollieDate, w.renewing[p].previous, w.now), w.now);
    OneRowKeeps(w1, i, w2.subs[i], w2);
    ThenKept(w, w1, w2);
  }

  lemma CrashRenewalKeeps(w: World, p: PaymentId)
    requires Inv(w)
    ensures Kept(w, CrashRenewal(w, p))
  {
    var w' := CrashRenewal(w, p);
    assert forall j, m | HasMollie(w, j, m) :: HasMollie(w', j, m);
    RenewalTablesKeep(w, w');
  }

  lemma FailRowQuiet(r: Row, m: MollieSubId, now: Time)
    requires RowOk(r, now)
    ensures Quiet(r, FailRow(r, m, now), now)
  {
  }

  lemma FailRowsQuiet(subs: map<SubId, Row>, m: MollieSubId, now: Time)
    requires EachRowOk(subs, now)
    ensures QuietSubs(subs, FailedRows(subs, m, now), now)
  {
    forall i | i in subs ensures Quiet(subs[i], FailRow(subs[i], m, now), now) {
      FailRowQuiet(subs[i], m, now);
    }
  }

  lemma FailRowsKeep(w: World, m: MollieSubId)
    requires Inv(w)
    ensures Kept(w, w.(subs := FailedRows(w.subs, m, w.now)))
  {
    FailRowsQuiet(w.subs, m, w.now);
    QuietSubsKeep(w, FailedRows(w.subs, m, w.now));
  }

  lemma RecordFailureKeeps(w: World, p: PaymentId)
    requires Inv(w) && IsCharge(w, p)
    ensures Kept(w, RecordFailure(w, p))
  {
    var m := w.payments[p].mollieSub;
    var w1 := w.(subs := FailedRows(w.subs, m, w.now));
    FailRowsKeep(w, m);
    MarkChargeKeeps(w1, p, InvoiceFailed);
    ThenKept(w, w1, RecordFailure(w, p));
  }

  lemma ChargeFailedKeeps(w: World, p: PaymentId)
    requires Inv(w) && IsCharge(w, p)
    ensures Kept(w, ChargeFailed(w, p))
  {
    if ScheduledFor(w, w.payments[p].mollieSub) {
      NothingKeeps(w);
    } else {
      RecordFailureKeeps(w, p);
    }
  }
}
