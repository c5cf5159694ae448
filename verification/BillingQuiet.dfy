/** The steps that only let rows progress: transfers, cancels, downgrades, reports that a
    Mollie subscription ended, and a superseded takeover. */
module BillingQuiet {
  import opened Prelude
  import opened Billing
  import opened BillingInvariant

  // ----- Single rows -----

  lemma SameQuiet(r: Row, now: Time)
    requires RowOk(r, now)
    ensures Quiet(r, r, now)
  {
  }

  lemma StampQuiet(r: Row, now: Time)
    requires RowOk(r, now)
    ensures Quiet(r, Stamp(r, now), now)
    ensures Quiet(r, Stamp(r, now).(status := Canceled), now)
    ensures Quiet(r, Expire(r, now), now)
  {
  }

  lemma CancelQuiet(r: Row, now: Time)
    requires RowOk(r, now)
    ensures Quiet(r, Cancel(r, now), now)
  {
  }

  lemma HandOverRowQuiet(r: Row, lastPaid: Option<Time>, now: Time)
    requires RowOk(r, now)
    ensures Quiet(r, HandOverRow(r, lastPaid, now), now)
  {
  }

  lemma EndRowQuiet(r: Row, m: MollieSubId, completed: bool, now: Time)
    requires RowOk(r, now)
    ensures Quiet(r, EndRow(r, m, completed, now), now)
  {
    SameQuiet(r, now);
    StampQuiet(r, now);
  }

  // ----- Whole steps -----

  lemma HandOverQuiet(w: World, newOwner: UserId, lastPaid: Option<Time>)
    requires EachRowOk(w.subs, w.now)
    ensures QuietRows(w, HandOver(w, newOwner, lastPaid))
  {
    forall i | i in w.subs ensures Quiet(w.subs[i], HandOverRow(w.subs[i], lastPaid, w.now), w.now) {
      HandOverRowQuiet(w.subs[i], lastPaid, w.now);
    }
  }

  lemma HandOverKeeps(w: World, newOwner: UserId, lastPaid: Option<Time>)
    requires Inv(w)
    ensures var w' := HandOver(w, newOwner, lastPaid); Inv(w') && Follows(w, w')
  {
    HandOverQuiet(w, newOwner, lastPaid);
    QuietKeeps(w, HandOver(w, newOwner, lastPaid));
  }

  lemma ExpireQuiet(subs: map<SubId, Row>, ids: set<SubId>, now: Time)
    requires EachRowOk(subs, now)
    ensures QuietSubs(subs, ExpiredRows(subs, ids, now), now)
  {
    forall i | i in subs ensures Quiet(subs[i], if i in ids then Expire(subs[i], now) else subs[i], now) {
      SameQuiet(subs[i], now);
      StampQuiet(subs[i], now);
    }
  }

  lemma SameRowsQuiet(w: World, w': World)
    requires EachRowOk(w.subs, w.now) && w'.subs == w.subs
    ensures QuietRows(w, w')
  {
    forall i | i in w.subs ensures Quiet(w.subs[i], w.subs[i], w.now) {
      SameQuiet(w.subs[i], w.now);
    }
  }

  lemma NothingKeeps(w: World)
    requires Inv(w)
    ensures Follows(w, w)
  {
    SameRowsQuiet(w, w);
    QuietKeeps(w, w);
  }

  lemma ToFreeKeeps(w: World)
    requires Inv(w)
    ensures Inv(ToFree(w)) && Follows(w, ToFree(w))
  {
    if w.plan.Pro? && !Comped(w) {
      SameRowsQuiet(w, ToFree(w));
      QuietKeeps(w, ToFree(w));
    } else {
      NothingKeeps(w);
    }
  }

  lemma ToFreeFrame(w: World)
    ensures ToFree(w) == w.(plan := ToFree(w).plan, graceUntil := ToFree(w).graceUntil, lastActiveAt := ToFree(w).lastActiveAt)
    ensures ToFree(w).graceUntil == w.graceUntil || ToFree(w).graceUntil.None?
  {
    if w.plan.Pro? && !Comped(w) {
    }
  }

  lemma ToFreeAfter(w: World, w1: World)
    requires Inv(w) && QuietRows(w, w1) && SameDeliveries(w, w1) && w1.graceUntil == w.graceUntil
    requires w1.invoices == w.invoices && w1.refunds == w.refunds
    ensures Inv(ToFree(w1)) && Follows(w, ToFree(w1))
  {
    ToFreeFrame(w1);
    QuietKeeps(w, ToFree(w1));
  }

  lemma DowngradeKeeps(w: World, ids: set<SubId>)
    requires Inv(w)
    ensures var w' := Downgrade(w, ids); Inv(w') && Follows(w, w')
  {
    if !w.plan.Pro? || ids == {} {
      NothingKeeps(w);
    } else {
      var w1 := ExpireAll(w, ids);
      ExpireQuiet(w.subs, ids, w.now);
      assert QuietRows(w, w1);
      ToFreeFrame(w1);
      ToFreeAfter(w, w1);
    }
  }

  /** Rows that only progress keep the invariant, whatever else stays. */
  lemma QuietSubsKeep(w: World, subs': map<SubId, Row>)
    requires Inv(w) && QuietSubs(w.subs, subs', w.now)
    ensures Inv(w.(subs := subs')) && Follows(w, w.(subs := subs'))
  {
    QuietKeeps(w, w.(subs := subs'));
  }

  lemma EndedKeeps(w: World, m: MollieSubId, completed: bool)
    requires Inv(w)
    ensures var w' := SubscriptionEnded(w, m, completed); Inv(w') && Follows(w, w')
  {
    forall i | i in w.subs ensures Quiet(w.subs[i], EndRow(w.subs[i], m, completed, w.now), w.now) {
      EndRowQuiet(w.subs[i], m, completed, w.now);
    }
    QuietKeeps(w, SubscriptionEnded(w, m, completed));
  }

  lemma SupersededKeeps(w: World, charged: bool)
    requires Inv(w)
    ensures var w' := Supersede(w, charged); Inv(w') && Follows(w, w')
  {
    forall i | i in w.subs ensures Quiet(w.subs[i], SupersedeRow(w.subs[i], w.now, charged), w.now) {
      SameQuiet(w.subs[i], w.now);
      CancelQuiet(w.subs[i], w.now);
    }
    QuietKeeps(w, Supersede(w, charged));
  }

  lemma CloseAbandonedKeeps(w: World)
    requires Inv(w)
    ensures var w' := CloseAbandoned(w); Inv(w') && Follows(w, w')
  {
    forall i | i in w.subs
      ensures Quiet(w.subs[i], w.subs[i], w.now) && Quiet(w.subs[i], Cancel(w.subs[i], w.now), w.now)
    {
      SameQuiet(w.subs[i], w.now);
      CancelQuiet(w.subs[i], w.now);
    }
    QuietKeeps(w, CloseAbandoned(w));
  }

  // ----- One row -----

  /** Replacing one row by a quiet successor, whatever happens to the plan and the owner. */
  lemma OneRowKeeps(w: World, id: SubId, r: Row, w': World)
    requires Inv(w) && id in w.subs && Quiet(w.subs[id], r, w.now) && SameDeliveries(w, w')
    requires w'.subs == w.subs[id := r] && w'.invoices == w.invoices && w'.refunds == w.refunds
    ensures Inv(w') && Follows(w, w')
  {
    forall i | i in w.subs ensures Quiet(w.subs[i], w'.subs[i], w.now) {
      SameQuiet(w.subs[i], w.now);
    }
    QuietKeeps(w, w');
  }

  // ----- Cancels and stops -----

  lemma CanceledRowQuiet(r: Row, kind: CancelKind, now: Time)
    requires RowOk(r, now)
    ensures Quiet(r, CanceledRow(r, kind, now), now)
  {
    StampQuiet(r, now);
    CancelQuiet(r, now);
  }

  lemma SameRowsKeep(w: World, w': World)
    requires Inv(w) && SameDeliveries(w, w')
    requires w'.subs == w.subs && w'.invoices == w.invoices && w'.refunds == w.refunds
    ensures Inv(w') && Follows(w, w')
  {
    SameRowsQuiet(w, w');
    QuietKeeps(w, w');
  }

  lemma UpdateCanceledKeeps(w: World, c: RequestId)
    requires Inv(w) && c in w.cancels
    ensures var w' := UpdateCanceled(w, c); Inv(w') && Follows(w, w')
  {
    var w', q := UpdateCanceled(w, c), w.cancels[c];
    if q.id in w.subs {
      CanceledRowQuiet(w.subs[q.id], q.kind, w.now);
      OneRowKeeps(w, q.id, CanceledRow(w.subs[q.id], q.kind, w.now), w');
    } else {
      SameRowsKeep(w, w');
    }
  }
}
