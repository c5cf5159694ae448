/** The steps that make a row live or scheduled, give it a Mollie subscription, or move a
    payment along, each shown to keep the invariant. */
module BillingKept {
  import opened Prelude
  import opened Billing
  import opened BillingInvariant
  import opened BillingFrames
  import opened BillingQuiet

  ghost predicate Kept(w: World, w': World) {
    Inv(w') && Follows(w, w')
  }

  /** The parts of the invariant that do not mention payments. */
  ghost predicate RowsPart(w: World) {
    RowsOk(w) && MollieOk(w) && GraceOk(w)
  }

  // ----- Takeover -----

  lemma TakeOverRowEvolves(r: Row, now: Time, charged: bool)
    requires RowOk(r, now)
    ensures var r' := TakeOverRow(r, now, charged); Evolves(r, r', now) && RowOk(r', now)
    ensures TakeOverRow(r, now, charged).mollieSub == r.mollieSub
    ensures Live(TakeOverRow(r, now, charged)) ==> Due(r, now, charged) || r.status.Incomplete?
    ensures TakeOverRow(r, now, charged).status.Scheduled? ==> r.status.Scheduled?
  {
  }

  /** A project with a scheduled subscription is past its legacy grace. */
  lemma ScheduledHasNoGrace(w: World, s: SubId)
    requires EachRowOk(w.subs, w.now) && GraceOk(w) && s in w.subs && w.subs[s].status.Scheduled?
    ensures w.graceUntil.None?
  {
    assert RowOk(w.subs[s], w.now);
    var q := w.subs[s].predecessor.value;
    assert q in w.subs && w.subs[q].startedAt.Some?;
  }

  /** What the takeover does to the rows: only `s`, which was scheduled, ends live. */
  ghost predicate TakenOver(w: World, w': World, s: SubId) {
    && s in w.subs && w.subs[s].status.Scheduled?
    && w'.subs.Keys == w.subs.Keys
    && forall i | i in w.subs ::
         && Evolves(w.subs[i], w'.subs[i], w.now) && RowOk(w'.subs[i], w.now)
         && w'.subs[i].mollieSub == w.subs[i].mollieSub
         && (Live(w'.subs[i]) ==> i == s)
         && (w'.subs[i].status.Scheduled? ==> w.subs[i].status.Scheduled? && i != s)
  }

  lemma TakeOverRows(w: World, charged: bool) returns (s: SubId)
    requires RowsOk(w) && PromotionOf(w, charged).TookOver?
    ensures TakenOver(w, TakeOver(w, charged), s)
  {
    s :| s in w.subs && Due(w.subs[s], w.now, charged);
    var w' := TakeOver(w, charged);
    forall i | i in w.subs
      ensures Evolves(w.subs[i], w'.subs[i], w.now) && RowOk(w'.subs[i], w.now)
      ensures w'.subs[i].mollieSub == w.subs[i].mollieSub
      ensures Live(w'.subs[i]) ==> i == s
      ensures w'.subs[i].status.Scheduled? ==> w.subs[i].status.Scheduled? && i != s
    {
      assert EachRowOk(w.subs, w.now);
      TakeOverRowEvolves(w.subs[i], w.now, charged);
    }
  }

  lemma TakenOverRowsPart(w: World, w': World, s: SubId)
    requires RowsPart(w) && TakenOver(w, w', s)
    requires w'.now == w.now && w'.nextId == w.nextId && w'.created == w.created && w'.graceUntil == None
    ensures RowsPart(w') && Follows(w, w')
  {
    assert RowsOk(w') && Follows(w, w');
    assert MollieOk(w');
  }

  lemma TakeOverKeeps(w: World, charged: bool)
    requires Inv(w) && PromotionOf(w, charged).TookOver?
    ensures Kept(w, TakeOver(w, charged))
  {
    var w' := TakeOver(w, charged);
    var s := TakeOverRows(w, charged);
    ScheduledHasNoGrace(w, s);
    TakenOverRowsPart(w, w', s);
    FollowsEvolve(w, w');
    ChargesKept(w, w');
    forall p | p in w.payments && w.payments[p].First? ensures SameFirst(w, w', p) {
      var i := w.payments[p].sub;
      if i in w.subs { TakeOverRowEvolves(w.subs[i], w.now, charged); }
    }
    FirstsSame(w, w');
  }

  lemma PromoteKeeps(w: World, charged: bool)
    requires Inv(w)
    ensures Kept(w, Promote(w, charged))
  {
    match PromotionOf(w, charged)
    case Superseded => SupersededKeeps(w, charged);
    case TookOver => TakeOverKeeps(w, charged);
    case NothingDue => NothingKeeps(w);
    case IndexViolation => NothingKeeps(w);
  }

  // ----- Clock and surroundings -----

  lemma TickKeeps(w: World, seconds: nat)
    requires Inv(w)
    ensures Kept(w, Elapse(w, seconds))
  {
    var w' := Elapse(w, seconds);
    ElapsedRows(w, seconds);
    ChargesKept(w, w');
    FirstsSame(w, w');
  }

  lemma ElapsedRows(w: World, seconds: nat)
    requires RowsPart(w)
    ensures var w' := Elapse(w, seconds); RowsPart(w') && Follows(w, w') && RowsEvolve(w, w')
  {
    SameEvolve(w);
  }

  lemma SurroundingsKeep(w: World, w': World)
    requires Inv(w) && w' == w.(customerOf := w'.customerOf, compedUntil := w'.compedUntil)
    ensures Kept(w, w')
  {
    SameRowsQuiet(w, w');
    QuietKeeps(w, w');
  }

  // ----- Checkouts -----

  /** A row a checkout may insert. */
  ghost predicate Insertable(w: World, r: Row) {
    && RowOk(r, w.now) && Unconfirmed(r)
    && (r.status.Incomplete? ==> !HasLive(w))
    && (r.status.Scheduled? ==> !HasScheduled(w))
    && (r.predecessor.Some? ==> r.predecessor.value in w.subs && w.subs[r.predecessor.value].startedAt.Some?)
  }

  lemma SameEvolve(w: World)
    requires EachRowOk(w.subs, w.now)
    ensures forall i | i in w.subs :: Evolves(w.subs[i], w.subs[i], w.now)
  {
  }

  lemma InsertRows(w: World, r: Row, w': World)
    requires RowsOk(w) && Insertable(w, r) && w' == w.(subs := w.subs[w.nextId := r], nextId := w.nextId + 1)
    ensures RowsOk(w') && Follows(w, w') && RowsEvolve(w, w')
  {
    SameEvolve(w);
  }

  lemma InsertLinks(w: World, r: Row, w': World)
    requires RowsPart(w) && Insertable(w, r) && w' == w.(subs := w.subs[w.nextId := r], nextId := w.nextId + 1)
    ensures MollieOk(w') && GraceOk(w')
  {
  }

  lemma InsertFirsts(w: World, r: Row, w': World)
    requires FirstsOk(w) && w' == w.(subs := w.subs[w.nextId := r], nextId := w.nextId + 1)
    ensures FirstsOk(w')
  {
    forall p | p in w.payments && w.payments[p].First? ensures SameFirst(w, w', p) {
      assert FirstOk(w, p);
    }
    FirstsSame(w, w');
  }

  lemma InsertKeeps(w: World, r: Row, w': World)
    requires Inv(w) && Insertable(w, r) && w' == w.(subs := w.subs[w.nextId := r], nextId := w.nextId + 1)
    ensures Kept(w, w')
  {
    InsertRows(w, r, w');
    InsertLinks(w, r, w');
    ChargesKept(w, w');
    InsertFirsts(w, r, w');
  }

  lemma FirstOfRemoved(w: World, id: SubId, w': World)
    requires FirstsOk(w) && id in w.subs && Unconfirmed(w.subs[id])
    requires forall p | p in w.invoices && IsFirst(w, p) :: w.invoices[p].sub != id
    requires w' == w.(subs := Remove(w.subs, id))
    ensures forall p | p in w.payments && w.payments[p].First? && w.payments[p].sub == id :: FirstOk(w', p)
  {
    forall p | p in w.payments && w.payments[p].First? && w.payments[p].sub == id ensures FirstOk(w', p) {
      assert FirstOk(w, p);
    }
  }

  lemma RemovedRows(w: World, id: SubId, w': World)
    requires RowsPart(w) && id in w.subs && Unconfirmed(w.subs[id]) && w' == w.(subs := Remove(w.subs, id))
    ensures RowsPart(w') && Follows(w, w') && RowsEvolve(w, w')
  {
    SameEvolve(w);
  }

  lemma RemoveKeeps(w: World, id: SubId, w': World)
    requires Inv(w) && id in w.subs && Unconfirmed(w.subs[id])
    requires forall p | p in w.invoices && IsFirst(w, p) :: w.invoices[p].sub != id
    requires w' == w.(subs := Remove(w.subs, id))
    ensures Kept(w, w')
  {
    RemovedRows(w, id, w');
    ChargesKept(w, w');
    FirstOfRemoved(w, id, w');
    FirstsKept(w, w', id);
  }
}
