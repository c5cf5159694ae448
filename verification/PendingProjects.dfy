/** Checkouts of projects that do not exist yet: one row per checkout, guarded by a per-owner
    lock, a cooldown and a partial unique index. */
module PendingProjects {
  import opened Prelude
  import opened Runs

  type Time = int    // seconds
  type Owner = int
  type RowId = nat
  type TxId = int
  type PaymentId = int

  const COOLDOWN: Time := 300
  const LIFETIME: Time := 24 * 3600

  datatype Row = Row(owner: Owner, created: Time, payment: Option<PaymentId>)

  function ExpiresAt(r: Row): Time {
    r.created + LIFETIME
  }

  // ----- The statements of the lock transaction -----

  /** Left behind by a request that died before its Mollie call. */
  predicate Stale(r: Row, owner: Owner, now: Time) {
    r.owner == owner && r.payment.None? && r.created < now - COOLDOWN
  }

  function StaleIds(rows: map<RowId, Row>, owner: Owner, now: Time): set<RowId> {
    set i | i in rows && Stale(rows[i], owner, now)
  }

  predicate InFlight(r: Row, owner: Owner, now: Time) {
    r.owner == owner
    && ((r.payment.Some? && r.created > now - COOLDOWN) || (r.payment.None? && ExpiresAt(r) > now))
  }

  predicate AnyInFlight(rows: map<RowId, Row>, owner: Owner, now: Time) {
    exists i :: i in rows && InFlight(rows[i], owner, now)
  }

  /** idx_pending_projects_owner_unresolved refuses a second unresolved row. */
  predicate IndexRefuses(rows: map<RowId, Row>, owner: Owner) {
    exists i :: i in rows && rows[i].owner == owner && rows[i].payment.None?
  }

  // ----- Interleaved transactions -----

  datatype Phase = Started | Locked | Reclaimed | Clear | Inserted(id: RowId)

  /** `start` is what now() returns throughout the transaction. */
  datatype Tx = Tx(owner: Owner, start: Time, phase: Phase, deleted: set<RowId>)

  datatype State = State(now: Time, rows: map<RowId, Row>, nextId: RowId, txs: map<TxId, Tx>)

  predicate Holding(t: Tx) {
    !t.phase.Started?
  }

  /** What the transaction's own statements see. */
  function View(s: State, t: Tx): map<RowId, Row> {
    s.rows - t.deleted
  }

  /** A row some open transaction has deleted cannot be written by anyone else. */
  predicate RowLocked(s: State, id: RowId) {
    exists t :: t in s.txs && id in s.txs[t].deleted
  }

  datatype Step =
    | Tick(seconds: nat)
    | Begin(t: TxId, owner: Owner)
    | Lock(t: TxId)
    | Reclaim(t: TxId)
    | Guard(t: TxId)
    | Insert(t: TxId)
    | Commit(t: TxId)
    | Abort(t: TxId)
    | SetPayment(id: RowId, payment: PaymentId)
    | Delete(id: RowId)   // rollback after a failed Mollie call, activation, failed payment
    | SweepOne(id: RowId)

  /** `key` is the hash the advisory lock is taken on. */
  ghost predicate Enabled(key: Owner -> int, s: State, step: Step) {
    match step
    case Tick(_) => true
    case Begin(t, _) => t !in s.txs
    case Lock(t) =>
      && t in s.txs && s.txs[t].phase.Started?
      && forall u | u in s.txs && u != t && Holding(s.txs[u]) :: key(s.txs[u].owner) != key(s.txs[t].owner)
    case Reclaim(t) => t in s.txs && s.txs[t].phase.Locked?
    case Guard(t) => t in s.txs && s.txs[t].phase.Reclaimed?
    case Insert(t) => t in s.txs && s.txs[t].phase.Clear?
    case Commit(t) => t in s.txs && s.txs[t].phase.Inserted?
    case Abort(t) => t in s.txs
    case SetPayment(id, _) => id in s.rows && !RowLocked(s, id)
    case Delete(id) => !RowLocked(s, id)
    case SweepOne(id) =>
      id in s.rows && !RowLocked(s, id) && s.rows[id].payment.None? && ExpiresAt(s.rows[id]) < s.now
  }

  ghost function Apply(key: Owner -> int, s: State, step: Step): State
    requires Enabled(key, s, step)
  {
    match step
    case Tick(seconds) => s.(now := s.now + seconds)
    case Begin(t, owner) => s.(txs := s.txs[t := Tx(owner, s.now, Started, {})])
    case Lock(t) => s.(txs := s.txs[t := s.txs[t].(phase := Locked)])
    case Reclaim(t) =>
      var x := s.txs[t];
      s.(txs := s.txs[t := x.(phase := Reclaimed, deleted := StaleIds(s.rows, x.owner, x.start))])
    case Guard(t) =>
      var x := s.txs[t];
      if AnyInFlight(View(s, x), x.owner, x.start) then s.(txs := s.txs - {t})
      else s.(txs := s.txs[t := x.(phase := Clear)])
    case Insert(t) =>
      var x := s.txs[t];
      if IndexRefuses(View(s, x), x.owner) then s.(txs := s.txs - {t})
      else s.(txs := s.txs[t := x.(phase := Inserted(s.nextId))], nextId := s.nextId + 1)
    case Commit(t) =>
      var x := s.txs[t];
      s.(rows := View(s, x)[x.phase.id := Row(x.owner, x.start, None)], txs := s.txs - {t})
    case Abort(t) => s.(txs := s.txs - {t})
    case SetPayment(id, payment) => s.(rows := s.rows[id := s.rows[id].(payment := Some(payment))])
    case Delete(id) => s.(rows := s.rows - {id})
    case SweepOne(id) => s.(rows := s.rows - {id})
  }

  // ----- The invariant -----

  predicate Apart(r: Row, q: Row) {
    r.owner == q.owner ==>
      && (r.created + COOLDOWN <= q.created || q.created + COOLDOWN <= r.created)
      && (r.payment.Some? || q.payment.Some?)
  }

  predicate RowsApart(rows: map<RowId, Row>) {
    forall i, j | i in rows && j in rows && i != j :: Apart(rows[i], rows[j])
  }

  predicate LocksExclude(key: Owner -> int, txs: map<TxId, Tx>) {
    forall t, u | t in txs && u in txs && t != u && Holding(txs[t]) && Holding(txs[u]) ::
      key(txs[t].owner) != key(txs[u].owner)
  }

  /** The rows a transaction has deleted are its owner's, unresolved and past the cooldown. */
  predicate DeletedOk(rows: map<RowId, Row>, t: Tx) {
    && (!Holding(t) ==> t.deleted == {})
    && forall i | i in t.deleted ::
         i in rows && rows[i].owner == t.owner && rows[i].payment.None? && rows[i].created + COOLDOWN < t.start
  }

  /** After the reclaim, no unresolved row it sees is past the cooldown. */
  predicate ReclaimedOk(rows: map<RowId, Row>, t: Tx) {
    t.phase.Reclaimed? ==>
      forall i | i in rows && i !in t.deleted && rows[i].owner == t.owner && rows[i].payment.None? ::
        t.start <= rows[i].created + COOLDOWN
  }

  /** Past the guard, every row of the owner it still sees is resolved and past the cooldown. */
  predicate ClearOk(rows: map<RowId, Row>, t: Tx) {
    t.phase.Clear? || t.phase.Inserted? ==>
      forall i | i in rows && i !in t.deleted && rows[i].owner == t.owner ::
        rows[i].payment.Some? && rows[i].created + COOLDOWN <= t.start
  }

  predicate IdsOk(s: State) {
    && (forall i | i in s.rows :: i < s.nextId)
    && (forall t | t in s.txs && s.txs[t].phase.Inserted? :: s.txs[t].phase.id < s.nextId && s.txs[t].phase.id !in s.rows)
    && (forall t, u | t in s.txs && u in s.txs && t != u && s.txs[t].phase.Inserted? && s.txs[u].phase.Inserted? ::
          s.txs[t].phase.id != s.txs[u].phase.id)
  }

  predicate TxOk(rows: map<RowId, Row>, t: Tx) {
    DeletedOk(rows, t) && ReclaimedOk(rows, t) && ClearOk(rows, t)
  }

  predicate TxsOk(rows: map<RowId, Row>, txs: map<TxId, Tx>) {
    forall t | t in txs :: TxOk(rows, txs[t])
  }

  predicate Inv(key: Owner -> int, s: State) {
    RowsApart(s.rows) && LocksExclude(key, s.txs) && TxsOk(s.rows, s.txs) && IdsOk(s)
  }

  // ----- Every step keeps it -----

  lemma GuardClears(s: State, t: Tx)
    requires ReclaimedOk(s.rows, t) && t.phase.Reclaimed? && !AnyInFlight(View(s, t), t.owner, t.start)
    ensures ClearOk(s.rows, t.(phase := Clear))
  {
    forall i | i in s.rows && i !in t.deleted && s.rows[i].owner == t.owner
      ensures s.rows[i].payment.Some? && s.rows[i].created + COOLDOWN <= t.start
    {
      assert i in View(s, t) && View(s, t)[i] == s.rows[i];
      assert !InFlight(View(s, t)[i], t.owner, t.start);
    }
  }

  /** Only the transactions change, and only one of them. */
  lemma OneTxKeeps(key: Owner -> int, s: State, t: TxId, x: Tx, nextId: RowId)
    requires Inv(key, s) && t in s.txs && x.owner == s.txs[t].owner && TxOk(s.rows, x) && s.nextId <= nextId
    requires Holding(x) && (Holding(s.txs[t]) || Enabled(key, s, Lock(t)))
    requires x.phase.Inserted? ==> x.phase.id == s.nextId < nextId
    ensures Inv(key, s.(txs := s.txs[t := x], nextId := nextId))
  {
  }

  lemma DropTxKeeps(key: Owner -> int, s: State, t: TxId)
    requires Inv(key, s)
    ensures Inv(key, s.(txs := s.txs - {t}))
  {
  }

  /** Rows that lose their owner's lockers nothing: fewer rows, or one resolved. */
  lemma FewerRowsKeep(key: Owner -> int, s: State, rows: map<RowId, Row>)
    requires Inv(key, s)
    requires forall i | i in s.rows && RowLocked(s, i) :: i in rows
    requires forall i | i in rows :: i in s.rows && rows[i].owner == s.rows[i].owner && rows[i].created == s.rows[i].created
    requires forall i | i in rows :: rows[i].payment == s.rows[i].payment || (rows[i].payment.Some? && !RowLocked(s, i))
    ensures Inv(key, s.(rows := rows))
  {
    forall t | t in s.txs ensures TxOk(rows, s.txs[t]) {
      assert TxOk(s.rows, s.txs[t]);
      assert forall i | i in s.txs[t].deleted :: RowLocked(s, i);
    }
  }

  lemma CommitRows(key: Owner -> int, s: State, t: TxId)
    requires Inv(key, s) && Enabled(key, s, Commit(t))
    ensures RowsApart(Apply(key, s, Commit(t)).rows)
  {
    var x := s.txs[t];
    assert TxOk(s.rows, x);
  }

  lemma CommitKeeps(key: Owner -> int, s: State, t: TxId)
    requires Inv(key, s) && Enabled(key, s, Commit(t))
    ensures Inv(key, Apply(key, s, Commit(t)))
  {
    var x, s' := s.txs[t], Apply(key, s, Commit(t));
    CommitRows(key, s, t);
    forall u | u in s'.txs ensures TxOk(s'.rows, s'.txs[u]) {
      assert TxOk(s.rows, s.txs[u]) && TxOk(s.rows, x);
      assert Holding(s.txs[u]) ==> s.txs[u].owner != x.owner;
      assert x.phase.id !in s.rows;
    }
  }

  lemma StepKeeps(key: Owner -> int, s: State, step: Step)
    requires Inv(key, s) && Enabled(key, s, step)
    ensures Inv(key, Apply(key, s, step))
  {
    match step
    case Tick(_) =>
    case Begin(_, _) =>
    case Lock(t) => OneTxKeeps(key, s, t, s.txs[t].(phase := Locked), s.nextId);
    case Reclaim(t) =>
      var x := s.txs[t];
      OneTxKeeps(key, s, t, x.(phase := Reclaimed, deleted := StaleIds(s.rows, x.owner, x.start)), s.nextId);
    case Guard(t) =>
      DropTxKeeps(key, s, t);
      if !AnyInFlight(View(s, s.txs[t]), s.txs[t].owner, s.txs[t].start) {
        GuardClears(s, s.txs[t]);
        OneTxKeeps(key, s, t, s.txs[t].(phase := Clear), s.nextId);
      }
    case Insert(t) =>
      DropTxKeeps(key, s, t);
      OneTxKeeps(key, s, t, s.txs[t].(phase := Inserted(s.nextId)), s.nextId + 1);
    case Commit(t) => CommitKeeps(key, s, t);
    case Abort(t) => DropTxKeeps(key, s, t);
    case SetPayment(id, payment) => FewerRowsKeep(key, s, s.rows[id := s.rows[id].(payment := Some(payment))]);
    case Delete(id) => FewerRowsKeep(key, s, s.rows - {id});
    case SweepOne(id) => FewerRowsKeep(key, s, s.rows - {id});
  }

  // ----- Runs -----

  ghost predicate IsRun(key: Owner -> int, ss: seq<State>, steps: seq<Step>) {
    |ss| == |steps| + 1
    && forall k | 0 <= k < |steps| :: Enabled(key, ss[k], steps[k]) && ss[k + 1] == Apply(key, ss[k], steps[k])
  }

  lemma RunKeeps(key: Owner -> int, ss: seq<State>, steps: seq<Step>, n: nat)
    requires IsRun(key, ss, steps) && ss[0].rows == map[] && ss[0].txs == map[] && n <= |steps|
    ensures Inv(key, ss[n])
  {
    forall k: nat | k + 1 < |ss| && Inv(key, ss[k]) ensures Inv(key, ss[k + 1]) {
      StepKeeps(key, ss[k], steps[k]);
    }
    Along(ss, s => Inv(key, s), (s: State, s': State) => true, n, n);
  }

  /** Whatever the interleaving of racing checkouts, slow Mollie calls, rollbacks, webhooks and
      sweeps: two pending projects of one owner were created at least the cooldown apart, and at
      most one of them has no payment. */
  lemma PendingProjectsApart(key: Owner -> int, ss: seq<State>, steps: seq<Step>, n: nat, i: RowId, j: RowId)
    requires IsRun(key, ss, steps) && ss[0].rows == map[] && ss[0].txs == map[] && n <= |steps|
    requires i in ss[n].rows && j in ss[n].rows && i != j && ss[n].rows[i].owner == ss[n].rows[j].owner
    ensures ss[n].rows[i].created + 300 <= ss[n].rows[j].created || ss[n].rows[j].created + 300 <= ss[n].rows[i].created
    ensures ss[n].rows[i].payment.Some? || ss[n].rows[j].payment.Some?
  {
    RunKeeps(key, ss, steps, n);
    assert Apart(ss[n].rows[i], ss[n].rows[j]);
  }

  /** The unique index is only a backstop: while the lock is held it never refuses. */
  lemma IndexNeverRefuses(key: Owner -> int, s: State, t: TxId)
    requires Inv(key, s) && Enabled(key, s, Insert(t))
    ensures !IndexRefuses(View(s, s.txs[t]), s.txs[t].owner)
  {
    assert TxOk(s.rows, s.txs[t]);
  }

  // ----- The lock transaction, run by itself -----

  datatype Reservation =
    | Reserved(id: RowId)
    | Existing(id: RowId, payment: PaymentId)
    | CheckoutInFlight

  /** The owner has no checkout in the way: resolved rows are past the cooldown, and so,
      strictly, are unresolved ones. */
  predicate FreeToCheckOut(rows: map<RowId, Row>, owner: Owner, now: Time) {
    forall i | i in rows && rows[i].owner == owner ::
      if rows[i].payment.Some? then rows[i].created + COOLDOWN <= now else rows[i].created + COOLDOWN < now
  }

  lemma FreeIffNoneInFlight(rows: map<RowId, Row>, owner: Owner, now: Time)
    ensures FreeToCheckOut(rows, owner, now) <==> !AnyInFlight(rows - StaleIds(rows, owner, now), owner, now)
  {
    var view := rows - StaleIds(rows, owner, now);
    forall i | i in rows && rows[i].owner == owner
      ensures (i in view && InFlight(view[i], owner, now))
              <==> !(if rows[i].payment.Some? then rows[i].created + COOLDOWN <= now else rows[i].created + COOLDOWN < now)
    {
    }
  }

  class PendingStore {
    var rows: map<RowId, Row>
    var nextId: RowId

    constructor ()
      ensures rows == map[]
    {
      rows, nextId := map[], 0;
    }

    /** The newest row in flight, as the guard's query orders them. */
    method NewestInFlight(view: map<RowId, Row>, owner: Owner, now: Time) returns (newest: Option<RowId>)
      ensures newest.None? <==> !AnyInFlight(view, owner, now)
      ensures newest.Some? ==>
        && newest.value in view && InFlight(view[newest.value], owner, now)
        && forall i | i in view && InFlight(view[i], owner, now) :: view[i].created <= view[newest.value].created
    {
      var ids := view.Keys;
      newest := None;
      while ids != {}
        invariant ids <= view.Keys
        invariant newest.Some? ==> newest.value in view && InFlight(view[newest.value], owner, now)
        invariant forall i | i in view && i !in ids && InFlight(view[i], owner, now) ::
          newest.Some? && view[i].created <= view[newest.value].created
        decreases ids
      {
        var i :| i in ids;
        ids := ids - {i};
        if InFlight(view[i], owner, now) && (newest.None? || view[newest.value].created < view[i].created) {
          newest := Some(i);
        }
      }
    }

    /** Lock, reclaim, guard and insert with nobody in between: a row is reserved exactly when
        the owner is free to check out; otherwise everything is rolled back and the newest
        checkout in flight is what the caller hears about. */
    method ReserveRow(owner: Owner, now: Time) returns (r: Reservation)
      requires forall i | i in rows :: i < nextId
      modifies this
      ensures r.Reserved? <==> FreeToCheckOut(old(rows), owner, now)
      ensures r.Reserved? ==> r.id !in old(rows) && r.id in rows && rows[r.id] == Row(owner, now, None)
      ensures r.Reserved? ==> forall i | i != r.id ::
                (i in rows <==>
                   && i in old(rows)
                   && !(old(rows)[i].owner == owner && old(rows)[i].payment.None? && old(rows)[i].created + 300 < now))
      ensures r.Reserved? ==> forall i | i in rows && i != r.id :: rows[i] == old(rows)[i]
      ensures !r.Reserved? ==> rows == old(rows)
      ensures r.Existing? ==> r.id in rows && rows[r.id].owner == owner && rows[r.id].payment == Some(r.payment)
                              && now - COOLDOWN < rows[r.id].created
      ensures r.CheckoutInFlight? ==> exists i :: i in rows && rows[i].owner == owner && rows[i].payment.None? && now - COOLDOWN <= rows[i].created
      ensures forall i | i in rows :: i < nextId
    {
      FreeIffNoneInFlight(rows, owner, now);
      var view := rows - StaleIds(rows, owner, now);
      var newest := NewestInFlight(view, owner, now);
      if newest.Some? {
        var i := newest.value;
        return match view[i].payment case Some(p) => Existing(i, p) case None => CheckoutInFlight;
      }
      r := Reserved(nextId);
      rows := view[nextId := Row(owner, now, None)];
      nextId := nextId + 1;
    }

    /** The hourly sweep deletes exactly the unresolved rows past their lifetime. */
    method SweepUnresolved(now: Time)
      modifies this`rows
      ensures rows.Keys <= old(rows).Keys && forall i | i in rows :: rows[i] == old(rows)[i]
      ensures forall i | i in old(rows) :: i !in rows <==> old(rows)[i].payment.None? && old(rows)[i].created + 24 * 3600 < now
    {
      rows := map i | i in rows && !(rows[i].payment.None? && ExpiresAt(rows[i]) < now) :: rows[i];
    }
  }

  // ----- The transaction as part of the interleavings -----

  /** The moment in which a transaction that began at `s` and waited is in this phase, and nobody
      else has moved. */
  function At(s: State, t: TxId, owner: Owner, wait: nat, phase: Phase, deleted: set<RowId>): State {
    s.(now := s.now + wait, txs := s.txs[t := Tx(owner, s.now, phase, deleted)],
       nextId := if phase.Inserted? then s.nextId + 1 else s.nextId)
  }

  function AfterReserving(s: State, owner: Owner, wait: nat): State {
    s.(now := s.now + wait, rows := (s.rows - StaleIds(s.rows, owner, s.now))[s.nextId := Row(owner, s.now, None)], nextId := s.nextId + 1)
  }

  ghost predicate Goes(key: Owner -> int, s: State, step: Step, s': State) {
    Enabled(key, s, step) && Apply(key, s, step) == s'
  }

  lemma TakesLock(key: Owner -> int, s: State, t: TxId, owner: Owner, wait: nat)
    requires t !in s.txs && forall u | u in s.txs && Holding(s.txs[u]) :: key(s.txs[u].owner) != key(owner)
    ensures Goes(key, s, Begin(t, owner), At(s, t, owner, 0, Started, {}))
    ensures Goes(key, At(s, t, owner, 0, Started, {}), Tick(wait), At(s, t, owner, wait, Started, {}))
    ensures Goes(key, At(s, t, owner, wait, Started, {}), Lock(t), At(s, t, owner, wait, Locked, {}))
    ensures Goes(key, At(s, t, owner, wait, Locked, {}), Reclaim(t), At(s, t, owner, wait, Reclaimed, StaleIds(s.rows, owner, s.now)))
  {
  }

  lemma PassesGuard(key: Owner -> int, s: State, t: TxId, owner: Owner, wait: nat)
    requires t !in s.txs
    ensures var stale := StaleIds(s.rows, owner, s.now);
      Goes(key, At(s, t, owner, wait, Reclaimed, stale), Guard(t),
           if FreeToCheckOut(s.rows, owner, s.now) then At(s, t, owner, wait, Clear, stale) else s.(now := s.now + wait))
  {
    FreeIffNoneInFlight(s.rows, owner, s.now);
    assert s.txs[t := Tx(owner, s.now, Reclaimed, StaleIds(s.rows, owner, s.now))] - {t} == s.txs;
  }

  lemma InsertsRow(key: Owner -> int, s: State, t: TxId, owner: Owner, wait: nat)
    requires t !in s.txs && FreeToCheckOut(s.rows, owner, s.now)
    ensures var stale := StaleIds(s.rows, owner, s.now);
      && Goes(key, At(s, t, owner, wait, Clear, stale), Insert(t), At(s, t, owner, wait, Inserted(s.nextId), stale))
      && Goes(key, At(s, t, owner, wait, Inserted(s.nextId), stale), Commit(t), AfterReserving(s, owner, wait))
  {
    FreeIffNoneInFlight(s.rows, owner, s.now);
    assert s.txs[t := Tx(owner, s.now, Inserted(s.nextId), StaleIds(s.rows, owner, s.now))] - {t} == s.txs;
  }

  /** A transaction that begins now, waits for its lock and then runs without interruption, beside
      others that wait or hold other locks: it reserves a row, if the owner is free to check out,
      and otherwise leaves nothing behind. */
  lemma ReservationIsARun(key: Owner -> int, s: State, t: TxId, owner: Owner, wait: nat)
    returns (ss: seq<State>, steps: seq<Step>)
    requires t !in s.txs && forall u | u in s.txs && Holding(s.txs[u]) :: key(s.txs[u].owner) != key(owner)
    ensures IsRun(key, ss, steps) && ss[0] == s
    ensures ss[|steps|] ==
      if FreeToCheckOut(s.rows, owner, s.now)
      then s.(now := s.now + wait, rows := (s.rows - StaleIds(s.rows, owner, s.now))[s.nextId := Row(owner, s.now, None)], nextId := s.nextId + 1)
      else s.(now := s.now + wait)
  {
    var stale := StaleIds(s.rows, owner, s.now);
    TakesLock(key, s, t, owner, wait);
    PassesGuard(key, s, t, owner, wait);
    ss := [s, At(s, t, owner, 0, Started, {}), At(s, t, owner, wait, Started, {}), At(s, t, owner, wait, Locked, {}),
           At(s, t, owner, wait, Reclaimed, stale)];
    steps := [Begin(t, owner), Tick(wait), Lock(t), Reclaim(t)];
    if FreeToCheckOut(s.rows, owner, s.now) {
      InsertsRow(key, s, t, owner, wait);
      ss := ss + [At(s, t, owner, wait, Clear, stale), At(s, t, owner, wait, Inserted(s.nextId), stale), AfterReserving(s, owner, wait)];
      steps := steps + [Guard(t), Insert(t), Commit(t)];
    } else {
      ss := ss + [s.(now := s.now + wait)];
      steps := steps + [Guard(t)];
    }
    assert forall k | 0 <= k < |steps| :: Goes(key, ss[k], steps[k], ss[k + 1]);
  }

  /** A transaction that dies leaves nothing behind at any moment of its life, its lock included. */
  lemma DeathLeavesNothing(key: Owner -> int, s: State, t: TxId, owner: Owner, wait: nat, phase: Phase, deleted: set<RowId>)
    requires t !in s.txs
    ensures var s1 := At(s, t, owner, wait, phase, deleted);
      && Enabled(key, s1, Abort(t)) && s1.rows == s.rows
      && Apply(key, s1, Abort(t)) == s.(now := s.now + wait, nextId := s1.nextId)
  {
    assert s.txs[t := Tx(owner, s.now, phase, deleted)] - {t} == s.txs;
  }

  /** The cooldown counts from the start of the transaction, not from the insert: a request that
      waited for the lock longer than the cooldown commits a row that the next request, at the
      same moment, reclaims as stale while its Mollie call is under way. */
  lemma SlowLockIsReclaimed(key: Owner -> int, s: State, t: TxId, owner: Owner, wait: nat)
    returns (ss: seq<State>, steps: seq<Step>, ss': seq<State>, steps': seq<Step>)
    requires t !in s.txs && forall u | u in s.txs && Holding(s.txs[u]) :: key(s.txs[u].owner) != key(owner)
    requires FreeToCheckOut(s.rows, owner, s.now) && COOLDOWN < wait
    requires forall i | i in s.rows :: i < s.nextId
    ensures IsRun(key, ss, steps) && ss[0] == s
    ensures s.nextId in ss[|steps|].rows && ss[|steps|].rows[s.nextId] == Row(owner, s.now, None)
    ensures IsRun(key, ss', steps') && ss'[0] == ss[|steps|] && ss'[|steps'|].now == ss[|steps|].now
    ensures s.nextId !in ss'[|steps'|].rows && s.nextId + 1 in ss'[|steps'|].rows
  {
    ss, steps := ReservationIsARun(key, s, t, owner, wait);
    ss', steps' := ReservationIsARun(key, ss[|steps|], t, owner, 0);
  }

  // ----- When rows come and go -----

  /** What one step makes of a row, on its own columns. */
  ghost predicate RowAfter(s: State, step: Step, i: RowId, r: Row, rows': map<RowId, Row>) {
    if i !in rows' then
      || step == Delete(i)
      || (step == SweepOne(i) && r.payment.None? && r.created + 24 * 3600 < s.now)
      || (step.Commit? && step.t in s.txs && s.txs[step.t].owner == r.owner && r.payment.None? && r.created + 300 < s.txs[step.t].start)
    else
      && step != Delete(i) && step != SweepOne(i)
      && rows'[i] == if step.SetPayment? && step.id == i then r.(payment := Some(step.payment)) else r
  }

  /** Over any run a checkout with a payment disappears only by its own rollback, activation or
      failed payment; one without also by the sweep after a day, or by a later request of its
      owner that began more than the cooldown after it. Nothing but its payment ever changes. */
  lemma RowsGo(key: Owner -> int, ss: seq<State>, steps: seq<Step>, n: nat, i: RowId)
    requires IsRun(key, ss, steps) && ss[0].rows == map[] && ss[0].txs == map[] && n < |steps| && i in ss[n].rows
    ensures RowAfter(ss[n], steps[n], i, ss[n].rows[i], ss[n + 1].rows)
  {
    RunKeeps(key, ss, steps, n);
    if steps[n].Commit? {
      assert TxOk(ss[n].rows, ss[n].txs[steps[n].t]);
    }
  }

  ghost predicate BeganAt(ss: seq<State>, steps: seq<Step>, k: nat, owner: Owner, start: Time) {
    k < |steps| && k < |ss| && steps[k].Begin? && steps[k].owner == owner && ss[k].now == start
  }

  /** Every open transaction and every row goes back to a request of its owner, from the moment
      that it began. */
  lemma {:induction false} RowsCome(key: Owner -> int, ss: seq<State>, steps: seq<Step>, n: nat)
    requires IsRun(key, ss, steps) && ss[0].rows == map[] && ss[0].txs == map[] && n <= |steps|
    ensures forall t | t in ss[n].txs :: exists k: nat :: k < n && BeganAt(ss, steps, k, ss[n].txs[t].owner, ss[n].txs[t].start)
    ensures forall i | i in ss[n].rows :: exists k: nat :: k < n && BeganAt(ss, steps, k, ss[n].rows[i].owner, ss[n].rows[i].created)
  {
    if n > 0 {
      RowsCome(key, ss, steps, n - 1);
      if steps[n - 1].Begin? {
        assert BeganAt(ss, steps, n - 1, steps[n - 1].owner, ss[n - 1].now);
      }
    }
  }

  /** A payment id can be stored as long as no request of its owner began more than the cooldown
      later, and one that is stored can always be replaced or its row deleted. */
  lemma PaymentIsStored(key: Owner -> int, ss: seq<State>, steps: seq<Step>, n: nat, i: RowId, p: PaymentId)
    requires IsRun(key, ss, steps) && ss[0].rows == map[] && ss[0].txs == map[] && n <= |steps| && i in ss[n].rows
    requires ss[n].rows[i].payment.Some?
          || forall t | t in ss[n].txs && ss[n].txs[t].owner == ss[n].rows[i].owner :: ss[n].txs[t].start <= ss[n].rows[i].created + 300
    ensures Enabled(key, ss[n], SetPayment(i, p)) && Enabled(key, ss[n], Delete(i))
  {
    RunKeeps(key, ss, steps, n);
    forall t | t in ss[n].txs ensures i !in ss[n].txs[t].deleted {
      assert TxOk(ss[n].rows, ss[n].txs[t]);
    }
  }
}
