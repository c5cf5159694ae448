/** The audit table under concurrent Log calls and retention prunes. */
module AuditLog {
  import opened Prelude
  import opened Runs
  import opened AuditChain

  type Project = int    // one of them stands for the rows without a project
  type TxId = int

  /** A position in the seq order: taken by a committed row, or not (yet, any more, ever). */
  datatype Slot = Free | Taken(project: Project, row: Row)

  /** A project's rows in seq order. */
  function ChainOf(table: seq<Slot>, p: Project): seq<Row> {
    if table == [] then []
    else
      var rest, last := ChainOf(table[..|table| - 1], p), table[|table| - 1];
      if last.Taken? && last.project == p then rest + [last.row] else rest
  }

  /** The hash an insert links to: that of the project's last row, none if it has no row. */
  function LastHash(rows: seq<Row>): Option<Hash> {
    if rows == [] then None else Some(rows[|rows| - 1].hash)
  }

  function NewRow(rows: seq<Row>, id: int, fields: Fields): Row {
    Row(id, LastHash(rows), fields, H(LastHash(rows), fields))
  }

  /** Frees the first `k` rows of a project. */
  function FreeFirst(table: seq<Slot>, p: Project, k: nat): (r: seq<Slot>)
    ensures |r| == |table|
  {
    if table == [] then []
    else
      var init, last := table[..|table| - 1], table[|table| - 1];
      FreeFirst(init, p, k)
      + [if last.Taken? && last.project == p && |ChainOf(init, p)| < k then Free else last]
  }

  // ----- Transactions -----

  datatype Phase = Started | Locked | Inserted(slot: nat, row: Row)
  datatype Tx = Tx(project: Project, id: int, fields: Fields, phase: Phase)

  /** `pruned` is what prunes took out of each chain, in order (the archive). */
  datatype State = State(
    table: seq<Slot>,
    checkpoints: map<Project, Hash>,
    pruned: map<Project, seq<Row>>,
    txs: map<TxId, Tx>)

  function Seed(s: State, p: Project): Option<Hash> {
    if p in s.checkpoints then Some(s.checkpoints[p]) else None
  }

  function Pruned(s: State, p: Project): seq<Row> {
    if p in s.pruned then s.pruned[p] else []
  }

  /** Every row the project ever logged. */
  function History(s: State, p: Project): seq<Row> {
    Pruned(s, p) + ChainOf(s.table, p)
  }

  predicate Holding(t: Tx) {
    !t.phase.Started?
  }

  datatype Step =
    | Begin(t: TxId, project: Project, id: int, fields: Fields)
    | Lock(t: TxId)
    | Insert(t: TxId)
    | Commit(t: TxId)
    | Abort(t: TxId)
    | Prune(project: Project, k: nat)

  /** `key` is the hash the advisory lock is taken on. A prune takes it too, and leaves at least
      one row. */
  ghost predicate Enabled(key: Project -> int, s: State, step: Step) {
    match step
    case Begin(t, _, _, _) => t !in s.txs
    case Lock(t) =>
      t in s.txs && s.txs[t].phase.Started?
      && forall u | u in s.txs && Holding(s.txs[u]) :: key(s.txs[u].project) != key(s.txs[t].project)
    case Insert(t) => t in s.txs && s.txs[t].phase.Locked?
    case Commit(t) => t in s.txs && s.txs[t].phase.Inserted? && s.txs[t].phase.slot < |s.table|
    case Abort(t) => t in s.txs
    case Prune(p, k) =>
      0 < k < |ChainOf(s.table, p)|
      && forall u | u in s.txs && Holding(s.txs[u]) :: key(s.txs[u].project) != key(p)
  }

  ghost function Apply(key: Project -> int, s: State, step: Step): State
    requires Enabled(key, s, step)
  {
    match step
    case Begin(t, project, id, fields) => s.(txs := s.txs[t := Tx(project, id, fields, Started)])
    case Lock(t) => s.(txs := s.txs[t := s.txs[t].(phase := Locked)])
    case Insert(t) =>
      var x := s.txs[t];
      var row := NewRow(ChainOf(s.table, x.project), x.id, x.fields);
      s.(table := s.table + [Free], txs := s.txs[t := x.(phase := Inserted(|s.table|, row))])
    case Commit(t) =>
      var x := s.txs[t];
      s.(table := s.table[x.phase.slot := Taken(x.project, x.phase.row)], txs := s.txs - {t})
    case Abort(t) => s.(txs := s.txs - {t})
    case Prune(p, k) =>
      var rows := ChainOf(s.table, p);
      s.(table := FreeFirst(s.table, p, k),
         checkpoints := s.checkpoints[p := rows[k - 1].hash],
         pruned := s.pruned[p := Pruned(s, p) + rows[..k]])
  }

  // ----- Chains under table changes -----

  predicate Of(slot: Slot, p: Project) {
    slot.Taken? && slot.project == p
  }

  lemma {:induction false} ChainOfFilled(table: seq<Slot>, i: nat, p: Project, row: Row)
    requires i < |table| && table[i].Free?
    requires forall j | i < j < |table| :: !Of(table[j], p)
    ensures ChainOf(table[i := Taken(p, row)], p) == ChainOf(table, p) + [row]
  {
    var n, table' := |table| - 1, table[i := Taken(p, row)];
    if i == n {
      assert table'[..n] == table[..n];
    } else {
      assert table'[..n] == table[..n][i := Taken(p, row)];
      ChainOfFilled(table[..n], i, p, row);
      assert table'[n] == table[n];
    }
  }

  lemma {:induction false} ChainOfOther(table: seq<Slot>, table': seq<Slot>, p: Project)
    requires |table| == |table'|
    requires forall j | 0 <= j < |table| :: if Of(table[j], p) then table'[j] == table[j] else !Of(table'[j], p)
    ensures ChainOf(table', p) == ChainOf(table, p)
  {
    if table != [] {
      var n := |table| - 1;
      assert Of(table[n], p) || !Of(table[n], p);
      ChainOfOther(table[..n], table'[..n], p);
    }
  }

  lemma {:induction false} FreeFirstSlots(table: seq<Slot>, p: Project, k: nat, j: nat)
    requires j < |table|
    ensures FreeFirst(table, p, k)[j] == table[j] || (Of(table[j], p) && FreeFirst(table, p, k)[j].Free?)
  {
    var n := |table| - 1;
    if j < n {
      FreeFirstSlots(table[..n], p, k, j);
    }
  }

  lemma {:induction false} FreeFirstChain(table: seq<Slot>, p: Project, k: nat)
    ensures ChainOf(FreeFirst(table, p, k), p) ==
      ChainOf(table, p)[if k < |ChainOf(table, p)| then k else |ChainOf(table, p)|..]
  {
    if table != [] {
      var n := |table| - 1;
      FreeFirstChain(table[..n], p, k);
      assert FreeFirst(table, p, k)[..n] == FreeFirst(table[..n], p, k);
    }
  }

  // ----- The invariant -----

  /** What is left verifies from the checkpoint, together with the pruned rows it verifies from
      the empty seed, and a chain that was pruned still has a row. */
  predicate ProjectOk(s: State, p: Project) {
    && Intact(None, History(s, p))
    && Seed(s, p) == Head(None, Pruned(s, p))
    && (Pruned(s, p) != [] ==> ChainOf(s.table, p) != [])
  }

  /** An inserted row is linked to the committed head, and nothing of its project comes after. */
  predicate TxOk(s: State, t: Tx) {
    t.phase.Inserted? ==>
      && t.phase.slot < |s.table| && s.table[t.phase.slot].Free?
      && (forall j | t.phase.slot < j < |s.table| :: !Of(s.table[j], t.project))
      && t.phase.row == NewRow(ChainOf(s.table, t.project), t.id, t.fields)
  }

  ghost predicate Inv(key: Project -> int, s: State) {
    && (forall p :: ProjectOk(s, p))
    && (forall t | t in s.txs :: TxOk(s, s.txs[t]))
    && (forall t, u | t in s.txs && u in s.txs && t != u && Holding(s.txs[t]) && Holding(s.txs[u]) ::
          key(s.txs[t].project) != key(s.txs[u].project))
    && (forall t, u | t in s.txs && u in s.txs && t != u && s.txs[t].phase.Inserted? && s.txs[u].phase.Inserted? ::
          s.txs[t].phase.slot != s.txs[u].phase.slot)
  }

  lemma NewRowLinks(s: State, p: Project, id: int, fields: Fields)
    requires ProjectOk(s, p)
    ensures NewRow(ChainOf(s.table, p), id, fields) == Link(None, History(s, p), id, fields)
  {
    var rows := ChainOf(s.table, p);
    if rows != [] {
      assert History(s, p)[|History(s, p)| - 1] == rows[|rows| - 1];
    } else {
      assert History(s, p) == [];
    }
  }

  lemma CommitProject(key: Project -> int, s: State, t: TxId, p: Project)
    requires Inv(key, s) && Enabled(key, s, Commit(t))
    ensures var x, s' := s.txs[t], Apply(key, s, Commit(t));
      && ChainOf(s'.table, p) == ChainOf(s.table, p) + (if p == x.project then [x.phase.row] else [])
      && History(s', p) == History(s, p) + (if p == x.project then [x.phase.row] else [])
      && ProjectOk(s', p)
  {
    var x, s' := s.txs[t], Apply(key, s, Commit(t));
    assert TxOk(s, x) && ProjectOk(s, p);
    if p == x.project {
      ChainOfFilled(s.table, x.phase.slot, p, x.phase.row);
      NewRowLinks(s, p, x.id, x.fields);
      AppendIntact(None, History(s, p), x.id, x.fields);
      assert History(s', p) == History(s, p) + [x.phase.row];
    } else {
      ChainOfOther(s.table, s'.table, p);
    }
  }

  lemma CommitTxs(key: Project -> int, s: State, t: TxId, u: TxId)
    requires Inv(key, s) && Enabled(key, s, Commit(t)) && u in s.txs && u != t
    ensures TxOk(Apply(key, s, Commit(t)), s.txs[u])
  {
    assert TxOk(s, s.txs[t]) && TxOk(s, s.txs[u]);
    if s.txs[u].phase.Inserted? {
      CommitProject(key, s, t, s.txs[u].project);
    }
  }

  lemma FreeFirstOther(table: seq<Slot>, p: Project, k: nat, q: Project)
    requires q != p
    ensures ChainOf(FreeFirst(table, p, k), q) == ChainOf(table, q)
  {
    var table' := FreeFirst(table, p, k);
    forall j | 0 <= j < |table| ensures table'[j] == table[j] || (Of(table[j], p) && table'[j].Free?) {
      FreeFirstSlots(table, p, k, j);
    }
    ChainOfOther(table, table', q);
  }

  /** A prune moves rows from the chain to the archive, and the checkpoint with them. */
  lemma PruneOwn(key: Project -> int, s: State, p: Project, k: nat)
    requires Inv(key, s) && Enabled(key, s, Prune(p, k))
    ensures var s' := Apply(key, s, Prune(p, k));
      ChainOf(s'.table, p) == ChainOf(s.table, p)[k..] && History(s', p) == History(s, p) && ProjectOk(s', p)
  {
    var s', rows := Apply(key, s, Prune(p, k)), ChainOf(s.table, p);
    assert ProjectOk(s, p);
    FreeFirstChain(s.table, p, k);
    assert Pruned(s', p) + rows[k..] == Pruned(s, p) + rows by {
      assert rows[..k] + rows[k..] == rows;
    }
    assert Pruned(s', p)[|Pruned(s', p)| - 1] == rows[k - 1];
  }

  lemma PruneProject(key: Project -> int, s: State, p: Project, k: nat, q: Project)
    requires Inv(key, s) && Enabled(key, s, Prune(p, k))
    ensures var s' := Apply(key, s, Prune(p, k));
      && ChainOf(s'.table, q) == (if q == p then ChainOf(s.table, p)[k..] else ChainOf(s.table, q))
      && History(s', q) == History(s, q) && ProjectOk(s', q)
  {
    if q == p {
      PruneOwn(key, s, p, k);
    } else {
      assert ProjectOk(s, q);
      FreeFirstOther(s.table, p, k, q);
    }
  }

  lemma PruneTxs(key: Project -> int, s: State, p: Project, k: nat, u: TxId)
    requires Inv(key, s) && Enabled(key, s, Prune(p, k)) && u in s.txs
    ensures TxOk(Apply(key, s, Prune(p, k)), s.txs[u])
  {
    assert TxOk(s, s.txs[u]);
    if s.txs[u].phase.Inserted? {
      PruneProject(key, s, p, k, s.txs[u].project);
      forall j | 0 <= j < |s.table|
        ensures FreeFirst(s.table, p, k)[j] == s.table[j] || (Of(s.table[j], p) && FreeFirst(s.table, p, k)[j].Free?)
      {
        FreeFirstSlots(s.table, p, k, j);
      }
    }
  }

  lemma InsertProject(key: Project -> int, s: State, t: TxId, p: Project)
    requires Inv(key, s) && Enabled(key, s, Insert(t))
    ensures var s' := Apply(key, s, Insert(t));
      ChainOf(s'.table, p) == ChainOf(s.table, p) && History(s', p) == History(s, p) && ProjectOk(s', p)
  {
    var s' := Apply(key, s, Insert(t));
    assert s'.table[..|s.table|] == s.table;
    assert ProjectOk(s, p);
  }

  lemma InsertTxs(key: Project -> int, s: State, t: TxId, u: TxId)
    requires Inv(key, s) && Enabled(key, s, Insert(t)) && u in s.txs
    ensures var s' := Apply(key, s, Insert(t)); u in s'.txs && TxOk(s', s'.txs[u])
  {
    assert TxOk(s, s.txs[u]);
    InsertProject(key, s, t, s.txs[u].project);
  }

  lemma InsertKeeps(key: Project -> int, s: State, t: TxId)
    requires Inv(key, s) && Enabled(key, s, Insert(t))
    ensures Inv(key, Apply(key, s, Insert(t)))
    ensures forall p :: History(Apply(key, s, Insert(t)), p) == History(s, p)
  {
    var s' := Apply(key, s, Insert(t));
    forall p ensures History(s', p) == History(s, p) && ProjectOk(s', p) { InsertProject(key, s, t, p); }
    forall u | u in s'.txs ensures TxOk(s', s'.txs[u]) { InsertTxs(key, s, t, u); }
    forall u | u in s.txs && s.txs[u].phase.Inserted? ensures s.txs[u].phase.slot < |s.table| {
      assert TxOk(s, s.txs[u]);
    }
  }

  /** Histories only grow at the end. */
  ghost predicate Extends(s: State, s': State) {
    forall p :: History(s, p) <= History(s', p)
  }

  lemma StepKeeps(key: Project -> int, s: State, step: Step)
    requires Inv(key, s) && Enabled(key, s, step)
    ensures Inv(key, Apply(key, s, step)) && Extends(s, Apply(key, s, step))
  {
    var s' := Apply(key, s, step);
    match step
    case Insert(t) => InsertKeeps(key, s, t);
    case Commit(t) =>
      forall p ensures ProjectOk(s', p) && History(s, p) <= History(s', p) { CommitProject(key, s, t, p); }
      forall u | u in s'.txs ensures TxOk(s', s'.txs[u]) { CommitTxs(key, s, t, u); }
    case Prune(p, k) =>
      forall q ensures ProjectOk(s', q) && History(s, q) <= History(s', q) { PruneProject(key, s, p, k, q); }
      forall u | u in s'.txs ensures TxOk(s', s'.txs[u]) { PruneTxs(key, s, p, k, u); }
    case _ =>
      forall p ensures ProjectOk(s', p) && History(s', p) == History(s, p) { assert ProjectOk(s, p); }
      forall u | u in s'.txs ensures TxOk(s', s'.txs[u]) { assert u in s.txs ==> TxOk(s, s.txs[u]); }
  }

  // ----- Runs -----

  ghost predicate IsRun(key: Project -> int, ss: seq<State>, steps: seq<Step>) {
    |ss| == |steps| + 1
    && forall k | 0 <= k < |steps| :: Enabled(key, ss[k], steps[k]) && ss[k + 1] == Apply(key, ss[k], steps[k])
  }

  const EMPTY := State([], map[], map[], map[])

  lemma RunKeeps(key: Project -> int, ss: seq<State>, steps: seq<Step>, a: nat, b: nat)
    requires IsRun(key, ss, steps) && ss[0] == EMPTY && a <= b <= |steps|
    ensures Inv(key, ss[b]) && Extends(ss[a], ss[b])
  {
    forall k: nat | k + 1 < |ss| && Inv(key, ss[k]) ensures Inv(key, ss[k + 1]) && Extends(ss[k], ss[k + 1]) {
      StepKeeps(key, ss[k], steps[k]);
    }
    forall s, s', s'' | Extends(s, s') && Extends(s', s'') ensures Extends(s, s'') {
      forall p ensures History(s, p) <= History(s'', p) {
        assert History(s, p) <= History(s', p) && History(s', p) <= History(s'', p);
      }
    }
    Along(ss, s => Inv(key, s), (s: State, s': State) => Extends(s, s'), a, b);
  }

  /** Whatever Log calls and prunes interleave: what is in the table verifies from the
      checkpoint, and with the pruned rows it is one chain from the empty seed. */
  lemma EveryMixVerifies(key: Project -> int, ss: seq<State>, steps: seq<Step>, n: nat, p: Project)
    requires IsRun(key, ss, steps) && ss[0] == EMPTY && n <= |steps|
    ensures Intact(Seed(ss[n], p), ChainOf(ss[n].table, p))
    ensures Intact(None, Pruned(ss[n], p) + ChainOf(ss[n].table, p))
  {
    RunKeeps(key, ss, steps, n, n);
    assert ProjectOk(ss[n], p);
    var k := |Pruned(ss[n], p)|;
    PrunedIntact(None, History(ss[n], p), k);
    assert History(ss[n], p)[k..] == ChainOf(ss[n].table, p);
  }

  /** Concurrent Log calls never fork a chain: no two rows ever logged follow the same row, and
      what was logged by one moment is a prefix of what is logged by any later one. */
  lemma LogNeverForks(key: Project -> int, ss: seq<State>, steps: seq<Step>, a: nat, b: nat, p: Project, i: nat, j: nat)
    requires IsRun(key, ss, steps) && ss[0] == EMPTY && a <= b <= |steps|
    requires i < |History(ss[b], p)| && j < |History(ss[b], p)| && i != j
    ensures History(ss[b], p)[i].prev != History(ss[b], p)[j].prev
    ensures History(ss[a], p) <= History(ss[b], p)
  {
    RunKeeps(key, ss, steps, a, b);
    assert ProjectOk(ss[b], p);
    NoFork(None, History(ss[b], p), i, j);
  }

  /** Why a prune leaves a row: after a prune of everything the next append would link to
      nothing, and Verify would reject it at once. */
  lemma PruningAllBreaks(rows: seq<Row>, id: int, fields: Fields)
    requires Intact(None, rows) && rows != []
    ensures RejectedAt(Head(None, rows), [NewRow([], id, fields)], 0)
  {
  }

  // ----- What is logged -----

  /** Only a commit adds to a chain, one row at its end, linked and with the contents that were
      to be logged; only a prune takes rows away, the first ones, and not all. */
  lemma StepLogs(key: Project -> int, s: State, step: Step, p: Project)
    requires Inv(key, s) && Enabled(key, s, step)
    ensures var rows, rows' := ChainOf(s.table, p), ChainOf(Apply(key, s, step).table, p);
      if step.Commit? && s.txs[step.t].project == p then
        && rows' == rows + [Link(None, History(s, p), s.txs[step.t].id, s.txs[step.t].fields)]
        && History(Apply(key, s, step), p) == History(s, p) + [Link(None, History(s, p), s.txs[step.t].id, s.txs[step.t].fields)]
      else
        && rows' == (if step.Prune? && step.project == p then rows[step.k..] else rows)
        && (step.Prune? && step.project == p ==> rows' != [])
        && History(Apply(key, s, step), p) == History(s, p)
  {
    match step
    case Insert(t) => InsertProject(key, s, t, p);
    case Commit(t) =>
      assert TxOk(s, s.txs[t]) && ProjectOk(s, p);
      CommitProject(key, s, t, p);
      NewRowLinks(s, p, s.txs[t].id, s.txs[t].fields);
    case Prune(q, k) => PruneProject(key, s, q, k, p);
    case _ =>
  }

  ghost predicate BeganAt(steps: seq<Step>, k: nat, p: Project, id: int, fields: Fields) {
    k < |steps| && steps[k].Begin? && steps[k].project == p && steps[k].id == id && steps[k].fields == fields
  }

  /** Every call under way was begun with its contents. */
  lemma {:induction false} CallsBegan(key: Project -> int, ss: seq<State>, steps: seq<Step>, n: nat, t: TxId) returns (k: nat)
    requires IsRun(key, ss, steps) && n <= |steps| && ss[0].txs == map[] && t in ss[n].txs
    ensures k < n && BeganAt(steps, k, ss[n].txs[t].project, ss[n].txs[t].id, ss[n].txs[t].fields)
  {
    if t in ss[n - 1].txs {
      k := CallsBegan(key, ss, steps, n - 1, t);
    } else {
      k := n - 1;
    }
  }

  lemma LoggedBy(key: Project -> int, s: State, step: Step, p: Project, i: nat)
    requires Inv(key, s) && Enabled(key, s, step) && i < |History(Apply(key, s, step), p)|
    ensures var r := History(Apply(key, s, step), p)[i];
      if i < |History(s, p)| then r == History(s, p)[i]
      else step.Commit? && s.txs[step.t].project == p && r.id == s.txs[step.t].id && r.fields == s.txs[step.t].fields
  {
    StepLogs(key, s, step, p);
  }

  /** Over any run every row ever logged goes back to a Log call of its project with its contents. */
  lemma {:induction false} LoggedWasAsked(key: Project -> int, ss: seq<State>, steps: seq<Step>, n: nat, p: Project, i: nat) returns (k: nat)
    requires IsRun(key, ss, steps) && ss[0] == EMPTY && n <= |steps| && i < |History(ss[n], p)|
    ensures k < n && BeganAt(steps, k, p, History(ss[n], p)[i].id, History(ss[n], p)[i].fields)
  {
    var s, step := ss[n - 1], steps[n - 1];
    RunKeeps(key, ss, steps, n - 1, n - 1);
    LoggedBy(key, s, step, p, i);
    if i < |History(s, p)| {
      k := LoggedWasAsked(key, ss, steps, n - 1, p, i);
    } else {
      k := CallsBegan(key, ss, steps, n - 1, step.t);
    }
  }

  /** The state in which a call has come to this phase, and nobody else has moved. */
  function At(s: State, t: TxId, p: Project, id: int, fields: Fields, phase: Phase): State {
    s.(txs := s.txs[t := Tx(p, id, fields, phase)], table := if phase.Inserted? then s.table + [Free] else s.table)
  }

  ghost predicate Goes(key: Project -> int, s: State, step: Step, s': State) {
    Enabled(key, s, step) && Apply(key, s, step) == s'
  }

  lemma ReachesCommit(key: Project -> int, s: State, t: TxId, p: Project, id: int, fields: Fields)
    requires t !in s.txs && forall u | u in s.txs && Holding(s.txs[u]) :: key(s.txs[u].project) != key(p)
    ensures Goes(key, s, Begin(t, p, id, fields), At(s, t, p, id, fields, Started))
    ensures Goes(key, At(s, t, p, id, fields, Started), Lock(t), At(s, t, p, id, fields, Locked))
    ensures Goes(key, At(s, t, p, id, fields, Locked), Insert(t),
                 At(s, t, p, id, fields, Inserted(|s.table|, NewRow(ChainOf(s.table, p), id, fields))))
  {
  }

  lemma Commits(key: Project -> int, s: State, t: TxId, p: Project, id: int, fields: Fields, row: Row)
    requires t !in s.txs
    ensures Goes(key, At(s, t, p, id, fields, Inserted(|s.table|, row)), Commit(t), s.(table := s.table + [Taken(p, row)]))
  {
    assert s.txs[t := Tx(p, id, fields, Inserted(|s.table|, row))] - {t} == s.txs;
    assert (s.table + [Free])[|s.table| := Taken(p, row)] == s.table + [Taken(p, row)];
  }

  /** A Log call that finds its lock free ends with its row at the end of its chain, linked to
      the last one; no other chain, checkpoint or call changes. */
  lemma LogIsARun(key: Project -> int, s: State, t: TxId, p: Project, id: int, fields: Fields)
    returns (ss: seq<State>, steps: seq<Step>)
    requires ProjectOk(s, p) && t !in s.txs && forall u | u in s.txs && Holding(s.txs[u]) :: key(s.txs[u].project) != key(p)
    ensures IsRun(key, ss, steps) && ss[0] == s
    ensures var s' := ss[|steps|];
      && ChainOf(s'.table, p) == ChainOf(s.table, p) + [Link(None, History(s, p), id, fields)]
      && (forall q | q != p :: ChainOf(s'.table, q) == ChainOf(s.table, q))
      && s'.checkpoints == s.checkpoints && s'.pruned == s.pruned && s'.txs == s.txs
  {
    var row := NewRow(ChainOf(s.table, p), id, fields);
    NewRowLinks(s, p, id, fields);
    ReachesCommit(key, s, t, p, id, fields);
    Commits(key, s, t, p, id, fields, row);
    assert (s.table + [Taken(p, row)])[..|s.table|] == s.table;
    steps := [Begin(t, p, id, fields), Lock(t), Insert(t), Commit(t)];
    ss := [s, At(s, t, p, id, fields, Started), At(s, t, p, id, fields, Locked),
           At(s, t, p, id, fields, Inserted(|s.table|, row)), s.(table := s.table + [Taken(p, row)])];
    assert forall k | 0 <= k < |steps| :: Goes(key, ss[k], steps[k], ss[k + 1]);
  }

  // ----- The table as the source keeps it -----

  class AuditTable {
    var slots: seq<Slot>

    constructor ()
      ensures slots == []
    {
      slots := [];
    }

    /** ORDER BY seq DESC LIMIT 1. */
    method HeadHash(p: Project) returns (h: Option<Hash>)
      ensures h == LastHash(ChainOf(slots, p))
    {
      var i := |slots|;
      assert slots[..i] == slots;
      while i > 0
        invariant 0 <= i <= |slots| && ChainOf(slots, p) == ChainOf(slots[..i], p)
      {
        assert slots[..i][..i - 1] == slots[..i - 1];
        if slots[i - 1].Taken? && slots[i - 1].project == p {
          return Some(slots[i - 1].row.hash);
        }
        i := i - 1;
      }
      return None;
    }

    /** Log with nobody in between: the project's chain grows by one linked row, and no other
        chain changes. */
    method Log(p: Project, id: int, fields: Fields)
      modifies this
      ensures ChainOf(slots, p) == old(ChainOf(slots, p)) + [NewRow(old(ChainOf(slots, p)), id, fields)]
      ensures forall q | q != p :: ChainOf(slots, q) == old(ChainOf(slots, q))
    {
      var h := HeadHash(p);
      ghost var before := slots;
      slots := slots + [Taken(p, Row(id, h, fields, H(h, fields)))];
      assert slots[..|before|] == before;
    }

    /** A prune of the first `k` rows, which returns the checkpoint's hash. */
    method PruneFirst(p: Project, k: nat) returns (checkpoint: Hash)
      requires 0 < k < |ChainOf(slots, p)|
      modifies this
      ensures ChainOf(slots, p) == old(ChainOf(slots, p))[k..] && checkpoint == old(ChainOf(slots, p))[k - 1].hash
      ensures forall q | q != p :: ChainOf(slots, q) == old(ChainOf(slots, q))
    {
      ghost var before := slots;
      checkpoint := ChainOf(slots, p)[k - 1].hash;
      FreeFirstChain(slots, p, k);
      slots := FreeFirst(slots, p, k);
      forall q | q != p ensures ChainOf(slots, q) == ChainOf(before, q) {
        FreeFirstOther(before, p, k, q);
      }
    }
  }
}
