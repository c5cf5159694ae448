/** The export of archived audit rows to write-once storage: read a batch, upload it, delete it. */
module ArchiveExport {
  import opened Prelude
  import opened Runs

  datatype Row = Row(id: int, archivedAt: int)

  type RunId = int

  // ----- The three statements of a run -----

  /** ORDER BY archived_at LIMIT: as many rows as there are, up to the limit, oldest first. */
  ghost predicate Selects(table: set<Row>, limit: nat, batch: seq<Row>) {
    && |batch| == (if limit < |table| then limit else |table|)
    && (forall r | r in batch :: r in table)
    && (forall i, j | 0 <= i < j < |batch| :: batch[i] != batch[j] && batch[i].archivedAt <= batch[j].archivedAt)
    && (forall r, b | r in table && r !in batch && b in batch :: b.archivedAt <= r.archivedAt)
  }

  predicate HasId(batch: seq<Row>, id: int) {
    exists i :: 0 <= i < |batch| && batch[i].id == id
  }

  /** DELETE ... WHERE id = ANY(ids). */
  function Purge(table: set<Row>, batch: seq<Row>): set<Row> {
    set r | r in table && !HasId(batch, r.id)
  }

  function Rows(batch: seq<Row>): set<Row> {
    set r | r in batch
  }

  // ----- Interleavings -----

  datatype Phase = HasRead(batch: seq<Row>) | HasUploaded(batch: seq<Row>)

  /** `arrived` is every row ever archived. */
  datatype State = State(table: set<Row>, blobs: seq<seq<Row>>, running: map<RunId, Phase>, arrived: set<Row>)

  datatype Step =
    | Arrives(row: Row)
    | Reads(run: RunId, limit: nat, batch: seq<Row>)
    | Uploads(run: RunId)
    | UploadAnswerLost(run: RunId)   // stored, but reported as failed
    | Deletes(run: RunId)
    | Dies(run: RunId)

  ghost predicate Enabled(s: State, step: Step) {
    match step
    case Arrives(row) => row !in s.arrived
    case Reads(run, limit, batch) => run !in s.running && Selects(s.table, limit, batch) && batch != []
    case Uploads(run) => run in s.running && s.running[run].HasRead?
    case UploadAnswerLost(run) => run in s.running && s.running[run].HasRead?
    case Deletes(run) => run in s.running && s.running[run].HasUploaded?
    case Dies(run) => run in s.running
  }

  ghost function Apply(s: State, step: Step): State
    requires Enabled(s, step)
  {
    match step
    case Arrives(row) => s.(table := s.table + {row}, arrived := s.arrived + {row})
    case Reads(run, _, batch) => s.(running := s.running[run := HasRead(batch)])
    case Uploads(run) =>
      s.(blobs := s.blobs + [s.running[run].batch], running := s.running[run := HasUploaded(s.running[run].batch)])
    case UploadAnswerLost(run) => s.(blobs := s.blobs + [s.running[run].batch], running := s.running - {run})
    case Deletes(run) => s.(table := Purge(s.table, s.running[run].batch), running := s.running - {run})
    case Dies(run) => s.(running := s.running - {run})
  }

  predicate InBlob(s: State, r: Row) {
    exists k :: 0 <= k < |s.blobs| && r in s.blobs[k]
  }

  /** An archived row's id is its own. */
  predicate UniqueIds(rows: set<Row>) {
    forall a, b | a in rows && b in rows && a.id == b.id :: a == b
  }

  /** A row in a blob carries this one's id. */
  predicate SiblingInBlob(s: State, r: Row) {
    exists q :: q in s.arrived && q.id == r.id && InBlob(s, q)
  }

  ghost predicate Inv(s: State) {
    && s.table <= s.arrived
    && (forall r | r in s.arrived :: r in s.table || SiblingInBlob(s, r))
    && (forall k, r | 0 <= k < |s.blobs| && r in s.blobs[k] :: r in s.arrived)
    && (forall run | run in s.running :: forall r | r in s.running[run].batch :: r in s.arrived)
    && (forall run | run in s.running && s.running[run].HasUploaded? :: forall r | r in s.running[run].batch :: InBlob(s, r))
  }

  lemma UploadKeeps(s: State, run: RunId, s': State)
    requires Inv(s) && run in s.running && s.running[run].HasRead?
    requires s'.table == s.table && s'.arrived == s.arrived && s'.blobs == s.blobs + [s.running[run].batch]
    requires s'.running == s.running - {run} || s'.running == s.running[run := HasUploaded(s.running[run].batch)]
    ensures Inv(s')
  {
    var batch := s.running[run].batch;
    assert s'.blobs[|s.blobs|] == batch;
    forall r | InBlob(s, r) ensures InBlob(s', r) {
      var k :| 0 <= k < |s.blobs| && r in s.blobs[k];
      assert s'.blobs[k] == s.blobs[k];
    }
    forall r | SiblingInBlob(s, r) ensures SiblingInBlob(s', r) {
      var q :| q in s.arrived && q.id == r.id && InBlob(s, q);
      assert InBlob(s', q);
    }
    forall k, r | 0 <= k < |s'.blobs| && r in s'.blobs[k] ensures r in s'.arrived {
      if k < |s.blobs| { assert s'.blobs[k] == s.blobs[k]; }
    }
  }

  lemma DeleteKeeps(s: State, run: RunId)
    requires Inv(s) && Enabled(s, Deletes(run))
    ensures Inv(Apply(s, Deletes(run)))
  {
    var s', batch := Apply(s, Deletes(run)), s.running[run].batch;
    assert forall r :: InBlob(s, r) <==> InBlob(s', r);
    forall r | r in s.arrived ensures r in s'.table || SiblingInBlob(s', r) {
      if r in s.table && HasId(batch, r.id) {
        var i :| 0 <= i < |batch| && batch[i].id == r.id;
        assert batch[i] in batch;
        assert batch[i] in s'.arrived && InBlob(s', batch[i]);
      } else if r !in s.table {
        var q :| q in s.arrived && q.id == r.id && InBlob(s, q);
        assert InBlob(s', q);
      }
    }
  }

  lemma ArriveKeeps(s: State, row: Row)
    requires Inv(s)
    ensures Inv(s.(table := s.table + {row}, arrived := s.arrived + {row}))
  {
    var s' := s.(table := s.table + {row}, arrived := s.arrived + {row});
    assert forall r :: InBlob(s, r) <==> InBlob(s', r);
    forall r | SiblingInBlob(s, r) ensures SiblingInBlob(s', r) {
      var q :| q in s.arrived && q.id == r.id && InBlob(s, q);
      assert InBlob(s', q);
    }
  }

  lemma SameBlobsKeep(s: State, s': State)
    requires Inv(s) && s' == s.(running := s'.running)
    requires forall run | run in s'.running ::
      || (run in s.running && s'.running[run] == s.running[run])
      || (s'.running[run].HasRead? && forall r | r in s'.running[run].batch :: r in s.arrived)
    ensures Inv(s')
  {
    assert forall r :: InBlob(s, r) <==> InBlob(s', r);
    assert forall r :: SiblingInBlob(s, r) ==> SiblingInBlob(s', r);
  }

  lemma StepKeeps(s: State, step: Step)
    requires Inv(s) && Enabled(s, step)
    ensures Inv(Apply(s, step)) && s.arrived <= Apply(s, step).arrived
  {
    match step
    case Arrives(row) => ArriveKeeps(s, row);
    case Reads(_, _, _) => SameBlobsKeep(s, Apply(s, step));
    case Uploads(run) => UploadKeeps(s, run, Apply(s, step));
    case UploadAnswerLost(run) => UploadKeeps(s, run, Apply(s, step));
    case Deletes(run) => DeleteKeeps(s, run);
    case Dies(_) => SameBlobsKeep(s, Apply(s, step));
  }

  ghost predicate IsRun(ss: seq<State>, steps: seq<Step>) {
    |ss| == |steps| + 1
    && forall k | 0 <= k < |steps| :: Enabled(ss[k], steps[k]) && ss[k + 1] == Apply(ss[k], steps[k])
  }

  /** Whatever dies wherever, with several exporters at once and rows still arriving: a row that
      was ever archived is in the table, or a row of its id is in an uploaded blob ... */
  lemma OnlySiblingsAreLost(ss: seq<State>, steps: seq<Step>, a: nat, b: nat, r: Row)
    requires IsRun(ss, steps) && ss[0] == State({}, [], map[], {}) && a <= b <= |steps| && r in ss[a].arrived
    ensures r in ss[b].arrived && (r in ss[b].table || SiblingInBlob(ss[b], r))
  {
    forall k: nat | k + 1 < |ss| && Inv(ss[k]) ensures Inv(ss[k + 1]) && ss[k].arrived <= ss[k + 1].arrived {
      StepKeeps(ss[k], steps[k]);
    }
    Along(ss, s => Inv(s), (s: State, s': State) => s.arrived <= s'.arrived, a, b);
  }

  /** ... which is the row itself when ids are not used twice. */
  lemma NothingIsLost(ss: seq<State>, steps: seq<Step>, a: nat, b: nat, r: Row)
    requires IsRun(ss, steps) && ss[0] == State({}, [], map[], {}) && a <= b <= |steps| && r in ss[a].arrived
    requires UniqueIds(ss[b].arrived)
    ensures r in ss[b].table || InBlob(ss[b], r)
  {
    OnlySiblingsAreLost(ss, steps, a, b, r);
  }

  /** Two rows with one id do lose the later one: it is deleted with its sibling, never uploaded. */
  lemma SiblingIsLost(first: Row, second: Row, run: RunId) returns (ss: seq<State>, steps: seq<Step>)
    requires first != second && first.id == second.id && first.archivedAt <= second.archivedAt
    ensures IsRun(ss, steps) && ss[0] == State({}, [], map[], {})
    ensures var s := ss[|steps|]; second in s.arrived && second !in s.table && !InBlob(s, second)
  {
    var both, batch := {first, second}, [first];
    var s0 := State({}, [], map[], {});
    var s1 := State({first}, [], map[], {first});
    var s2 := State(both, [], map[], both);
    var s3 := s2.(running := map[run := HasRead(batch)]);
    var s4 := s2.(running := map[run := HasUploaded(batch)], blobs := [batch]);
    var s5 := State({}, [batch], map[], both);
    assert batch[0] == first && HasId(batch, first.id);
    assert Purge(both, batch) == {};
    assert s0.table + {first} == {first} && s1.table + {second} == both;
    steps := [Arrives(first), Arrives(second), Reads(run, 1, batch), Uploads(run), Deletes(run)];
    ss := [s0, s1, s2, s3, s4, s5];
    assert Selects(both, 1, batch);
  }

  // ----- Repetition without crashes -----

  /** Runs one after the other on a table nobody adds to. */
  ghost predicate Repeats(tables: seq<set<Row>>, batches: seq<seq<Row>>, limit: nat) {
    |tables| == |batches| + 1
    && forall k | 0 <= k < |batches| ::
         Selects(tables[k], limit, batches[k]) && tables[k + 1] == Purge(tables[k], batches[k])
  }

  lemma {:induction false} RowsSize(batch: seq<Row>)
    requires forall i, j | 0 <= i < j < |batch| :: batch[i] != batch[j]
    ensures |Rows(batch)| == |batch|
  {
    if batch == [] {
      assert Rows(batch) == {};
    } else {
      var n := |batch| - 1;
      RowsSize(batch[..n]);
      assert Rows(batch) == Rows(batch[..n]) + {batch[n]};
    }
  }

  /** One run takes exactly its batch out of the table. */
  lemma RunTakes(table: set<Row>, limit: nat, batch: seq<Row>)
    requires UniqueIds(table) && Selects(table, limit, batch)
    ensures Purge(table, batch) == table - Rows(batch)
    ensures |Purge(table, batch)| == |table| - |batch|
  {
    forall r | r in table ensures HasId(batch, r.id) <==> r in batch {
      if HasId(batch, r.id) {
        var i :| 0 <= i < |batch| && batch[i].id == r.id;
        assert batch[i] in batch;
      }
      if r in batch {
        var i :| 0 <= i < |batch| && batch[i] == r;
      }
    }
    assert Purge(table, batch) == table - Rows(batch);
    assert Rows(batch) <= table;
    RowsSize(batch);
  }

  /** How many rows are left after `m` runs. */
  function Left(n: nat, limit: nat, m: nat): nat {
    if m == 0 then n
    else if limit < Left(n, limit, m - 1) then Left(n, limit, m - 1) - limit else 0
  }

  lemma {:induction false} LeftCounts(n: nat, limit: nat, m: nat)
    ensures Left(n, limit, m) == if m * limit < n then n - m * limit else 0
  {
    if m > 0 {
      LeftCounts(n, limit, m - 1);
      Distribute(m - 1, 1, limit);
    }
  }

  lemma Distribute(a: nat, d: nat, limit: nat)
    ensures (a + d) * limit == a * limit + d * limit && d * limit >= 0
  {
  }

  lemma OneRunLeft(top: set<Row>, t: set<Row>, limit: nat, batch: seq<Row>, m: nat)
    requires m > 0 && UniqueIds(top) && t <= top && |t| == Left(|top|, limit, m - 1) && Selects(t, limit, batch)
    ensures Purge(t, batch) <= top && |Purge(t, batch)| == Left(|top|, limit, m)
  {
    RunTakes(t, limit, batch);
  }

  lemma {:induction false} SizeLeft(tables: seq<set<Row>>, batches: seq<seq<Row>>, limit: nat, m: nat)
    requires Repeats(tables, batches, limit) && UniqueIds(tables[0]) && m <= |batches|
    ensures tables[m] <= tables[0] && |tables[m]| == Left(|tables[0]|, limit, m)
  {
    if m > 0 {
      SizeLeft(tables, batches, limit, m - 1);
      OneRunLeft(tables[0], tables[m - 1], limit, batches[m - 1], m);
    }
  }

  lemma StepTakes(tables: seq<set<Row>>, batches: seq<seq<Row>>, limit: nat, k: nat)
    requires Repeats(tables, batches, limit) && UniqueIds(tables[0]) && k < |batches|
    ensures tables[k] <= tables[0] && Rows(batches[k]) <= tables[k] && tables[k + 1] == tables[k] - Rows(batches[k])
  {
    SizeLeft(tables, batches, limit, k);
    RunTakes(tables[k], limit, batches[k]);
  }

  lemma {:induction false} OutOfLater(tables: seq<set<Row>>, batches: seq<seq<Row>>, limit: nat, k: nat, m: nat)
    requires Repeats(tables, batches, limit) && UniqueIds(tables[0]) && k < m <= |batches|
    ensures Rows(batches[k]) !! tables[m]
  {
    StepTakes(tables, batches, limit, m - 1);
    if k < m - 1 {
      OutOfLater(tables, batches, limit, k, m - 1);
    }
  }

  /** No row is in two batches ... */
  lemma BatchesDisjoint(tables: seq<set<Row>>, batches: seq<seq<Row>>, limit: nat, j: nat, k: nat)
    requires Repeats(tables, batches, limit) && UniqueIds(tables[0]) && j < k < |batches|
    ensures Rows(batches[j]) !! Rows(batches[k])
  {
    OutOfLater(tables, batches, limit, j, k);
    StepTakes(tables, batches, limit, k);
  }

  /** ... and every row is in the table or in a batch. */
  lemma {:induction false} LeftOrDumped(tables: seq<set<Row>>, batches: seq<seq<Row>>, limit: nat, m: nat, r: Row)
    requires Repeats(tables, batches, limit) && UniqueIds(tables[0]) && m <= |batches| && r in tables[0]
    ensures r in tables[m] || exists k :: 0 <= k < m && r in batches[k]
  {
    if m > 0 {
      LeftOrDumped(tables, batches, limit, m - 1, r);
      StepTakes(tables, batches, limit, m - 1);
      if r in tables[m - 1] && r !in tables[m] {
        assert r in Rows(batches[m - 1]);
      }
    }
  }

  /** So `n` rows take exactly ceil(n / limit) runs that dump something, after which each row is
      in exactly one blob and the table is empty. */
  lemma DrainsInCeilRuns(tables: seq<set<Row>>, batches: seq<seq<Row>>, limit: nat)
    requires Repeats(tables, batches, limit) && UniqueIds(tables[0]) && limit > 0
    requires |batches| >= (|tables[0]| + limit - 1) / limit
    ensures forall k | 0 <= k < |batches| :: batches[k] != [] <==> k < (|tables[0]| + limit - 1) / limit
    ensures tables[|batches|] == {}
    ensures forall r | r in tables[0] :: exists k :: 0 <= k < |batches| && r in batches[k]
    ensures forall j, k | 0 <= j < k < |batches| :: Rows(batches[j]) !! Rows(batches[k])
  {
    var n := |tables[0]|;
    var runs := (n + limit - 1) / limit;
    CeilBounds(n, limit);
    forall k | 0 <= k < |batches| ensures batches[k] != [] <==> k < runs {
      SizeLeft(tables, batches, limit, k);
      LeftCounts(n, limit, k);
      MonotoneProduct(k, runs, limit);
    }
    SizeLeft(tables, batches, limit, |batches|);
    LeftCounts(n, limit, |batches|);
    MonotoneProduct(runs, |batches|, limit);
    forall r | r in tables[0] ensures exists k :: 0 <= k < |batches| && r in batches[k] {
      LeftOrDumped(tables, batches, limit, |batches|, r);
    }
    forall j, k | 0 <= j < k < |batches| ensures Rows(batches[j]) !! Rows(batches[k]) {
      BatchesDisjoint(tables, batches, limit, j, k);
    }
  }

  lemma CeilBounds(n: nat, limit: nat)
    requires limit > 0
    ensures var runs := (n + limit - 1) / limit; runs >= 0 && n <= runs * limit < n + limit
  {
    var x := n + limit - 1;
    assert x == limit * (x / limit) + x % limit;
  }

  lemma MonotoneProduct(a: nat, b: nat, limit: nat)
    requires limit > 0
    ensures a <= b ==> a * limit <= b * limit
    ensures a < b ==> a * limit + limit <= b * limit
    ensures a >= b ==> a * limit >= b * limit
  {
    if a < b {
      Distribute(a, b - a, limit);
      Distribute(1, b - a - 1, limit);
    } else {
      Distribute(b, a - b, limit);
    }
  }

  // ----- The exporter as the source runs it -----

  datatype Fate = Completes | DiesAfterRead | DiesAfterUpload

  class ArchiveExporter {
    var table: set<Row>
    var blobs: seq<seq<Row>>
    const batchSize: nat

    constructor (rows: set<Row>, size: int)
      ensures table == rows && blobs == [] && batchSize == if size <= 0 then 5000 else size
    {
      table, blobs := rows, [];
      batchSize := if size <= 0 then 5000 else size;
    }

    method Oldest(rows: set<Row>) returns (oldest: Row)
      requires rows != {}
      ensures oldest in rows && forall r | r in rows :: oldest.archivedAt <= r.archivedAt
    {
      oldest :| oldest in rows;
      var rest := rows - {oldest};
      while rest != {}
        invariant rest <= rows && oldest in rows
        invariant forall r | r in rows && r !in rest :: oldest.archivedAt <= r.archivedAt
        decreases rest
      {
        var r :| r in rest;
        rest := rest - {r};
        if r.archivedAt < oldest.archivedAt { oldest := r; }
      }
    }

    method SelectBatch() returns (batch: seq<Row>)
      ensures Selects(table, batchSize, batch)
    {
      batch := [];
      var rest := table;
      while |batch| < batchSize && rest != {}
        invariant rest <= table && |batch| <= batchSize && |rest| + |batch| == |table|
        invariant forall r :: r in batch <==> r in table && r !in rest
        invariant forall i, j | 0 <= i < j < |batch| :: batch[i] != batch[j] && batch[i].archivedAt <= batch[j].archivedAt
        invariant forall r, b | r in rest && b in batch :: b.archivedAt <= r.archivedAt
        decreases rest
      {
        var r := Oldest(rest);
        rest := rest - {r};
        batch := batch + [r];
      }
    }

    /** One run, to its end or dead in between. */
    method Run(fate: Fate) returns (dumped: nat, ghost batch: seq<Row>)
      modifies this
      ensures Selects(old(table), batchSize, batch)
      ensures batch == [] ==> table == old(table) && blobs == old(blobs) && dumped == 0
      ensures batch != [] ==>
        && (blobs == if fate.DiesAfterRead? then old(blobs) else old(blobs) + [batch])
        && (table == if fate.Completes? then Purge(old(table), batch) else old(table))
        && (dumped == if fate.Completes? then |batch| else 0)
    {
      var rows := SelectBatch();
      batch := rows;
      dumped := 0;
      if rows == [] { return; }
      if fate.DiesAfterRead? { return; }
      blobs := blobs + [rows];
      if fate.DiesAfterUpload? { return; }
      table := Purge(table, rows);
      dumped := |rows|;
    }
  }
}
