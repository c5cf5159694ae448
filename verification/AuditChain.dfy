/** A project's audit chain: what Verify accepts, and what it rejects where. */
module AuditChain {
  import opened Prelude

  /** The columns a row's hash covers, as one value. */
  type Fields = int

  /** A hash that collides with no other: the previous hash and the row. */
  datatype Hash = H(prev: Option<Hash>, fields: Fields)

  /** The id and the position are not part of the hash. */
  datatype Row = Row(id: int, prev: Option<Hash>, fields: Fields, hash: Hash)

  function Depth(h: Option<Hash>): nat {
    match h
    case None => 0
    case Some(x) => 1 + Depth(x.prev)
  }

  // ----- Intact chains -----

  predicate ContentOk(r: Row) {
    r.hash == H(r.prev, r.fields)
  }

  /** The hash a row at position i must point back to. */
  function Expected(seed: Option<Hash>, rows: seq<Row>, i: nat): Option<Hash>
    requires i <= |rows|
  {
    if i == 0 then seed else Some(rows[i - 1].hash)
  }

  predicate GoodAt(seed: Option<Hash>, rows: seq<Row>, i: nat)
    requires i < |rows|
  {
    ContentOk(rows[i]) && rows[i].prev == Expected(seed, rows, i)
  }

  predicate Intact(seed: Option<Hash>, rows: seq<Row>) {
    forall i | 0 <= i < |rows| :: GoodAt(seed, rows, i)
  }

  // ----- Verify -----

  datatype Reason = FieldAltered | LinkBroken

  datatype Verdict = Sound(checked: nat) | Broken(checked: nat, id: int, reason: Reason)

  /** Walks the rows in order from the checkpoint's hash, content first, then the link. */
  method Verify(seed: Option<Hash>, rows: seq<Row>) returns (v: Verdict)
    ensures v.Sound? <==> Intact(seed, rows)
    ensures v.Sound? ==> v.checked == |rows|
    ensures v.Broken? ==>
      && 1 <= v.checked <= |rows| && Intact(seed, rows[..v.checked - 1])
      && !GoodAt(seed, rows, v.checked - 1) && v.id == rows[v.checked - 1].id
      && (v.reason.FieldAltered? <==> !ContentOk(rows[v.checked - 1]))
  {
    var prev := seed;
    var checked := 0;
    while checked < |rows|
      invariant checked <= |rows| && prev == Expected(seed, rows, checked)
      invariant forall i | 0 <= i < checked :: GoodAt(seed, rows, i)
    {
      var r := rows[checked];
      checked := checked + 1;
      if r.hash != H(r.prev, r.fields) {
        PrefixIntact(seed, rows, checked - 1);
        assert !GoodAt(seed, rows, checked - 1);
        return Broken(checked, r.id, FieldAltered);
      }
      if r.prev != prev {
        PrefixIntact(seed, rows, checked - 1);
        assert !GoodAt(seed, rows, checked - 1);
        return Broken(checked, r.id, LinkBroken);
      }
      prev := Some(r.hash);
    }
    return Sound(checked);
  }

  lemma PrefixIntact(seed: Option<Hash>, rows: seq<Row>, n: nat)
    requires n <= |rows| && forall i | 0 <= i < n :: GoodAt(seed, rows, i)
    ensures Intact(seed, rows[..n])
  {
    forall i | 0 <= i < n ensures GoodAt(seed, rows[..n], i) {
      assert GoodAt(seed, rows, i);
    }
  }

  /** The first bad row is unique, so it is where Verify stops. */
  predicate RejectedAt(seed: Option<Hash>, rows: seq<Row>, i: nat) {
    i < |rows| && !GoodAt(seed, rows, i) && forall j | 0 <= j < i :: GoodAt(seed, rows, j)
  }

  // ----- Growing and pruning -----

  function Head(seed: Option<Hash>, rows: seq<Row>): Option<Hash> {
    Expected(seed, rows, |rows|)
  }

  function Link(seed: Option<Hash>, rows: seq<Row>, id: int, fields: Fields): Row {
    var prev := Head(seed, rows);
    Row(id, prev, fields, H(prev, fields))
  }

  lemma AppendIntact(seed: Option<Hash>, rows: seq<Row>, id: int, fields: Fields)
    requires Intact(seed, rows)
    ensures Intact(seed, rows + [Link(seed, rows, id, fields)])
  {
    var rows' := rows + [Link(seed, rows, id, fields)];
    forall i | 0 <= i < |rows'| ensures GoodAt(seed, rows', i) {
      assert i < |rows| ==> GoodAt(seed, rows, i);
    }
  }

  /** A chain is intact exactly when a prefix is and the rest is from the prefix's last hash:
      the checkpoint a prune records is the seed the survivors need, and the pruned rows and the
      survivors are one chain from the old seed. */
  lemma SplitIntact(seed: Option<Hash>, rows: seq<Row>, k: nat)
    requires k <= |rows|
    ensures Intact(seed, rows) <==> Intact(seed, rows[..k]) && Intact(Expected(seed, rows, k), rows[k..])
  {
    var s, p, q := Expected(seed, rows, k), rows[..k], rows[k..];
    if Intact(seed, rows) {
      PrefixIntact(seed, rows, k);
      forall i | 0 <= i < |q| ensures GoodAt(s, q, i) {
        assert GoodAt(seed, rows, k + i);
      }
    }
    if Intact(seed, p) && Intact(s, q) {
      forall i | 0 <= i < |rows| ensures GoodAt(seed, rows, i) {
        if i < k {
          assert GoodAt(seed, p, i);
        } else {
          assert GoodAt(s, q, i - k);
        }
      }
    }
  }

  lemma PrunedIntact(seed: Option<Hash>, rows: seq<Row>, k: nat)
    requires Intact(seed, rows) && k <= |rows|
    ensures Intact(Expected(seed, rows, k), rows[k..]) && Head(Expected(seed, rows, k), rows[k..]) == Head(seed, rows)
  {
    SplitIntact(seed, rows, k);
  }

  // ----- No forks -----

  lemma {:induction false} DepthGrows(seed: Option<Hash>, rows: seq<Row>, i: nat)
    requires Intact(seed, rows) && i <= |rows|
    ensures Depth(Expected(seed, rows, i)) == Depth(seed) + i
  {
    if i > 0 {
      DepthGrows(seed, rows, i - 1);
      assert GoodAt(seed, rows, i - 1);
    }
  }

  /** No two rows of an intact chain follow the same row, or carry the same hash. */
  lemma NoFork(seed: Option<Hash>, rows: seq<Row>, i: nat, j: nat)
    requires Intact(seed, rows) && i < |rows| && j < |rows| && i != j
    ensures rows[i].prev != rows[j].prev && rows[i].hash != rows[j].hash
  {
    DepthGrows(seed, rows, i);
    DepthGrows(seed, rows, j);
    assert GoodAt(seed, rows, i) && GoodAt(seed, rows, j);
    assert Depth(Some(rows[i].hash)) == 1 + Depth(rows[i].prev);
    assert Depth(Some(rows[j].hash)) == 1 + Depth(rows[j].prev);
  }

  // ----- Tampering -----

  /** A changed field, or a changed hash, is rejected at that very row. */
  lemma AlteredRowRejected(seed: Option<Hash>, rows: seq<Row>, i: nat, r: Row)
    requires Intact(seed, rows) && i < |rows|
    requires r.hash == rows[i].hash && (r.fields != rows[i].fields || r.prev != rows[i].prev)
    ensures RejectedAt(seed, rows[i := r], i) && !ContentOk(r)
  {
    var rows' := rows[i := r];
    assert GoodAt(seed, rows, i);
    forall j | 0 <= j < i ensures GoodAt(seed, rows', j) {
      assert GoodAt(seed, rows, j);
    }
  }

  /** Changing a field and recomputing the row's own hash is rejected at the next row. */
  lemma RehashedRowRejected(seed: Option<Hash>, rows: seq<Row>, i: nat, fields: Fields)
    requires Intact(seed, rows) && i + 1 < |rows| && fields != rows[i].fields
    ensures var r := Row(rows[i].id, rows[i].prev, fields, H(rows[i].prev, fields));
      RejectedAt(seed, rows[i := r], i + 1)
  {
    var r := Row(rows[i].id, rows[i].prev, fields, H(rows[i].prev, fields));
    var rows' := rows[i := r];
    assert GoodAt(seed, rows, i) && GoodAt(seed, rows, i + 1);
    forall j | 0 <= j <= i ensures GoodAt(seed, rows', j) {
      assert GoodAt(seed, rows, j);
    }
  }

  /** The same up to ids, which no hash covers. */
  predicate SameRow(r: Row, q: Row) {
    r.prev == q.prev && r.fields == q.fields && r.hash == q.hash
  }

  /** Only row i of an honest chain fits position i, and none fits the end. */
  lemma OnlyItsPlace(seed: Option<Hash>, rows: seq<Row>, i: nat, k: nat)
    requires Intact(seed, rows) && i <= |rows| && k < |rows| && rows[k].prev == Expected(seed, rows, i)
    ensures k == i
  {
    assert GoodAt(seed, rows, k);
    DepthGrows(seed, rows, i);
    DepthGrows(seed, rows, k);
  }

  /** Deleting, repeating or reordering rows of an honest chain is accepted exactly when what is
      left is a prefix: only cutting the tail goes unnoticed. */
  lemma {:induction false} OnlyTailCutAccepted(seed: Option<Hash>, rows: seq<Row>, kept: seq<Row>)
    requires Intact(seed, rows) && forall r | r in kept :: r in rows
    ensures Intact(seed, kept) <==> kept <= rows
    decreases |kept|
  {
    if kept <= rows {
      forall i | 0 <= i < |kept| ensures GoodAt(seed, kept, i) {
        assert GoodAt(seed, rows, i);
      }
    }
    if Intact(seed, kept) && kept != [] {
      var n := |kept| - 1;
      PrefixIntact(seed, kept, n);
      assert forall r | r in kept[..n] :: r in kept;
      OnlyTailCutAccepted(seed, rows, kept[..n]);
      assert GoodAt(seed, kept, n);
      assert Expected(seed, kept, n) == Expected(seed, rows, n);
      assert kept[n] in kept;
      var k :| 0 <= k < |rows| && rows[k] == kept[n];
      OnlyItsPlace(seed, rows, n, k);
    }
  }

  /** ... and anything else is rejected at the first row out of place. */
  lemma FirstMisplacedRejected(seed: Option<Hash>, rows: seq<Row>, kept: seq<Row>, i: nat)
    requires Intact(seed, rows) && (forall r | r in kept :: r in rows) && i < |kept|
    requires kept[..i] <= rows && !(kept[..i + 1] <= rows)
    ensures RejectedAt(seed, kept, i)
  {
    assert forall r | r in kept[..i] :: r in kept;
    assert forall r | r in kept[..i + 1] :: r in kept;
    OnlyTailCutAccepted(seed, rows, kept[..i]);
    OnlyTailCutAccepted(seed, rows, kept[..i + 1]);
    forall j | 0 <= j < i ensures GoodAt(seed, kept, j) {
      assert GoodAt(seed, kept[..i], j);
    }
    if GoodAt(seed, kept, i) {
      forall j | 0 <= j < i + 1 ensures GoodAt(seed, kept, j) {}
      PrefixIntact(seed, kept, i + 1);
    }
  }

  /** A row inserted before another one is rejected at itself or at the row after it, whatever it
      contains and even with a correct hash of its own. */
  lemma InsertedRowRejected(seed: Option<Hash>, rows: seq<Row>, i: nat, r: Row)
    requires Intact(seed, rows) && i < |rows|
    ensures var rows' := rows[..i] + [r] + rows[i..];
      RejectedAt(seed, rows', if GoodAt(seed, rows', i) then i + 1 else i)
  {
    var rows' := rows[..i] + [r] + rows[i..];
    forall j | 0 <= j < i ensures GoodAt(seed, rows', j) {
      assert GoodAt(seed, rows, j);
    }
    assert rows'[i] == r && rows'[i + 1] == rows[i];
    assert GoodAt(seed, rows, i);
    assert Depth(Some(H(r.prev, r.fields))) == 1 + Depth(r.prev);
  }

  /** Only a row at the end, linked like an honest one, passes: the chain cannot tell who wrote it. */
  lemma AppendedRowAcceptedIffLinked(seed: Option<Hash>, rows: seq<Row>, r: Row)
    requires Intact(seed, rows)
    ensures Intact(seed, rows + [r]) <==> r == Link(seed, rows, r.id, r.fields)
  {
    var rows' := rows + [r];
    assert Intact(seed, rows') ==> GoodAt(seed, rows', |rows|);
    if r == Link(seed, rows, r.id, r.fields) {
      AppendIntact(seed, rows, r.id, r.fields);
    }
  }

  /** Whatever was done to a chain, if Verify still accepts it and its last hash is the one noted
      earlier, nothing was done: every row is the same. */
  lemma {:induction false} SameHeadSameRows(seed: Option<Hash>, rows: seq<Row>, rows': seq<Row>)
    requires Intact(seed, rows) && Intact(seed, rows') && Head(seed, rows) == Head(seed, rows')
    ensures |rows| == |rows'| && forall i | 0 <= i < |rows| :: SameRow(rows[i], rows'[i])
    decreases |rows|
  {
    DepthGrows(seed, rows, |rows|);
    DepthGrows(seed, rows', |rows'|);
    if rows != [] {
      var n := |rows| - 1;
      assert GoodAt(seed, rows, n) && GoodAt(seed, rows', n);
      PrefixIntact(seed, rows, n);
      PrefixIntact(seed, rows', n);
      assert Head(seed, rows[..n]) == rows[n].prev && Head(seed, rows'[..n]) == rows'[n].prev;
      SameHeadSameRows(seed, rows[..n], rows'[..n]);
      forall i | 0 <= i < |rows| ensures SameRow(rows[i], rows'[i]) {
        assert i < n ==> SameRow(rows[..n][i], rows'[..n][i]);
      }
    }
  }
}
