/** What the pool's operations do for a caller, entry by entry: whom an acquire joins, and what
    becomes of a client that failed or was given up. */
module TenantPoolLaws {
  import opened Prelude
  import opened Runs
  import opened TenantPool

  /** The cache without an entry, in order. */
  function Without(cache: seq<EntryId>, e: EntryId): seq<EntryId> {
    if cache == [] then []
    else if cache[0] == e then Without(cache[1..], e)
    else [cache[0]] + Without(cache[1..], e)
  }

  lemma {:induction false} WithoutOthers(cache: seq<EntryId>, e: EntryId)
    ensures forall f :: f in Without(cache, e) <==> f in cache && f != e
    ensures e !in cache ==> Without(cache, e) == cache
  {
    if cache != [] {
      WithoutOthers(cache[1..], e);
      assert forall f :: f in cache <==> f == cache[0] || f in cache[1..];
      assert cache == [cache[0]] + cache[1..];
    }
  }

  lemma {:induction false} WithoutAt(cache: seq<EntryId>, i: nat)
    requires i < |cache| && forall j, k | 0 <= j < k < |cache| :: cache[j] != cache[k]
    ensures Without(cache, cache[i]) == cache[..i] + cache[i + 1..]
  {
    if i == 0 {
      assert cache[0] !in cache[1..];
      WithoutOthers(cache[1..], cache[0]);
      assert cache[..0] + cache[1..] == cache[1..];
    } else {
      WithoutAt(cache[1..], i - 1);
      assert cache[..i] + cache[i + 1..] == [cache[0]] + (cache[1..][..i - 1] + cache[1..][i..]);
    }
  }

  lemma UncachedIs(p: Pool, e: EntryId)
    requires Linked(p)
    ensures (match FindEntry(p, e) case Some(i) => p.cache[..i] + p.cache[i + 1..] case None => p.cache) == Without(p.cache, e)
    ensures FindEntry(p, e).Some? <==> e in p.cache
  {
    match FindEntry(p, e)
    case Some(i) => WithoutAt(p.cache, i);
    case None => WithoutOthers(p.cache, e);
  }

  // ----- After the await -----

  /** A waiting call gets its lease when its client is there. When the client failed the call is
      rejected, and the entry leaves the cache, whose other entries stay in order. */
  lemma ResumeOutcome(p: Pool, c: CallId)
    requires Linked(p) && c in p.calls && p.calls[c].phase.Waiting?
    ensures var q, e := Resume(p, c), p.calls[c].entry;
      match p.all[e].client
      case Creating => q == p
      case Ready => q == p.(calls := p.calls[c := Call(e, Leased)])
      case Failed =>
        q == p.(cache := Without(p.cache, e), all := p.all[e := p.all[e].(inUse := p.all[e].inUse - 1)],
                calls := p.calls[c := Call(e, Rejected)])
  {
    UncachedIs(p, p.calls[c].entry);
  }

  /** So a client that connects gives its callers their lease, and one that fails rejects them and
      is not cached; connecting or failing changes no other client. */
  lemma SettledCallEnds(p: Pool, c: CallId, ok: bool)
    requires Linked(p) && c in p.calls && p.calls[c].phase.Waiting? && p.all[p.calls[c].entry].client.Creating?
    ensures var e := p.calls[c].entry; var q := Settle(p, e, ok);
      && Linked(q) && q.cache == p.cache && (forall f | f in p.all && f != e :: f in q.all && q.all[f] == p.all[f])
      && Resume(q, c).calls == p.calls[c := Call(e, if ok then Leased else Rejected)]
      && Resume(q, c).cache == if ok then p.cache else Without(p.cache, e)
  {
    ResumeOutcome(Settle(p, p.calls[c].entry, ok), c);
  }

  /** invalidate(): the lease's entry is not cached any more; its client is closed at once exactly
      when it was cached and nobody used it. */
  lemma InvalidateOutcome(p: Pool, c: CallId)
    requires Linked(p) && c in p.calls
    ensures var q, e := Invalidate(p, c), p.calls[c].entry;
      q == p.(cache := Without(p.cache, e),
              all := if e in p.cache && p.all[e].inUse == 0 then p.all[e := p.all[e].(closed := true)] else p.all)
  {
    UncachedIs(p, p.calls[c].entry);
  }

  /** release(): the first one ends the lease and the use, later ones do nothing. */
  lemma ReleaseOutcome(p: Pool, c: CallId, now: Time)
    requires Linked(p) && c in p.calls
    ensures var q, e := Release(p, c, now), p.calls[c].entry;
      if p.calls[c].phase.Leased?
      then q == p.(calls := p.calls[c := Call(e, Released)], all := p.all[e := p.all[e].(lastUsed := now, inUse := p.all[e].inUse - 1)])
      else q == p
  {
  }

  // ----- Acquires -----

  /** A caller whose key is cached joins that entry, connected, connecting or failed. */
  lemma AcquireJoins(p: Pool, c: CallId, k: string, now: Time, e: EntryId)
    requires Linked(p) && e in p.cache && p.all[e].key == k
    ensures AcquireStart(p, c, k, now)
         == p.(calls := p.calls[c := Call(e, Waiting)], all := p.all[e := p.all[e].(lastUsed := now, inUse := p.all[e].inUse + 1)])
  {
    var i :| 0 <= i < |p.cache| && p.cache[i] == e;
    assert Find(p.cache, p.all, k, 0).Some?;
    assert Find(p.cache, p.all, k, 0).value == i;
  }

  /** Any other caller gets an entry of its own, with a client to be created. */
  lemma AcquireCreates(p: Pool, c: CallId, k: string, now: Time)
    requires Inv(p) && c !in p.calls && forall e | e in p.cache && e in p.all :: p.all[e].key != k
    ensures var q := AcquireStart(p, c, k, now);
      && q.calls == p.calls[c := Call(p.nextEntry, Waiting)] && q.nextEntry == p.nextEntry + 1
      && |q.cache| > 0 && q.cache[|q.cache| - 1] == p.nextEntry
      && p.nextEntry in q.all && q.all[p.nextEntry] == Entry(k, now, 1, Creating, false)
      && forall e | e in q.cache :: e in p.cache || e == p.nextEntry
  {
    EvictKeeps(p);
    EvictionIsLru(p);
    var r := EvictIdleOverCap(p);
    assert forall i | 0 <= i < |p.cache| :: p.cache[i] in p.cache;
    assert Find(p.cache, p.all, k, 0).None?;
    assert AcquireStart(p, c, k, now) == Insert(r, c, k, now);
  }

  /** So the next caller after a failure does not get the failed client, but a new one. */
  lemma FailedIsReplaced(p: Pool, c: CallId, d: CallId, now: Time)
    requires Inv(p) && c in p.calls && p.calls[c].phase.Waiting? && p.all[p.calls[c].entry].client.Failed?
    requires p.calls[c].entry in p.cache && d !in p.calls
    ensures var e, q := p.calls[c].entry, Resume(p, c);
      && Linked(q) && e !in q.cache
      && var r := AcquireStart(q, d, p.all[e].key, now);
         && d in r.calls && r.calls[d] == Call(p.nextEntry, Waiting) && p.nextEntry != e
         && p.nextEntry in r.all && r.all[p.nextEntry].client.Creating?
  {
    var e, q := p.calls[c].entry, Resume(p, c);
    ResumeKeeps(p, c);
    ResumeOutcome(p, c);
    WithoutOthers(p.cache, e);
    forall f | f in q.cache ensures q.all[f].key != p.all[e].key {
      var i :| 0 <= i < |p.cache| && p.cache[i] == e;
      var j :| 0 <= j < |p.cache| && p.cache[j] == f;
      assert p.all[p.cache[if i < j then i else j]].key != p.all[p.cache[if i < j then j else i]].key;
    }
    AcquireCreates(q, d, p.all[e].key, now);
  }

  // ----- Failures do not stay -----

  predicate Awaited(p: Pool, e: EntryId) {
    exists c | c in p.calls :: p.calls[c] == Call(e, Waiting)
  }

  /** A cached client that is not connected has a call waiting for it. */
  predicate PendingAwaited(p: Pool) {
    forall e | e in p.cache && e in p.all && !p.all[e].client.Ready? :: Awaited(p, e)
  }

  lemma AcquireAwaits(p: Pool, c: CallId, k: string, now: Time)
    requires Inv(p) && PendingAwaited(p) && c !in p.calls
    ensures PendingAwaited(AcquireStart(p, c, k, now))
  {
    var q := AcquireStart(p, c, k, now);
    if e :| e in p.cache && p.all[e].key == k {
      AcquireJoins(p, c, k, now, e);
    } else {
      AcquireCreates(p, c, k, now);
      EvictionIsLru(p);
      EvictKeeps(p);
      assert q.calls[c] == Call(p.nextEntry, Waiting);
    }
    forall e | e in q.cache && e in q.all && !q.all[e].client.Ready? ensures Awaited(q, e) {
      if q.calls[c].entry != e {
        assert Awaited(p, e);
        var d :| d in p.calls && p.calls[d] == Call(e, Waiting);
        assert q.calls[d] == Call(e, Waiting);
      } else {
        assert q.calls[c] == Call(e, Waiting);
      }
    }
  }

  lemma ResumeAwaits(p: Pool, c: CallId)
    requires Inv(p) && PendingAwaited(p) && c in p.calls && p.calls[c].phase.Waiting?
    ensures PendingAwaited(Resume(p, c))
  {
    var q, e := Resume(p, c), p.calls[c].entry;
    ResumeOutcome(p, c);
    WithoutOthers(p.cache, e);
    forall f | f in q.cache && f in q.all && !q.all[f].client.Ready? ensures Awaited(q, f) {
      var d :| d in p.calls && p.calls[d] == Call(f, Waiting);
      assert d in q.calls;
    }
  }

  /** Leased and released calls leave the calls that wait as they are. */
  lemma OthersAwait(p: Pool, q: Pool)
    requires PendingAwaited(p) && (forall e | e in q.cache :: e in p.cache)
    requires forall e | e in q.all :: e in p.all && (q.all[e].client.Ready? <==> p.all[e].client.Ready?)
    requires forall d | d in p.calls && p.calls[d].phase.Waiting? :: d in q.calls && q.calls[d] == p.calls[d]
    ensures PendingAwaited(q)
  {
    forall e | e in q.cache && e in q.all && !q.all[e].client.Ready? ensures Awaited(q, e) {
      var d :| d in p.calls && p.calls[d] == Call(e, Waiting);
      assert q.calls[d] == Call(e, Waiting);
    }
  }

  lemma SettleAwaits(p: Pool, e: EntryId, ok: bool)
    requires PendingAwaited(p)
    ensures PendingAwaited(Settle(p, e, ok))
  {
    var q := Settle(p, e, ok);
    forall f | f in q.cache && f in q.all && !q.all[f].client.Ready? ensures Awaited(q, f) {
      assert Awaited(p, f);
    }
  }

  lemma StepAwaits(p: Pool, s: Step)
    requires Inv(p) && PendingAwaited(p) && Enabled(p, s)
    ensures PendingAwaited(Apply(p, s))
  {
    match s
    case Acquires(c, key, now) => AcquireAwaits(p, c, key, now);
    case Settles(e, ok) => SettleAwaits(p, e, ok);
    case Resumes(c) => ResumeAwaits(p, c);
    case Releases(c, now) => OthersAwait(p, Release(p, c, now));
    case Invalidates(c) =>
      InvalidateOutcome(p, c);
      WithoutOthers(p.cache, p.calls[c].entry);
      OthersAwait(p, Invalidate(p, c));
  }

  /** In every interleaving, a failed client is only cached as long as a call is still to hear of
      the failure: whoever it is, `ResumeOutcome` then drops it. */
  lemma FailureDoesNotStay(ps: seq<Pool>, steps: seq<Step>, n: nat, e: EntryId)
    requires IsRun(ps, steps) && ps[0] == Empty(ps[0].cap) && n <= |steps|
    requires e in ps[n].cache && e in ps[n].all && ps[n].all[e].client.Failed?
    ensures exists c | c in ps[n].calls :: ps[n].calls[c] == Call(e, Waiting)
  {
    forall k: nat | k + 1 < |ps| && (Inv(ps[k]) && PendingAwaited(ps[k])) ensures Inv(ps[k + 1]) && PendingAwaited(ps[k + 1]) {
      StepKeeps(ps[k], steps[k]);
      StepAwaits(ps[k], steps[k]);
    }
    Along(ps, p => Inv(p) && PendingAwaited(p), (p: Pool, q: Pool) => true, n, n);
  }
}
