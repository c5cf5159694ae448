/** The per-tenant client pool: an LRU cache of clients with leases, shared in-flight creation,
    failures and invalidation, as one state and its operations. */
module TenantPool {
  import opened Prelude
  import opened Runs
  import opened TenantKeys

  type Time = int       // milliseconds
  type EntryId = nat    // in order of creation
  type CallId = nat

  /** The promise of a client. */
  datatype Client = Creating | Ready | Failed

  datatype Entry = Entry(key: string, lastUsed: Time, inUse: int, client: Client, closed: bool)

  /** A call of acquire: waiting for its client, holding a lease, done with it, or rejected. */
  datatype Phase = Waiting | Leased | Released | Rejected
  datatype Call = Call(entry: EntryId, phase: Phase)

  /** `cache` is the map, in its iteration order (insertion); `all` has every entry ever made. */
  datatype Pool = Pool(
    cap: int,
    cache: seq<EntryId>,
    all: map<EntryId, Entry>,
    calls: map<CallId, Call>,
    nextEntry: EntryId)

  // ----- The structure -----

  predicate EntriesExist(cache: seq<EntryId>, all: map<EntryId, Entry>) {
    forall i | 0 <= i < |cache| :: cache[i] in all
  }

  /** Keys are distinct, and iteration follows creation. */
  predicate CacheOk(cache: seq<EntryId>, all: map<EntryId, Entry>) {
    && EntriesExist(cache, all)
    && (forall i, j | 0 <= i < j < |cache| :: cache[i] < cache[j] && all[cache[i]].key != all[cache[j]].key)
  }

  predicate CallsOk(calls: map<CallId, Call>, all: map<EntryId, Entry>) {
    forall c | c in calls :: calls[c].entry in all && (calls[c].phase.Leased? ==> all[calls[c].entry].client.Ready?)
  }

  predicate Linked(p: Pool) {
    && CacheOk(p.cache, p.all) && CallsOk(p.calls, p.all)
    && (forall e | e in p.all :: e < p.nextEntry)
  }

  /** Where a key is cached. */
  function Find(cache: seq<EntryId>, all: map<EntryId, Entry>, k: string, from: nat): (r: Option<nat>)
    requires EntriesExist(cache, all) && from <= |cache|
    ensures r.Some? ==> from <= r.value < |cache| && all[cache[r.value]].key == k
    ensures r.None? ==> forall i | from <= i < |cache| :: all[cache[i]].key != k
    decreases |cache| - from
  {
    if from == |cache| then None
    else if all[cache[from]].key == k then Some(from)
    else Find(cache, all, k, from + 1)
  }

  // ----- Eviction -----

  /** Removes the i-th cached entry, and closes its client if nobody uses it. */
  function Drop(p: Pool, i: nat): Pool
    requires Linked(p) && i < |p.cache|
  {
    var e := p.cache[i];
    p.(cache := p.cache[..i] + p.cache[i + 1..],
       all := if p.all[e].inUse == 0 then p.all[e := p.all[e].(closed := true)] else p.all)
  }

  lemma DropLinked(p: Pool, i: nat)
    requires Linked(p) && i < |p.cache|
    ensures Linked(Drop(p, i))
  {
    var cache' := Drop(p, i).cache;
    assert forall j | 0 <= j < |cache'| :: cache'[j] == if j < i then p.cache[j] else p.cache[j + 1];
  }

  predicate IdleAt(p: Pool, i: int) {
    0 <= i < |p.cache| && p.cache[i] in p.all && p.all[p.cache[i]].inUse == 0
  }

  function LastUsedAt(p: Pool, i: int): Time
    requires IdleAt(p, i)
  {
    p.all[p.cache[i]].lastUsed
  }

  /** The idle entry used longest ago among the first `n`, the earliest created on a tie. */
  function OldestIdle(p: Pool, n: nat): (r: Option<nat>)
    requires n <= |p.cache|
    ensures r.Some? ==> r.value < n && IdleAt(p, r.value)
  {
    if n == 0 then None
    else
      var best := OldestIdle(p, n - 1);
      if IdleAt(p, n - 1) && (best.None? || LastUsedAt(p, n - 1) < LastUsedAt(p, best.value)) then Some(n - 1) else best
  }

  function EvictIdleOverCap(p: Pool): Pool
    requires Linked(p)
    decreases |p.cache|
  {
    if |p.cache| < p.cap then p
    else
      match OldestIdle(p, |p.cache|)
      case None => p
      case Some(i) => DropLinked(p, i); EvictIdleOverCap(Drop(p, i))
  }

  // ----- Calls -----

  function Touch(e: Entry, now: Time, users: int): Entry {
    e.(lastUsed := now, inUse := e.inUse + users)
  }

  function Insert(p: Pool, c: CallId, k: string, now: Time): Pool {
    p.(cache := p.cache + [p.nextEntry],
       all := p.all[p.nextEntry := Entry(k, now, 1, Creating, false)],
       calls := p.calls[c := Call(p.nextEntry, Waiting)],
       nextEntry := p.nextEntry + 1)
  }

  function Join(p: Pool, c: CallId, e: EntryId, now: Time): Pool
    requires e in p.all
  {
    p.(all := p.all[e := Touch(p.all[e], now, 1)], calls := p.calls[c := Call(e, Waiting)])
  }

  /** acquire, up to its await: the cached entry or, after making room, a new one. */
  function AcquireStart(p: Pool, c: CallId, k: string, now: Time): Pool
    requires Linked(p)
  {
    match Find(p.cache, p.all, k, 0)
    case Some(i) => Join(p, c, p.cache[i], now)
    case None => Insert(EvictIdleOverCap(p), c, k, now)
  }

  /** The client of an entry connects, or fails to. */
  function Settle(p: Pool, e: EntryId, ok: bool): Pool {
    if e in p.all && p.all[e].client.Creating? then
      p.(all := p.all[e := p.all[e].(client := if ok then Ready else Failed)])
    else p
  }

  /** Where an entry is cached, if it still is. */
  function FindEntry(p: Pool, e: EntryId): (r: Option<nat>)
    requires Linked(p)
    ensures r.Some? ==> r.value < |p.cache| && p.cache[r.value] == e
    ensures r.None? ==> e !in p.cache
  {
    if e !in p.all then None
    else
      match Find(p.cache, p.all, p.all[e].key, 0)
      case Some(i) => if p.cache[i] == e then Some(i) else None
      case None => None
  }

  /** acquire, after its await: a lease, or the failure of its client, which also uncaches it. */
  function Resume(p: Pool, c: CallId): Pool
    requires Linked(p) && c in p.calls && p.calls[c].phase.Waiting?
  {
    var e := p.calls[c].entry;
    match p.all[e].client
    case Creating => p
    case Ready => p.(calls := p.calls[c := Call(e, Leased)])
    case Failed =>
      p.(all := p.all[e := p.all[e].(inUse := p.all[e].inUse - 1)], calls := p.calls[c := Call(e, Rejected)],
         cache := match FindEntry(p, e) case Some(i) => p.cache[..i] + p.cache[i + 1..] case None => p.cache)
  }

  /** release(): once per lease; later calls do nothing. */
  function Release(p: Pool, c: CallId, now: Time): Pool
    requires Linked(p) && c in p.calls
  {
    var e := p.calls[c].entry;
    if p.calls[c].phase.Leased?
    then p.(all := p.all[e := Touch(p.all[e], now, -1)], calls := p.calls[c := Call(e, Released)])
    else p
  }

  /** invalidate(): drops the lease's client if it is still the cached one. */
  function Invalidate(p: Pool, c: CallId): Pool
    requires Linked(p) && c in p.calls
  {
    match FindEntry(p, p.calls[c].entry)
    case Some(i) => Drop(p, i)
    case None => p
  }

  // ----- The invariant -----

  /** The pending calls and unreleased leases of an entry. */
  function Users(calls: map<CallId, Call>, e: EntryId): set<CallId> {
    set c | c in calls && calls[c].entry == e && (calls[c].phase.Waiting? || calls[c].phase.Leased?)
  }

  /** An entry is in use exactly by its pending calls and unreleased leases. */
  predicate UseOk(calls: map<CallId, Call>, all: map<EntryId, Entry>) {
    forall e | e in all :: all[e].inUse == |Users(calls, e)|
  }

  /** A closed client is used by nobody, and no longer cached, so nobody will. */
  predicate ClosedOk(p: Pool) {
    forall e | e in p.all && p.all[e].closed :: Users(p.calls, e) == {} && e !in p.cache
  }

  predicate Inv(p: Pool) {
    Linked(p) && UseOk(p.calls, p.all) && ClosedOk(p)
  }

  lemma DropKeeps(p: Pool, i: nat)
    requires Inv(p) && i < |p.cache|
    ensures Inv(Drop(p, i))
  {
    DropLinked(p, i);
    var p' := Drop(p, i);
    assert forall j | 0 <= j < |p'.cache| :: p'.cache[j] == if j < i then p.cache[j] else p.cache[j + 1];
    assert p.cache[i] !in p'.cache;
  }

  lemma {:induction false} EvictKeeps(p: Pool)
    requires Inv(p)
    ensures Inv(EvictIdleOverCap(p))
    ensures EvictIdleOverCap(p).calls == p.calls && EvictIdleOverCap(p).nextEntry == p.nextEntry
    decreases |p.cache|
  {
    if |p.cache| >= p.cap {
      match OldestIdle(p, |p.cache|)
      case None =>
      case Some(i) =>
        DropKeeps(p, i);
        EvictKeeps(Drop(p, i));
    }
  }

  // ----- Least recently used first -----

  /** `d` would be evicted before `e`. */
  predicate Before(all: map<EntryId, Entry>, d: EntryId, e: EntryId)
    requires d in all && e in all
  {
    all[d].lastUsed < all[e].lastUsed || (all[d].lastUsed == all[e].lastUsed && d < e)
  }

  lemma {:induction false} OldestIdleIsFirst(p: Pool, n: nat)
    requires Linked(p) && n <= |p.cache|
    ensures OldestIdle(p, n).None? ==> forall j | 0 <= j < n :: !IdleAt(p, j)
    ensures OldestIdle(p, n).Some? ==>
      forall j | 0 <= j < n && IdleAt(p, j) && j != OldestIdle(p, n).value ::
        Before(p.all, p.cache[OldestIdle(p, n).value], p.cache[j])
  {
    if n > 0 {
      OldestIdleIsFirst(p, n - 1);
    }
  }

  /** What an eviction leaves of the pool it starts from. */
  ghost predicate Evicted(p: Pool, q: Pool) {
    && (forall e | e in q.cache :: e in p.cache)
    && q.all.Keys == p.all.Keys
    && (forall e | e in p.all ::
          q.all[e].key == p.all[e].key && q.all[e].inUse == p.all[e].inUse && q.all[e].lastUsed == p.all[e].lastUsed
          && q.all[e].client == p.all[e].client)
    && (forall e | e in p.cache && e !in q.cache && e in p.all ::
          p.all[e].inUse == 0 && q.all[e].closed
          && forall d | d in q.cache && d in p.all && p.all[d].inUse == 0 :: Before(p.all, e, d))
  }

  lemma DropOnly(p: Pool, i: nat)
    requires Linked(p) && i < |p.cache|
    ensures |Drop(p, i).cache| == |p.cache| - 1 && p.cache[i] !in Drop(p, i).cache
    ensures forall e | e in p.cache :: e in Drop(p, i).cache || e == p.cache[i]
    ensures forall e | e in Drop(p, i).cache :: exists j | 0 <= j < |p.cache| :: j != i && p.cache[j] == e
  {
    var cache' := Drop(p, i).cache;
    assert forall j | 0 <= j < |cache'| :: cache'[j] == if j < i then p.cache[j] else p.cache[j + 1];
    forall e | e in p.cache ensures e in cache' || e == p.cache[i] {
      var j :| 0 <= j < |p.cache| && p.cache[j] == e;
      assert j < i ==> cache'[j] == e;
      assert j > i ==> cache'[j - 1] == e;
    }
    forall e | e in cache' ensures exists j | 0 <= j < |p.cache| :: j != i && p.cache[j] == e {
      var j :| 0 <= j < |cache'| && cache'[j] == e;
      assert p.cache[if j < i then j else j + 1] == e;
    }
  }

  lemma DropEvicts(p: Pool, i: nat)
    requires Inv(p) && OldestIdle(p, |p.cache|) == Some(i)
    ensures Evicted(p, Drop(p, i)) && |Drop(p, i).cache| == |p.cache| - 1
  {
    OldestIdleIsFirst(p, |p.cache|);
    DropOnly(p, i);
    forall d | d in Drop(p, i).cache && p.all[d].inUse == 0 ensures Before(p.all, p.cache[i], d) {
      var j :| 0 <= j < |p.cache| && j != i && p.cache[j] == d;
      assert IdleAt(p, j);
    }
  }

  lemma EvictedTransitive(p: Pool, q: Pool, r: Pool)
    requires Linked(p) && Evicted(p, q) && Evicted(q, r)
    requires forall e | e in q.all && q.all[e].closed :: r.all[e].closed
    ensures Evicted(p, r)
  {
    forall e | e in p.cache && e !in r.cache && e in p.all
      ensures p.all[e].inUse == 0 && r.all[e].closed
      ensures forall d | d in r.cache && d in p.all && p.all[d].inUse == 0 :: Before(p.all, e, d)
    {
      if e in q.cache {
        assert forall d | d in r.cache && d in q.all && q.all[d].inUse == 0 :: Before(q.all, e, d);
      } else {
        assert forall d | d in q.cache && d in p.all && p.all[d].inUse == 0 :: Before(p.all, e, d);
      }
    }
  }

  /** Eviction takes idle entries only, least recently used first, earliest created on a tie; it
      stops as soon as there is room for one more, or when every entry left is busy. */
  lemma {:induction false} EvictionIsLru(p: Pool)
    requires Inv(p)
    ensures var q := EvictIdleOverCap(p);
      && Evicted(p, q) && (forall e | e in p.all && p.all[e].closed :: q.all[e].closed)
      && (|q.cache| < p.cap || forall e | e in q.cache && e in p.all :: p.all[e].inUse != 0)
      && (q.cache == p.cache || |q.cache| >= p.cap - 1)
    decreases |p.cache|
  {
    if |p.cache| >= p.cap {
      OldestIdleIsFirst(p, |p.cache|);
      match OldestIdle(p, |p.cache|)
      case None =>
        forall e | e in p.cache ensures p.all[e].inUse != 0 {
          var j :| 0 <= j < |p.cache| && p.cache[j] == e;
          assert !IdleAt(p, j);
        }
      case Some(i) =>
        var q := Drop(p, i);
        DropKeeps(p, i);
        DropEvicts(p, i);
        EvictionIsLru(q);
        EvictedTransitive(p, q, EvictIdleOverCap(q));
    }
  }

  // ----- Every operation keeps the invariant -----

  lemma UserAdded(calls: map<CallId, Call>, c: CallId, e: EntryId, f: EntryId)
    requires c !in calls
    ensures |Users(calls[c := Call(e, Waiting)], f)| == |Users(calls, f)| + if f == e then 1 else 0
  {
    var calls' := calls[c := Call(e, Waiting)];
    if f == e {
      assert Users(calls', f) == Users(calls, f) + {c};
    } else {
      assert Users(calls', f) == Users(calls, f);
    }
  }

  lemma UserGone(calls: map<CallId, Call>, c: CallId, phase: Phase, f: EntryId)
    requires c in calls && (calls[c].phase.Waiting? || calls[c].phase.Leased?) && (phase.Released? || phase.Rejected?)
    ensures |Users(calls[c := Call(calls[c].entry, phase)], f)| == |Users(calls, f)| - if f == calls[c].entry then 1 else 0
    ensures Users(calls[c := Call(calls[c].entry, phase)], f) <= Users(calls, f)
  {
    var calls' := calls[c := Call(calls[c].entry, phase)];
    if f == calls[c].entry {
      assert Users(calls', f) == Users(calls, f) - {c};
    } else {
      assert Users(calls', f) == Users(calls, f);
    }
  }

  lemma JoinKeeps(p: Pool, c: CallId, i: nat, now: Time)
    requires Inv(p) && c !in p.calls && i < |p.cache|
    ensures Inv(Join(p, c, p.cache[i], now))
  {
    var e, q := p.cache[i], Join(p, c, p.cache[i], now);
    forall f | f in q.all ensures q.all[f].inUse == |Users(q.calls, f)| {
      UserAdded(p.calls, c, e, f);
    }
    forall f | f in q.all && q.all[f].closed ensures Users(q.calls, f) == {} {
      UserAdded(p.calls, c, e, f);
      assert f != e;
    }
  }

  lemma InsertKeeps(p: Pool, c: CallId, k: string, now: Time)
    requires Inv(p) && c !in p.calls && forall e | e in p.cache :: p.all[e].key != k
    ensures Inv(Insert(p, c, k, now))
  {
    var e, q := p.nextEntry, Insert(p, c, k, now);
    assert Users(p.calls, e) == {};
    forall f | f in q.all ensures q.all[f].inUse == |Users(q.calls, f)| {
      UserAdded(p.calls, c, e, f);
    }
    forall f | f in q.all && q.all[f].closed ensures Users(q.calls, f) == {} && f !in q.cache {
      UserAdded(p.calls, c, e, f);
      assert f != e;
    }
    forall i, j | 0 <= i < j < |q.cache| ensures q.cache[i] < q.cache[j] && q.all[q.cache[i]].key != q.all[q.cache[j]].key {
      assert q.cache[i] == p.cache[i] && p.cache[i] in p.cache;
    }
  }

  lemma AcquireKeeps(p: Pool, c: CallId, k: string, now: Time)
    requires Inv(p) && c !in p.calls
    ensures Inv(AcquireStart(p, c, k, now))
  {
    match Find(p.cache, p.all, k, 0)
    case Some(i) => JoinKeeps(p, c, i, now);
    case None =>
      EvictKeeps(p);
      EvictionIsLru(p);
      var q := EvictIdleOverCap(p);
      forall e | e in q.cache ensures q.all[e].key != k {
        var j :| 0 <= j < |p.cache| && p.cache[j] == e;
        assert p.all[e].key != k;
      }
      InsertKeeps(q, c, k, now);
  }

  lemma SettleKeeps(p: Pool, e: EntryId, ok: bool)
    requires Inv(p)
    ensures Inv(Settle(p, e, ok))
  {
  }

  lemma SettleUsers(calls: map<CallId, Call>, c: CallId, f: EntryId)
    requires c in calls && calls[c].phase.Waiting?
    ensures Users(calls[c := Call(calls[c].entry, Leased)], f) == Users(calls, f)
  {
  }

  lemma UncacheLinked(p: Pool, i: nat, all: map<EntryId, Entry>, calls: map<CallId, Call>)
    requires Linked(p) && i < |p.cache| && CallsOk(calls, all) && all.Keys == p.all.Keys
    requires forall e | e in all :: all[e].key == p.all[e].key
    ensures Linked(p.(cache := p.cache[..i] + p.cache[i + 1..], all := all, calls := calls))
    ensures forall e | e in p.cache[..i] + p.cache[i + 1..] :: e in p.cache
  {
    var cache' := p.cache[..i] + p.cache[i + 1..];
    assert forall j | 0 <= j < |cache'| :: cache'[j] == if j < i then p.cache[j] else p.cache[j + 1];
  }

  lemma RejectKeeps(p: Pool, c: CallId)
    requires Inv(p) && c in p.calls && p.calls[c].phase.Waiting? && p.all[p.calls[c].entry].client.Failed?
    ensures Inv(Resume(p, c))
  {
    var e, q := p.calls[c].entry, Resume(p, c);
    forall f ensures |Users(q.calls, f)| == |Users(p.calls, f)| - (if f == e then 1 else 0)
                  && Users(q.calls, f) <= Users(p.calls, f) {
      UserGone(p.calls, c, Rejected, f);
    }
    match FindEntry(p, e)
    case None =>
    case Some(i) => UncacheLinked(p, i, q.all, q.calls);
  }

  lemma ResumeKeeps(p: Pool, c: CallId)
    requires Inv(p) && c in p.calls && p.calls[c].phase.Waiting?
    ensures Inv(Resume(p, c))
  {
    match p.all[p.calls[c].entry].client
    case Creating =>
    case Ready =>
      forall f ensures Users(Resume(p, c).calls, f) == Users(p.calls, f) {
        SettleUsers(p.calls, c, f);
      }
    case Failed => RejectKeeps(p, c);
  }

  lemma ReleaseKeeps(p: Pool, c: CallId, now: Time)
    requires Inv(p) && c in p.calls
    ensures Inv(Release(p, c, now))
  {
    if p.calls[c].phase.Leased? {
      var q := Release(p, c, now);
      forall f ensures |Users(q.calls, f)| == |Users(p.calls, f)| - (if f == p.calls[c].entry then 1 else 0)
                    && Users(q.calls, f) <= Users(p.calls, f) {
        UserGone(p.calls, c, Released, f);
      }
    }
  }

  lemma InvalidateKeeps(p: Pool, c: CallId)
    requires Inv(p) && c in p.calls
    ensures Inv(Invalidate(p, c))
  {
    match FindEntry(p, p.calls[c].entry)
    case Some(i) => DropKeeps(p, i);
    case None =>
  }

  // ----- Interleavings -----

  datatype Step =
    | Acquires(c: CallId, key: string, now: Time)
    | Settles(e: EntryId, ok: bool)
    | Resumes(c: CallId)
    | Releases(c: CallId, now: Time)
    | Invalidates(c: CallId)

  predicate Enabled(p: Pool, s: Step) {
    match s
    case Acquires(c, _, _) => c !in p.calls
    case Settles(_, _) => true
    case Resumes(c) => c in p.calls && p.calls[c].phase.Waiting?
    case Releases(c, _) => c in p.calls && (p.calls[c].phase.Leased? || p.calls[c].phase.Released?)
    case Invalidates(c) => c in p.calls && (p.calls[c].phase.Leased? || p.calls[c].phase.Released?)
  }

  function Apply(p: Pool, s: Step): Pool
    requires Linked(p) && Enabled(p, s)
  {
    match s
    case Acquires(c, key, now) => AcquireStart(p, c, key, now)
    case Settles(e, ok) => Settle(p, e, ok)
    case Resumes(c) => Resume(p, c)
    case Releases(c, now) => Release(p, c, now)
    case Invalidates(c) => Invalidate(p, c)
  }

  lemma StepKeeps(p: Pool, s: Step)
    requires Inv(p) && Enabled(p, s)
    ensures Inv(Apply(p, s))
  {
    match s
    case Acquires(c, key, now) => AcquireKeeps(p, c, key, now);
    case Settles(e, ok) => SettleKeeps(p, e, ok);
    case Resumes(c) => ResumeKeeps(p, c);
    case Releases(c, now) => ReleaseKeeps(p, c, now);
    case Invalidates(c) => InvalidateKeeps(p, c);
  }

  ghost predicate IsRun(ps: seq<Pool>, steps: seq<Step>) {
    |ps| == |steps| + 1
    && forall k | 0 <= k < |steps| :: Linked(ps[k]) && Enabled(ps[k], steps[k]) && ps[k + 1] == Apply(ps[k], steps[k])
  }

  function Empty(cap: int): Pool {
    Pool(cap, [], map[], map[], 0)
  }

  lemma RunKeeps(ps: seq<Pool>, steps: seq<Step>, n: nat)
    requires IsRun(ps, steps) && ps[0] == Empty(ps[0].cap) && n <= |steps|
    ensures Inv(ps[n])
  {
    forall k: nat | k + 1 < |ps| && Inv(ps[k]) ensures Inv(ps[k + 1]) {
      StepKeeps(ps[k], steps[k]);
    }
    Along(ps, p => Inv(p), (p: Pool, q: Pool) => true, n, n);
  }

  /** In every interleaving of acquires, releases, invalidations, evictions and failed client
      creations, a client with an outstanding lease is connected and was not closed. */
  lemma LeasedIsNeverClosed(ps: seq<Pool>, steps: seq<Step>, n: nat, c: CallId)
    requires IsRun(ps, steps) && ps[0] == Empty(ps[0].cap) && n <= |steps|
    requires c in ps[n].calls && ps[n].calls[c].phase.Leased?
    ensures ps[n].calls[c].entry in ps[n].all
    ensures ps[n].all[ps[n].calls[c].entry].client.Ready? && !ps[n].all[ps[n].calls[c].entry].closed
  {
    RunKeeps(ps, steps, n);
    assert c in Users(ps[n].calls, ps[n].calls[c].entry);
  }

  /** inUse counts exactly the pending calls and unreleased leases of the entry. */
  lemma InUseCounts(ps: seq<Pool>, steps: seq<Step>, n: nat, e: EntryId)
    requires IsRun(ps, steps) && ps[0] == Empty(ps[0].cap) && n <= |steps| && e in ps[n].all
    ensures ps[n].all[e].inUse == |Users(ps[n].calls, e)|
  {
    RunKeeps(ps, steps, n);
  }

  /** An acquire that finds nothing cached leaves the pool within its cap, or every other entry busy. */
  lemma AcquireStaysInCap(p: Pool, c: CallId, k: string, now: Time)
    requires Inv(p) && c !in p.calls && Find(p.cache, p.all, k, 0).None?
    ensures var q := AcquireStart(p, c, k, now);
      && |q.cache| > 0 && q.cache[|q.cache| - 1] == p.nextEntry
      && (|q.cache| <= p.cap || forall i | 0 <= i < |q.cache| - 1 :: q.cache[i] in p.all && p.all[q.cache[i]].inUse != 0)
  {
    EvictionIsLru(p);
    EvictKeeps(p);
    var r, q := EvictIdleOverCap(p), AcquireStart(p, c, k, now);
    assert q.cache == r.cache + [p.nextEntry];
    forall i | 0 <= i < |q.cache| - 1 ensures q.cache[i] in r.cache && q.cache[i] in p.cache {
      assert q.cache[i] == r.cache[i];
    }
  }

  // ----- Sharing -----

  /** Calls that wait for or hold one entry asked for one key. */
  ghost predicate KeysFollow(p: Pool, asked: map<CallId, string>) {
    forall c | c in p.calls :: c in asked && p.calls[c].entry in p.all && p.all[p.calls[c].entry].key == asked[c]
  }

  function Asked(asked: map<CallId, string>, s: Step): map<CallId, string> {
    if s.Acquires? then asked[s.c := s.key] else asked
  }

  /** Entries keep their keys, and calls their entries. */
  predicate KeepsKeys(p: Pool, q: Pool) {
    && (forall e | e in p.all :: e in q.all && q.all[e].key == p.all[e].key)
    && q.calls.Keys == p.calls.Keys && (forall c | c in p.calls :: q.calls[c].entry == p.calls[c].entry)
  }

  lemma KeptKeysFollow(p: Pool, q: Pool, asked: map<CallId, string>)
    requires KeysFollow(p, asked) && KeepsKeys(p, q)
    ensures KeysFollow(q, asked)
  {
  }

  lemma ResumeKeepsKeys(p: Pool, c: CallId)
    requires Linked(p) && c in p.calls && p.calls[c].phase.Waiting?
    ensures KeepsKeys(p, Resume(p, c))
  {
    match p.all[p.calls[c].entry].client
    case Creating =>
    case Ready =>
    case Failed =>
  }

  lemma DropKeepsKeys(p: Pool, i: nat)
    requires Linked(p) && i < |p.cache|
    ensures KeepsKeys(p, Drop(p, i))
  {
  }

  lemma AcquireFollows(p: Pool, c: CallId, k: string, now: Time, asked: map<CallId, string>)
    requires Inv(p) && c !in p.calls && KeysFollow(p, asked)
    ensures KeysFollow(AcquireStart(p, c, k, now), asked[c := k])
  {
    match Find(p.cache, p.all, k, 0)
    case Some(i) =>
    case None =>
      EvictionIsLru(p);
      EvictKeeps(p);
      InsertFollows(EvictIdleOverCap(p), c, k, now, asked);
  }

  lemma InsertFollows(p: Pool, c: CallId, k: string, now: Time, asked: map<CallId, string>)
    requires Linked(p) && c !in p.calls && KeysFollow(p, asked)
    ensures KeysFollow(Insert(p, c, k, now), asked[c := k])
  {
  }

  lemma StepFollows(p: Pool, s: Step, asked: map<CallId, string>)
    requires Inv(p) && Enabled(p, s) && KeysFollow(p, asked)
    ensures KeysFollow(Apply(p, s), Asked(asked, s))
  {
    match s
    case Acquires(c, key, now) => AcquireFollows(p, c, key, now, asked);
    case Settles(_, _) => KeptKeysFollow(p, Apply(p, s), asked);
    case Resumes(c) =>
      ResumeKeepsKeys(p, c);
      KeptKeysFollow(p, Resume(p, c), asked);
    case Releases(_, _) => KeptKeysFollow(p, Apply(p, s), asked);
    case Invalidates(c) =>
      if FindEntry(p, p.calls[c].entry).Some? {
        DropKeepsKeys(p, FindEntry(p, p.calls[c].entry).value);
        KeptKeysFollow(p, Invalidate(p, c), asked);
      }
  }

  function AskedBefore(steps: seq<Step>, n: nat): map<CallId, string>
    requires n <= |steps|
  {
    if n == 0 then map[] else Asked(AskedBefore(steps, n - 1), steps[n - 1])
  }

  lemma {:induction false} RunFollows(ps: seq<Pool>, steps: seq<Step>, n: nat)
    requires IsRun(ps, steps) && ps[0] == Empty(ps[0].cap) && n <= |steps|
    ensures KeysFollow(ps[n], AskedBefore(steps, n))
  {
    if n > 0 {
      RunFollows(ps, steps, n - 1);
      RunKeeps(ps, steps, n - 1);
      StepFollows(ps[n - 1], steps[n - 1], AskedBefore(steps, n - 1));
    }
  }

  /** Two calls that ever share a client asked with the same key; for names without separators that
      is the same tenant: the same schema on the same instance, or both on the shared cluster. */
  lemma SharedClientSameTenant(ps: seq<Pool>, steps: seq<Step>, n: nat, c: CallId, d: CallId, t: Tenant, u: Tenant)
    requires IsRun(ps, steps) && ps[0] == Empty(ps[0].cap) && n <= |steps|
    requires c in ps[n].calls && d in ps[n].calls && ps[n].calls[c].entry == ps[n].calls[d].entry
    requires c in AskedBefore(steps, n) && AskedBefore(steps, n)[c] == Key(t)
    requires d in AskedBefore(steps, n) && AskedBefore(steps, n)[d] == Key(u)
    ensures Key(t) == Key(u) && (WellNamed(t) && WellNamed(u) ==> t == u)
  {
    RunFollows(ps, steps, n);
    if WellNamed(t) && WellNamed(u) {
      KeyInjective(t, u);
    }
  }

  // ----- What "used" means -----

  /** The step starts or ends a use of the entry: an acquire that got it, or the first release of
      a lease on it. */
  predicate Uses(p: Pool, s: Step, q: Pool, e: EntryId) {
    match s
    case Acquires(c, _, _) => c in q.calls && q.calls[c].entry == e
    case Releases(c, _) => c in p.calls && p.calls[c].phase.Leased? && p.calls[c].entry == e
    case _ => false
  }

  function TimeOf(s: Step): Time {
    match s
    case Acquires(_, _, now) => now
    case Releases(_, now) => now
    case _ => 0
  }

  lemma AcquireUses(p: Pool, c: CallId, k: string, now: Time, e: EntryId)
    requires Inv(p) && c !in p.calls && e in AcquireStart(p, c, k, now).all
    ensures var q := AcquireStart(p, c, k, now);
      c in q.calls && if q.calls[c].entry == e then q.all[e].lastUsed == now
                      else e in p.all && q.all[e].lastUsed == p.all[e].lastUsed
  {
    match Find(p.cache, p.all, k, 0)
    case Some(_) =>
    case None =>
      EvictionIsLru(p);
      EvictKeeps(p);
  }

  lemma ResumeUses(p: Pool, c: CallId, e: EntryId)
    requires Linked(p) && c in p.calls && p.calls[c].phase.Waiting? && e in Resume(p, c).all
    ensures e in p.all && Resume(p, c).all[e].lastUsed == p.all[e].lastUsed
  {
    match p.all[p.calls[c].entry].client
    case Creating =>
    case Ready =>
    case Failed =>
  }

  lemma StepUses(p: Pool, s: Step, e: EntryId)
    requires Inv(p) && Enabled(p, s) && e in Apply(p, s).all
    ensures if Uses(p, s, Apply(p, s), e) then Apply(p, s).all[e].lastUsed == TimeOf(s)
            else e in p.all && Apply(p, s).all[e].lastUsed == p.all[e].lastUsed
  {
    match s
    case Acquires(c, key, now) => AcquireUses(p, c, key, now, e);
    case Settles(_, _) =>
    case Resumes(c) => ResumeUses(p, c, e);
    case Releases(_, _) =>
    case Invalidates(_) =>
  }

  /** What step `k` of a run does to the entry's time. */
  ghost predicate StampFollows(ps: seq<Pool>, steps: seq<Step>, k: nat, e: EntryId)
    requires k < |steps| && |ps| == |steps| + 1 && e in ps[k + 1].all
  {
    if Uses(ps[k], steps[k], ps[k + 1], e) then ps[k + 1].all[e].lastUsed == TimeOf(steps[k])
    else e in ps[k].all && ps[k + 1].all[e].lastUsed == ps[k].all[e].lastUsed
  }

  lemma RunUses(ps: seq<Pool>, steps: seq<Step>, k: nat, e: EntryId)
    requires IsRun(ps, steps) && ps[0] == Empty(ps[0].cap) && k < |steps| && e in ps[k + 1].all
    ensures StampFollows(ps, steps, k, e)
  {
    RunKeeps(ps, steps, k);
    StepUses(ps[k], steps[k], e);
  }

  lemma {:induction false} LastStamp(ps: seq<Pool>, steps: seq<Step>, n: nat, e: EntryId) returns (k: nat)
    requires |ps| == |steps| + 1 && n <= |steps| && e !in ps[0].all && e in ps[n].all
    requires forall j: nat | j < n && e in ps[j + 1].all :: StampFollows(ps, steps, j, e)
    ensures k < n && Uses(ps[k], steps[k], ps[k + 1], e) && ps[n].all[e].lastUsed == TimeOf(steps[k])
    ensures forall j | k < j < n :: !Uses(ps[j], steps[j], ps[j + 1], e)
  {
    assert StampFollows(ps, steps, n - 1, e);
    if Uses(ps[n - 1], steps[n - 1], ps[n], e) {
      k := n - 1;
    } else {
      k := LastStamp(ps, steps, n - 1, e);
    }
  }

  /** The recency that eviction goes by is the time of the entry's last acquire or release. */
  lemma LastUsedIsLastUse(ps: seq<Pool>, steps: seq<Step>, n: nat, e: EntryId) returns (k: nat)
    requires IsRun(ps, steps) && ps[0] == Empty(ps[0].cap) && n <= |steps| && e in ps[n].all
    ensures k < n && Uses(ps[k], steps[k], ps[k + 1], e) && ps[n].all[e].lastUsed == TimeOf(steps[k])
    ensures forall j | k < j < n :: !Uses(ps[j], steps[j], ps[j + 1], e)
  {
    forall j: nat | j < n && e in ps[j + 1].all ensures StampFollows(ps, steps, j, e) {
      RunUses(ps, steps, j, e);
    }
    k := LastStamp(ps, steps, n, e);
  }

  // ----- The pool as the source keeps it -----

  class TenantDBPool {
    const cap: int
    var cache: seq<EntryId>
    var all: map<EntryId, Entry>
    var calls: map<CallId, Call>
    var nextEntry: EntryId

    function Now(): Pool
      reads this
    {
      Pool(cap, cache, all, calls, nextEntry)
    }

    constructor (cap: int)
      ensures Now() == Empty(cap)
    {
      this.cap := cap;
      cache, all, calls, nextEntry := [], map[], map[], 0;
    }

    method DropAt(i: nat)
      requires Linked(Now()) && i < |cache|
      modifies this`cache, this`all
      ensures Now() == Drop(old(Now()), i) && Linked(Now())
    {
      DropLinked(Now(), i);
      var e := cache[i];
      cache := cache[..i] + cache[i + 1..];
      if all[e].inUse == 0 {
        all := all[e := all[e].(closed := true)];
      }
    }

    method FindOldestIdle() returns (oldest: Option<nat>)
      requires Linked(Now())
      ensures oldest == OldestIdle(Now(), |cache|)
    {
      oldest := None;
      for i := 0 to |cache|
        invariant oldest == OldestIdle(Now(), i)
      {
        var v := all[cache[i]];
        if v.inUse == 0 && (oldest.None? || v.lastUsed < all[cache[oldest.value]].lastUsed) {
          oldest := Some(i);
        }
      }
    }

    /** Drops the oldest idle entry while the pool is at or over its cap. */
    method EvictIdle()
      requires Linked(Now())
      modifies this`cache, this`all
      ensures Now() == EvictIdleOverCap(old(Now())) && Linked(Now())
    {
      while |cache| >= cap
        invariant Linked(Now())
        invariant EvictIdleOverCap(Now()) == EvictIdleOverCap(old(Now()))
        decreases |cache|
      {
        var oldest := FindOldestIdle();
        if oldest.None? { return; }
        DropAt(oldest.value);
      }
    }

    method Acquire(c: CallId, k: string, now: Time)
      requires Linked(Now()) && c !in calls
      modifies this
      ensures Now() == AcquireStart(old(Now()), c, k, now)
    {
      var at := Find(cache, all, k, 0);
      if at.Some? {
        var e := cache[at.value];
        all := all[e := Touch(all[e], now, 1)];
        calls := calls[c := Call(e, Waiting)];
      } else {
        EvictIdle();
        cache := cache + [nextEntry];
        all := all[nextEntry := Entry(k, now, 1, Creating, false)];
        calls := calls[c := Call(nextEntry, Waiting)];
        nextEntry := nextEntry + 1;
      }
    }

    /** The rest of acquire once the client's promise is settled. */
    method ResumeCall(c: CallId) returns (leased: bool)
      requires Linked(Now()) && c in calls && calls[c].phase.Waiting? && !all[calls[c].entry].client.Creating?
      modifies this`cache, this`all, this`calls
      ensures Now() == Resume(old(Now()), c)
      ensures leased <==> c in calls && calls[c].phase.Leased?
    {
      var e := calls[c].entry;
      if all[e].client.Ready? {
        calls := calls[c := Call(e, Leased)];
        return true;
      }
      var at := FindEntry(Now(), e);
      all := all[e := all[e].(inUse := all[e].inUse - 1)];
      calls := calls[c := Call(e, Rejected)];
      if at.Some? {
        cache := cache[..at.value] + cache[at.value + 1..];
      }
      return false;
    }

    method ReleaseLease(c: CallId, now: Time)
      requires Linked(Now()) && c in calls
      modifies this`all, this`calls
      ensures Now() == Release(old(Now()), c, now)
    {
      if !calls[c].phase.Leased? { return; }
      var e := calls[c].entry;
      calls := calls[c := Call(e, Released)];
      all := all[e := Touch(all[e], now, -1)];
    }

    method InvalidateLease(c: CallId)
      requires Linked(Now()) && c in calls
      modifies this`cache, this`all
      ensures Now() == Invalidate(old(Now()), c)
    {
      var at := FindEntry(Now(), calls[c].entry);
      if at.Some? {
        DropAt(at.value);
      }
    }
  }
}
