/** Single use of passkey challenges: signed login tokens with a "used" marker row, and stored
    challenges that are consumed by deleting them. */
module Passkeys {
  import opened Prelude
  import opened Runs

  type Time = int       // nanoseconds
  type Id = int         // random ids: every new one is fresh
  type RequestId = int

  const SECOND: Time := 1_000_000_000
  const CHALLENGE_TTL: Time := 300 * SECOND
  const SWEEP_AFTER: Time := 60 * SECOND

  /** Unix seconds. */
  function Seconds(t: Time): int {
    t / SECOND
  }

  // ----- Login tokens -----

  /** A token whose signature is good; `exp` is in seconds. */
  datatype Token = Token(id: Id, exp: int)

  function Sign(id: Id, now: Time): Token {
    Token(id, Seconds(now + CHALLENGE_TTL))
  }

  predicate Accepts(token: Token, now: Time) {
    Seconds(now) <= token.exp
  }

  /** When the marker row of a used token says it expires. */
  function MarkerExpiry(token: Token): Time {
    token.exp * SECOND
  }

  /** A token is accepted for the whole five minutes, and for less than a second more. */
  lemma AcceptanceWindow(id: Id, signed: Time, now: Time)
    ensures now <= signed + CHALLENGE_TTL ==> Accepts(Sign(id, signed), now)
    ensures now >= signed + CHALLENGE_TTL + SECOND ==> !Accepts(Sign(id, signed), now)
  {
  }

  // ----- The challenge table -----

  datatype Purpose = Register | Login | StepUp

  datatype Row = Row(purpose: Purpose, expires: Time)

  /** DELETE ... WHERE expires_at < now() - interval '1 minute' */
  function Swept(rows: map<Id, Row>, now: Time): map<Id, Row> {
    map i | i in rows && !(rows[i].expires < now - SWEEP_AFTER) :: rows[i]
  }

  class ChallengeStore {
    var rows: map<Id, Row>

    constructor ()
      ensures rows == map[]
    {
      rows := map[];
    }

    method SaveChallenge(id: Id, purpose: Purpose, now: Time)
      requires id !in rows
      modifies this
      ensures rows == Swept(old(rows), now)[id := Row(purpose, now + CHALLENGE_TTL)]
      ensures id in rows && rows[id] == Row(purpose, now + 300 * 1_000_000_000)
      ensures forall i | i in old(rows) ::
                if old(rows)[i].expires < now - 60 * 1_000_000_000 then i !in rows else i in rows && rows[i] == old(rows)[i]
    {
      rows := Swept(rows, now);
      rows := rows[id := Row(purpose, now + CHALLENGE_TTL)];
    }

    /** INSERT ... ON CONFLICT DO NOTHING: fresh exactly for the first. */
    method MarkChallengeUsed(token: Token) returns (first: bool)
      modifies this
      ensures first <==> token.id !in old(rows)
      ensures rows == if first then old(rows)[token.id := Row(Login, MarkerExpiry(token))] else old(rows)
    {
      first := token.id !in rows;
      if first {
        rows := rows[token.id := Row(Login, MarkerExpiry(token))];
      }
    }

    method ConsumeChallenge(id: Id, purpose: Purpose, now: Time) returns (ok: bool)
      modifies this
      ensures ok <==> id in old(rows) && old(rows)[id].purpose == purpose && old(rows)[id].expires > now
      ensures rows == if ok then old(rows) - {id} else old(rows)
    {
      ok := id in rows && rows[id].purpose == purpose && rows[id].expires > now;
      if ok {
        rows := rows - {id};
      }
    }
  }

  // ----- Interleavings -----

  /** A login request between checking its token and marking it used. */
  datatype Request = Request(token: Token, verifiedAt: Time)

  datatype Use = Use(id: Id, purpose: Purpose, at: Time)

  datatype State = State(
    now: Time,
    issued: map<Id, Token>,
    saved: map<Id, Row>,             // every stored challenge ever saved
    rows: map<Id, Row>,
    requests: map<RequestId, Request>,
    sessions: seq<Id>,               // the tokens sessions were minted for
    consumed: seq<Use>)

  datatype Step =
    | Tick(duration: nat)
    | Issue(id: Id)
    | Verify(request: RequestId, id: Id)
    | Mark(request: RequestId)
    | GiveUp(request: RequestId)
    | Save(id: Id, purpose: Purpose)
    | Consume(id: Id, purpose: Purpose)

  /** Every login request that marks its token does so within `delay` of checking it. */
  predicate Enabled(delay: Time, s: State, step: Step) {
    match step
    case Tick(_) => true
    case Issue(id) => id !in s.issued && id !in s.saved
    case Verify(r, id) => r !in s.requests && id in s.issued && Accepts(s.issued[id], s.now)
    case Mark(r) => r in s.requests && s.now - s.requests[r].verifiedAt <= delay
    case GiveUp(r) => r in s.requests
    case Save(id, purpose) => id !in s.issued && id !in s.saved && id !in s.rows && purpose != Login
    case Consume(_, purpose) => purpose != Login
  }

  function Apply(delay: Time, s: State, step: Step): State
    requires Enabled(delay, s, step)
  {
    match step
    case Tick(duration) => s.(now := s.now + duration)
    case Issue(id) => s.(issued := s.issued[id := Sign(id, s.now)])
    case Verify(r, id) => s.(requests := s.requests[r := Request(s.issued[id], s.now)])
    case Mark(r) =>
      var token := s.requests[r].token;
      var s1 := s.(requests := s.requests - {r});
      if token.id in s.rows then s1
      else s1.(rows := s.rows[token.id := Row(Login, MarkerExpiry(token))], sessions := s.sessions + [token.id])
    case GiveUp(r) => s.(requests := s.requests - {r})
    case Save(id, purpose) =>
      var row := Row(purpose, s.now + CHALLENGE_TTL);
      s.(rows := Swept(s.rows, s.now)[id := row], saved := s.saved[id := row])
    case Consume(id, purpose) =>
      if id in s.rows && s.rows[id].purpose == purpose && s.rows[id].expires > s.now
      then s.(rows := s.rows - {id}, consumed := s.consumed + [Use(id, purpose, s.now)])
      else s
  }

  // ----- Login tokens are used once -----

  predicate Distinct(ids: seq<Id>) {
    forall i, j | 0 <= i < j < |ids| :: ids[i] != ids[j]
  }

  /** A used token's marker is there, or was swept, which is only after the token's end. */
  predicate Marked(s: State, id: Id)
    requires id in s.issued
  {
    || (id in s.rows && s.rows[id] == Row(Login, MarkerExpiry(s.issued[id])))
    || (id !in s.rows && MarkerExpiry(s.issued[id]) < s.now - SWEEP_AFTER)
  }

  predicate IdsOk(s: State) {
    && (forall i | i in s.issued :: s.issued[i].id == i && i !in s.saved)
    && (forall i | i in s.rows :: i in s.saved || i in s.sessions)
    && (forall i | i in s.rows && i in s.saved :: s.rows[i] == s.saved[i] && s.saved[i].purpose != Login)
    && (forall r | r in s.requests ::
          var q := s.requests[r];
          q.token.id in s.issued && s.issued[q.token.id] == q.token && q.verifiedAt <= s.now && Accepts(q.token, q.verifiedAt))
  }

  predicate LoginOk(s: State) {
    Distinct(s.sessions) && forall i | i in s.sessions :: i in s.issued && Marked(s, i)
  }

  predicate Inv(s: State) {
    IdsOk(s) && LoginOk(s)
  }

  /** The longest a login request may take from checking its token to marking it. */
  const SAFE_DELAY: Time := 59 * SECOND + 1

  /** A request marks while the marker of an earlier use is still there. */
  lemma MarkerOutlives(s: State, r: RequestId)
    requires Inv(s) && r in s.requests && s.now - s.requests[r].verifiedAt <= SAFE_DELAY
    ensures s.requests[r].token.id in s.sessions ==> s.requests[r].token.id in s.rows
  {
    var q := s.requests[r];
    if q.token.id in s.sessions {
      assert Marked(s, q.token.id);
      assert q.verifiedAt < MarkerExpiry(q.token) + SECOND;
    }
  }

  lemma StepKeeps(delay: Time, s: State, step: Step)
    requires delay <= SAFE_DELAY && Inv(s) && Enabled(delay, s, step)
    ensures Inv(Apply(delay, s, step))
  {
    match step
    case Mark(r) => MarkerOutlives(s, r);
    case _ =>
  }

  ghost predicate IsRun(delay: Time, ss: seq<State>, steps: seq<Step>) {
    |ss| == |steps| + 1
    && forall k | 0 <= k < |steps| :: Enabled(delay, ss[k], steps[k]) && ss[k + 1] == Apply(delay, ss[k], steps[k])
  }

  predicate Start(s: State) {
    s == State(s.now, map[], map[], map[], map[], [], [])
  }

  /** If every request that marks does so within 59 seconds (and one nanosecond) of its check, a
      login token yields at most one session, whatever is swept, saved and replayed in between. */
  lemma LoginTokenUsedOnce(delay: Time, ss: seq<State>, steps: seq<Step>, n: nat)
    requires delay <= SAFE_DELAY && IsRun(delay, ss, steps) && Start(ss[0]) && n <= |steps|
    ensures Distinct(ss[n].sessions)
    ensures forall i | i in ss[n].sessions :: i in ss[n].issued
  {
    forall k: nat | k + 1 < |ss| && Inv(ss[k]) ensures Inv(ss[k + 1]) {
      StepKeeps(delay, ss[k], steps[k]);
    }
    Along(ss, s => Inv(s), (s: State, s': State) => true, n, n);
  }

  ghost predicate Leads(delay: Time, s: State, step: Step, s': State) {
    Enabled(delay, s, step) && s' == Apply(delay, s, step)
  }

  /** A state in which token 7, issued at time 0, was used at once. */
  predicate JustUsed(s: State) {
    && s.now == 0 && s.issued == map[7 := Token(7, 300)] && s.saved == map[] && s.requests == map[]
    && s.rows == map[7 := Row(Login, 300 * SECOND)] && s.sessions == [7]
  }

  lemma UsedAtOnce(delay: Time) returns (s0: State, s1: State, s2: State, s3: State)
    requires delay > SAFE_DELAY
    ensures Start(s0) && Leads(delay, s0, Issue(7), s1) && Leads(delay, s1, Verify(1, 7), s2) && Leads(delay, s2, Mark(1), s3)
    ensures JustUsed(s3)
  {
    s0 := State(0, map[], map[], map[], map[], [], []);
    s1 := Apply(delay, s0, Issue(7));
    s2 := Apply(delay, s1, Verify(1, 7));
    s3 := Apply(delay, s2, Mark(1));
  }

  /** Checked in the last moment of its life, marked just after a sweep. */
  lemma UsedAgain(delay: Time, s3: State) returns (s4: State, s5: State, s6: State, s7: State, s8: State)
    requires delay > SAFE_DELAY && JustUsed(s3)
    ensures Leads(delay, s3, Tick(301 * SECOND - 1), s4) && Leads(delay, s4, Verify(2, 7), s5)
    ensures Leads(delay, s5, Tick(SAFE_DELAY + 1), s6) && Leads(delay, s6, Save(8, StepUp), s7)
    ensures Leads(delay, s7, Mark(2), s8) && s8.sessions == [7, 7]
  {
    s4 := Apply(delay, s3, Tick(301 * SECOND - 1));
    s5 := Apply(delay, s4, Verify(2, 7));
    s6 := Apply(delay, s5, Tick(SAFE_DELAY + 1));
    s7 := Apply(delay, s6, Save(8, StepUp));
    assert 7 !in s7.rows;
    s8 := Apply(delay, s7, Mark(2));
  }

  /** The bound is exact: with any longer delay one token can yield two sessions. */
  lemma SlowRequestReplays(delay: Time) returns (ss: seq<State>, steps: seq<Step>)
    requires delay > SAFE_DELAY
    ensures IsRun(delay, ss, steps) && Start(ss[0]) && ss[|steps|].sessions == [7, 7]
  {
    var s0, s1, s2, s3 := UsedAtOnce(delay);
    var s4, s5, s6, s7, s8 := UsedAgain(delay, s3);
    steps := [Issue(7), Verify(1, 7), Mark(1), Tick(301 * SECOND - 1), Verify(2, 7), Tick(SAFE_DELAY + 1), Save(8, StepUp), Mark(2)];
    ss := [s0, s1, s2, s3, s4, s5, s6, s7, s8];
    assert forall k | 0 <= k < |steps| :: Leads(delay, ss[k], steps[k], ss[k + 1]);
  }

  // ----- Stored challenges are consumed once -----

  /** A consumed challenge was saved for that purpose, was used before it expired, and is gone. */
  predicate ConsumedOk(s: State) {
    && (forall k | 0 <= k < |s.consumed| ::
          var u := s.consumed[k];
          u.id in s.saved && u.id !in s.rows && s.saved[u.id].purpose == u.purpose && u.at < s.saved[u.id].expires)
    && (forall j, k | 0 <= j < k < |s.consumed| :: s.consumed[j].id != s.consumed[k].id)
  }

  /** Marker rows are for logins, so nothing else consumes them. Unlike LoginOk this needs no bound on delays: only that ids are not reused. */
  predicate StoreOk(s: State) {
    && IdsOk(s) && ConsumedOk(s)
    && (forall i | i in s.sessions :: i in s.issued)
    && (forall i | i in s.rows && i !in s.saved :: s.rows[i].purpose == Login)
  }

  lemma StepKeepsStore(delay: Time, s: State, step: Step)
    requires StoreOk(s) && Enabled(delay, s, step)
    ensures StoreOk(Apply(delay, s, step))
  {
    var s' := Apply(delay, s, step);
    match step
    case Consume(id, purpose) =>
      assert forall k | 0 <= k < |s.consumed| :: s'.consumed[k] == s.consumed[k];
      assert id in s.rows ==> forall k | 0 <= k < |s.consumed| :: s.consumed[k].id != id;
      assert id in s.rows && s.rows[id].purpose == purpose ==> id in s.saved;
    case Mark(_) => assert s'.consumed == s.consumed && s'.saved == s.saved;
    case _ =>
  }

  /** In every run, however slow its requests: a stored challenge is consumed at most once, for
      the purpose it was saved for, and before it expires. */
  lemma StoredChallengeUsedOnce(delay: Time, ss: seq<State>, steps: seq<Step>, n: nat, k: nat)
    requires IsRun(delay, ss, steps) && Start(ss[0]) && n <= |steps| && k < |ss[n].consumed|
    ensures var u := ss[n].consumed[k];
      && u.id in ss[n].saved && ss[n].saved[u.id].purpose == u.purpose && u.at < ss[n].saved[u.id].expires
      && forall j | 0 <= j < |ss[n].consumed| && ss[n].consumed[j].id == u.id :: j == k
  {
    forall k: nat | k + 1 < |ss| && StoreOk(ss[k]) ensures StoreOk(ss[k + 1]) {
      StepKeepsStore(delay, ss[k], steps[k]);
    }
    Along(ss, s => StoreOk(s), (s: State, s': State) => true, n, n);
  }

  predicate WasConsumed(s: State, id: Id) {
    exists k | 0 <= k < |s.consumed| :: s.consumed[k].id == id
  }

  /** Where a saved challenge is. */
  predicate Kept(s: State) {
    forall i | i in s.saved ::
      || (i in s.rows && s.rows[i] == s.saved[i])
      || WasConsumed(s, i)
      || s.saved[i].expires < s.now - 60 * 1_000_000_000
  }

  lemma StepKeepsSaved(delay: Time, s: State, step: Step)
    requires StoreOk(s) && Kept(s) && Enabled(delay, s, step)
    ensures Kept(Apply(delay, s, step))
  {
    var s' := Apply(delay, s, step);
    assert |s.consumed| <= |s'.consumed| && forall k | 0 <= k < |s.consumed| :: s'.consumed[k] == s.consumed[k];
    forall i | i in s'.saved && i in s.saved && WasConsumed(s, i) ensures WasConsumed(s', i) {
      var k :| 0 <= k < |s.consumed| && s.consumed[k].id == i;
      assert s'.consumed[k].id == i;
    }
    if step.Consume? && |s'.consumed| > |s.consumed| {
      assert s'.consumed[|s.consumed|].id == step.id;
    }
  }

  /** In every run a saved challenge stays as it was saved until it is consumed, or a minute past its expiry. */
  lemma StoredChallengeStays(delay: Time, ss: seq<State>, steps: seq<Step>, n: nat, id: Id)
    requires IsRun(delay, ss, steps) && Start(ss[0]) && n <= |steps|
    requires id in ss[n].saved && ss[n].now <= ss[n].saved[id].expires + 60 * 1_000_000_000
    requires forall k | 0 <= k < |ss[n].consumed| :: ss[n].consumed[k].id != id
    ensures id in ss[n].rows && ss[n].rows[id] == ss[n].saved[id]
  {
    forall k: nat | k + 1 < |ss| && (StoreOk(ss[k]) && Kept(ss[k])) ensures StoreOk(ss[k + 1]) && Kept(ss[k + 1]) {
      StepKeepsStore(delay, ss[k], steps[k]);
      StepKeepsSaved(delay, ss[k], steps[k]);
    }
    Along(ss, s => StoreOk(s) && Kept(s), (s: State, s': State) => true, n, n);
  }
}
