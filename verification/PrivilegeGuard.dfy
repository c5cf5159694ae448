/** privilegeStatementError: which statements are refused in customer SQL, and why. */
module PrivilegeGuard {
  import opened Prelude
  import opened SqlTokens
  import opened StatementLaws
  import SqlGuard

  /** What the error message names. */
  datatype Denial =
    | UnicodeIdentifier
    | TransactionControl(kw: string)
    | DoBlock
    | CreateRoutine(kw: string)
    | SetTarget(command: string, target: string)
    | ForbiddenName(name: string)
    | ForbiddenKeyword(kw: string)
    | AlterDefaultPrivileges
    | RoleStatement(verb: string, noun: string)
    | DropOwned
    | OwnerTo
    | SecurityDefiner

  type Statement = seq<SqlWord>

  const TRANSACTION: set<string> :=
    {"begin", "commit", "rollback", "savepoint", "release", "end", "abort", "start", "prepare"}
  const ROUTINE: set<string> := {"function", "procedure"}
  const SETTING: set<string> := {"set", "reset"}
  const SCOPE: set<string> := {"local", "session"}
  const TARGETS: set<string> :=
    {"role", "all", "search_path", "session", "authorization", "session_authorization"}
  const NAMES: set<string> :=
    {"search_path", "set_config", "session_authorization", "pg_settings",
     "standard_conforming_strings", "backslash_quote", "escape_string_warning"}
  const KEYWORDS: set<string> := {"grant", "revoke", "reassign", "authorization"}
  const ROLE_NOUNS: set<string> := {"role", "user", "group"}
  const ROLE_VERBS: set<string> := {"create", "alter", "drop"}

  function Kw(st: Statement, i: int): string {
    if 0 <= i < |st| then st[i].kw else ""
  }

  // ----- The rules, each on its own -----

  /** st[j] is the first word after the command that is not LOCAL or SESSION. */
  ghost predicate IsSetTarget(st: Statement, j: nat) {
    1 <= j < |st| && (forall k | 1 <= k < j :: Kw(st, k) in SCOPE) && Kw(st, j) !in SCOPE
  }

  /** A rule about how the statement starts. */
  ghost predicate StartDenied(st: Statement, d: Denial) {
    match d
    case TransactionControl(k) => k == Kw(st, 0) && k in TRANSACTION
    case DoBlock => Kw(st, 0) == "do"
    case CreateRoutine(k) =>
      && Kw(st, 0) == "create" && k in ROUTINE
      && k == Kw(st, if Kw(st, 1) == "or" && Kw(st, 2) == "replace" then 3 else 1)
    case SetTarget(c, t) =>
      && c == Kw(st, 0) && c in SETTING && t in TARGETS
      && exists j: nat :: IsSetTarget(st, j) && st[j].name == t
    case _ => false
  }

  /** A rule about one word and its neighbours. */
  predicate WordDenied(st: Statement, i: nat, d: Denial)
    requires i < |st|
  {
    match d
    case ForbiddenName(n) => n == st[i].name && n in NAMES
    case ForbiddenKeyword(k) => k == st[i].kw && k in KEYWORDS
    case AlterDefaultPrivileges => st[i].kw == "privileges" && Kw(st, i - 1) == "default"
    case RoleStatement(v, n) =>
      n == st[i].kw && n in ROLE_NOUNS && v == Kw(st, i - 1) && v in ROLE_VERBS
    case DropOwned => st[i].kw == "owned" && Kw(st, i - 1) == "drop"
    case OwnerTo => st[i].kw == "owner" && Kw(st, i + 1) == "to"
    case SecurityDefiner => st[i].kw == "definer" && Kw(st, i - 1) == "security"
    case _ => false
  }

  ghost predicate Denied(st: Statement, d: Denial) {
    StartDenied(st, d) || exists i: nat :: i < |st| && WordDenied(st, i, d)
  }

  ghost predicate Acceptable(st: Statement) {
    forall d :: !Denied(st, d)
  }

  ghost predicate Accepted(sql: string, lower: Lower) {
    var ts := Tokenize(sql);
    !Refused(ts) && forall st :: st in Statements(ts, lower) ==> Acceptable(st)
  }

  // ----- The checks, in the order the guard makes them -----

  /** The rules about the word w = st[i]: the name list, then the keyword switch. */
  method CheckWord(st: Statement, i: nat) returns (r: Option<Denial>)
    requires i < |st|
    ensures r.Some? ==> WordDenied(st, i, r.value)
    ensures r.None? ==> forall d :: !WordDenied(st, i, d)
  {
    var w := st[i];
    if w.name in NAMES {
      return Some(ForbiddenName(w.name));
    }
    if w.kw in KEYWORDS {
      return Some(ForbiddenKeyword(w.kw));
    }
    if w.kw == "privileges" && Kw(st, i - 1) == "default" {
      return Some(AlterDefaultPrivileges);
    }
    if w.kw in ROLE_NOUNS && Kw(st, i - 1) in ROLE_VERBS {
      return Some(RoleStatement(Kw(st, i - 1), w.kw));
    }
    if w.kw == "owned" && Kw(st, i - 1) == "drop" {
      return Some(DropOwned);
    }
    if w.kw == "owner" && Kw(st, i + 1) == "to" {
      return Some(OwnerTo);
    }
    if w.kw == "definer" && Kw(st, i - 1) == "security" {
      return Some(SecurityDefiner);
    }
    return None;
  }

  /** SET / RESET: the first word that is not LOCAL or SESSION is the target. */
  method CheckSet(st: Statement) returns (r: Option<Denial>)
    requires Kw(st, 0) in SETTING
    ensures r.Some? ==> r.value.SetTarget? && StartDenied(st, r.value)
    ensures r.None? ==> forall c, t :: !StartDenied(st, SetTarget(c, t))
  {
    var j: nat := 1;
    while Kw(st, j) in SCOPE
      invariant 1 <= j
      invariant forall k | 1 <= k < j :: Kw(st, k) in SCOPE
      decreases |st| - j
    {
      j := j + 1;
    }
    if j < |st| && st[j].name in TARGETS {
      assert IsSetTarget(st, j);
      return Some(SetTarget(Kw(st, 0), st[j].name));
    }
    assert forall k :: IsSetTarget(st, k) ==> k == j;
    return None;
  }

  method CheckStart(st: Statement) returns (r: Option<Denial>)
    ensures r.Some? ==> StartDenied(st, r.value)
    ensures r.None? ==> forall d :: !StartDenied(st, d)
  {
    var first := Kw(st, 0);
    if first in TRANSACTION {
      return Some(TransactionControl(first));
    }
    if first == "do" {
      return Some(DoBlock);
    }
    if first == "create" {
      var j := 1;
      if Kw(st, j) == "or" && Kw(st, j + 1) == "replace" {
        j := j + 2;
      }
      if Kw(st, j) in ROUTINE {
        return Some(CreateRoutine(Kw(st, j)));
      }
    }
    if first in SETTING {
      r := CheckSet(st);
      return;
    }
    return None;
  }

  method CheckStatement(st: Statement) returns (r: Option<Denial>)
    ensures r.Some? ==> Denied(st, r.value) && !r.value.UnicodeIdentifier?
    ensures r.None? ==> Acceptable(st)
  {
    r := CheckStart(st);
    if r.Some? {
      return;
    }
    for i := 0 to |st|
      invariant forall k: nat, d | k < i :: !WordDenied(st, k, d)
    {
      r := CheckWord(st, i);
      if r.Some? {
        return;
      }
    }
    return None;
  }

  /** `d` denies the first statement that any rule denies. */
  ghost predicate DeniesFirst(stmts: seq<Statement>, d: Denial) {
    exists k: nat :: k < |stmts| && Denied(stmts[k], d) && forall j: nat | j < k :: Acceptable(stmts[j])
  }

  /** Null exactly for accepted SQL; otherwise a rule that denies the first statement any
      rule denies, or the refusal of a U&".." identifier. */
  method PrivilegeStatementError(sql: string, lower: Lower) returns (r: Option<Denial>)
    ensures r.None? <==> Accepted(sql, lower)
    ensures r.Some? && r.value.UnicodeIdentifier? ==> Refused(Tokenize(sql))
    ensures r.Some? && !r.value.UnicodeIdentifier? ==> DeniesFirst(Statements(Tokenize(sql), lower), r.value)
  {
    var scan := SqlGuard.SqlStatements(sql, lower);
    if scan.UnicodeIdentError? {
      return Some(UnicodeIdentifier);
    }
    r := CheckAll(scan.stmts);
  }

  method CheckAll(stmts: seq<Statement>) returns (r: Option<Denial>)
    ensures r.None? <==> forall st :: st in stmts ==> Acceptable(st)
    ensures r.Some? ==> DeniesFirst(stmts, r.value) && !r.value.UnicodeIdentifier?
  {
    for k := 0 to |stmts|
      invariant forall j: nat | j < k :: Acceptable(stmts[j])
    {
      r := CheckStatement(stmts[k]);
      if r.Some? {
        assert !Acceptable(stmts[k]) && stmts[k] in stmts;
        return;
      }
    }
    return None;
  }

  // ----- Joining accepted inputs -----

  /** For `a` ending in the default state, `a;b` is accepted exactly when `a` and `b` are. */
  lemma AcceptedJoin(a: string, b: string, lower: Lower)
    requires EndsOpen(a)
    ensures Accepted(a + ([';'] + b), lower) <==> Accepted(a, lower) && Accepted(b, lower)
  {
    JoinedBySemicolon(a, b, lower);
    var ta, tb, tc := Tokenize(a), Tokenize(b), Tokenize(a + ([';'] + b));
    assert forall t :: t in tc <==> t in ta || t == Semi || t in tb;
    var sa, sb, sc := Statements(ta, lower), Statements(tb, lower), Statements(tc, lower);
    assert forall st :: st in sc <==> st in sa || st in sb;
  }

  /** What the guard refuses for a U&".." identifier it refuses with anything appended. */
  lemma RefusedJoin(a: string, b: string, lower: Lower)
    requires Refused(Tokenize(a))
    ensures !Accepted(a + ([';'] + b), lower)
  {
    RefusedStays(a, b);
  }

  /** Comments cannot change the verdict. */
  lemma CommentKeepsVerdict(sql: string, a: seq<Token>, c: Token, b: seq<Token>, lower: Lower)
    requires Tokenize(sql) == a + ([c] + b) && IsComment(c)
    ensures Accepted(Render(a) + ([' '] + Render(b)), lower) <==> Accepted(sql, lower)
  {
    CommentIsSpace(sql, a, c, b, lower);
  }
}
