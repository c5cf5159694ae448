/** The guard's verdict in the words of SQL: which identifiers, pairs of keywords and openings of a
    statement it refuses, and that no quoting or spacing hides them. */
module GuardLaws {
  import opened SqlTokens
  import opened StatementLaws
  import opened SqlWords
  import opened PrivilegeGuard

  // ----- The verdict -----

  /** Two keywords in a row that manage roles, ownership or privileges. */
  predicate RefusedPair(a: string, b: string) {
    || (a == "default" && b == "privileges")
    || (a in {"create", "alter", "drop"} && b in {"role", "user", "group"})
    || (a == "drop" && b == "owned")
    || (a == "owner" && b == "to")
    || (a == "security" && b == "definer")
  }

  /** `CREATE [OR REPLACE] FUNCTION` or `PROCEDURE`. */
  predicate CreatesRoutine(st: Statement) {
    var j := if |st| > 2 && st[1].kw == "or" && st[2].kw == "replace" then 3 else 1;
    |st| > j && st[0].kw == "create" && st[j].kw in {"function", "procedure"}
  }

  /** `SET` or `RESET`, any number of LOCAL and SESSION, and then a target that is the platform's. */
  ghost predicate SetsTarget(st: Statement) {
    st != [] && st[0].kw in {"set", "reset"}
    && exists j | 0 < j < |st| ::
         && (forall i | 0 < i < j :: st[i].kw in {"local", "session"})
         && st[j].kw !in {"local", "session"}
         && st[j].name in {"role", "all", "search_path", "session", "authorization", "session_authorization"}
  }

  ghost predicate Harmless(st: Statement) {
    && (forall i | 0 <= i < |st| ::
          && st[i].name !in {"search_path", "set_config", "session_authorization", "pg_settings",
                             "standard_conforming_strings", "backslash_quote", "escape_string_warning"}
          && st[i].kw !in {"grant", "revoke", "reassign", "authorization"})
    && (forall i | 0 < i < |st| :: !RefusedPair(st[i - 1].kw, st[i].kw))
    && (st != [] ==>
          && st[0].kw !in {"begin", "commit", "rollback", "savepoint", "release", "end", "abort", "start", "prepare"}
          && st[0].kw != "do")
    && !CreatesRoutine(st) && !SetsTarget(st)
  }

  lemma HarmlessWords(st: Statement, i: nat, d: Denial)
    requires Harmless(st) && i < |st|
    ensures !WordDenied(st, i, d)
  {
    if i > 0 { assert !RefusedPair(st[i - 1].kw, st[i].kw); }
    if i + 1 < |st| { assert !RefusedPair(st[i].kw, st[i + 1].kw); }
  }

  lemma TargetSets(st: Statement, j: nat)
    requires IsSetTarget(st, j) && st[0].kw in SETTING
    ensures st[j].name in TARGETS ==> SetsTarget(st)
  {
    assert forall i | 0 < i < j :: Kw(st, i) == st[i].kw;
  }

  lemma HarmlessStart(st: Statement, d: Denial)
    requires Harmless(st)
    ensures !StartDenied(st, d)
  {
    if d.SetTarget? && d.command in SETTING && d.command == Kw(st, 0) {
      forall j: nat | IsSetTarget(st, j) ensures st[j].name !in TARGETS {
        TargetSets(st, j);
      }
    }
  }

  lemma HarmlessIsAcceptable(st: Statement)
    requires Harmless(st)
    ensures Acceptable(st)
  {
    forall d ensures !Denied(st, d) {
      HarmlessStart(st, d);
      forall i: nat | i < |st| ensures !WordDenied(st, i, d) {
        HarmlessWords(st, i, d);
      }
    }
  }

  lemma AcceptableWord(st: Statement, i: nat)
    requires Acceptable(st) && i < |st|
    ensures st[i].name !in NAMES && st[i].kw !in KEYWORDS
    ensures i > 0 ==> !RefusedPair(st[i - 1].kw, st[i].kw)
  {
    assert forall d | WordDenied(st, i, d) :: Denied(st, d);
    assert !WordDenied(st, i, ForbiddenName(st[i].name)) && !WordDenied(st, i, ForbiddenKeyword(st[i].kw));
    assert !WordDenied(st, i, AlterDefaultPrivileges) && !WordDenied(st, i, DropOwned) && !WordDenied(st, i, SecurityDefiner);
    if i > 0 {
      assert !WordDenied(st, i, RoleStatement(st[i - 1].kw, st[i].kw));
      var h: nat := i - 1;
      assert !Denied(st, OwnerTo);
      assert WordDenied(st, h, OwnerTo) ==> Denied(st, OwnerTo);
    }
  }

  lemma AcceptableStart(st: Statement)
    requires Acceptable(st) && st != []
    ensures st[0].kw !in TRANSACTION && st[0].kw != "do" && !CreatesRoutine(st)
  {
    assert forall d | StartDenied(st, d) :: Denied(st, d);
    assert !StartDenied(st, TransactionControl(st[0].kw)) && !StartDenied(st, DoBlock);
    var j := if Kw(st, 1) == "or" && Kw(st, 2) == "replace" then 3 else 1;
    assert !StartDenied(st, CreateRoutine(Kw(st, j)));
  }

  lemma TargetIsDenied(st: Statement) returns (d: Denial)
    requires SetsTarget(st)
    ensures Denied(st, d)
  {
    var j :| 0 < j < |st| && (forall i | 0 < i < j :: st[i].kw in {"local", "session"}) && st[j].kw !in {"local", "session"}
      && st[j].name in {"role", "all", "search_path", "session", "authorization", "session_authorization"};
    assert IsSetTarget(st, j);
    d := SetTarget(st[0].kw, st[j].name);
  }

  lemma AcceptableIsHarmless(st: Statement)
    requires Acceptable(st)
    ensures Harmless(st)
  {
    forall i | 0 <= i < |st| ensures st[i].name !in NAMES && st[i].kw !in KEYWORDS {
      AcceptableWord(st, i);
    }
    forall i | 0 < i < |st| ensures !RefusedPair(st[i - 1].kw, st[i].kw) {
      AcceptableWord(st, i);
    }
    if st != [] { AcceptableStart(st); }
    if SetsTarget(st) {
      var d := TargetIsDenied(st);
    }
  }

  /** Exactly these statements pass. */
  lemma AcceptableExactlyWhen(st: Statement)
    ensures Acceptable(st) <==> Harmless(st)
  {
    if Harmless(st) {
      HarmlessIsAcceptable(st);
    } else if Acceptable(st) {
      AcceptableIsHarmless(st);
    }
  }

  /** An input is accepted exactly when it has no U&".." identifier and every statement is harmless. */
  lemma AcceptedExactlyWhen(sql: string, lower: Lower)
    ensures Accepted(sql, lower) <==>
      (forall t | t in Tokenize(sql) :: !t.UIdent?) && forall st | st in Statements(Tokenize(sql), lower) :: Harmless(st)
  {
    forall st | st in Statements(Tokenize(sql), lower) ensures Acceptable(st) <==> Harmless(st) {
      AcceptableExactlyWhen(st);
    }
  }

  // ----- Nothing hides it -----

  /** An identifier that names a setting of the platform's is refused wherever it stands outside
      strings and comments, quoted or not. */
  lemma NameIsRefused(sql: string, k: nat, lower: Lower)
    requires k < |Tokenize(sql)| && IsIdentifier(Tokenize(sql)[k])
    requires WordFor(Tokenize(sql)[k], lower).name in
      {"search_path", "set_config", "session_authorization", "pg_settings",
       "standard_conforming_strings", "backslash_quote", "escape_string_warning"}
    ensures !Accepted(sql, lower)
  {
    var ts := Tokenize(sql);
    WordStands(ts, k, lower);
    AcceptedExactlyWhen(sql, lower);
    var st := Statements(ts, lower)[Semicolons(ts[..k])];
    assert st in Statements(ts, lower);
  }

  /** Two plain words next to each other in a statement, with nothing but comments, strings and
      symbols between, are refused when they make up a refused pair. */
  lemma PairIsRefused(sql: string, j: nat, k: nat, lower: Lower)
    requires j < k < |Tokenize(sql)| && Tokenize(sql)[j].Word? && Tokenize(sql)[k].Word?
    requires forall i | j < i < k :: !IsIdentifier(Tokenize(sql)[i]) && !Tokenize(sql)[i].Semi?
    requires RefusedPair(lower(Tokenize(sql)[j].word), lower(Tokenize(sql)[k].word))
    ensures !Accepted(sql, lower)
  {
    var ts := Tokenize(sql);
    var st, b := PairStands(ts, j, k, lower);
    AcceptedExactlyWhen(sql, lower);
    assert RefusedPair(st[b - 1].kw, st[b].kw);
  }

  lemma PairStands(ts: seq<Token>, j: nat, k: nat, lower: Lower) returns (st: Statement, b: nat)
    requires j < k < |ts| && ts[j].Word? && ts[k].Word?
    requires forall i | j < i < k :: !IsIdentifier(ts[i]) && !ts[i].Semi?
    ensures st in Statements(ts, lower) && 0 < b < |st| && st[b - 1].kw == lower(ts[j].word) && st[b].kw == lower(ts[k].word)
  {
    NothingBetween(ts, j, k);
    WordStands(ts, j, lower);
    WordStands(ts, k, lower);
    st, b := Statements(ts, lower)[Semicolons(ts[..k])], Since(ts[..k]);
  }

  lemma {:induction false} NothingBetween(ts: seq<Token>, j: nat, k: nat)
    requires j < k <= |ts| && IsIdentifier(ts[j]) && forall i | j < i < k :: !IsIdentifier(ts[i]) && !ts[i].Semi?
    ensures Semicolons(ts[..k]) == Semicolons(ts[..j]) && Since(ts[..k]) == Since(ts[..j]) + 1
    decreases k
  {
    assert ts[..k][..k - 1] == ts[..k - 1];
    SemicolonsAppend(ts[..k - 1], ts[k - 1]);
    assert ts[..k] == ts[..k - 1] + [ts[k - 1]];
    if j < k - 1 { NothingBetween(ts, j, k - 1); }
  }

  lemma {:induction false} SemicolonsAppend(ts: seq<Token>, t: Token)
    ensures Semicolons(ts + [t]) == Semicolons(ts) + if t.Semi? then 1 else 0
  {
    if ts == [] {
      assert ts + [t] == [t] && [t][1..] == [];
    } else {
      assert (ts + [t])[1..] == ts[1..] + [t];
      SemicolonsAppend(ts[1..], t);
    }
  }

  lemma Followed(ta: seq<Token>, rest: seq<Token>)
    requires Tokens(ta) && Tokens(rest) && StartsNeutral(Render(rest)) && (ta == [] || Closed(ta[|ta| - 1]))
    ensures Tokens(ta + rest) && Render(ta + rest) == Render(ta) + Render(rest)
  {
    assert ta + [] == ta;
    TokensNeutral(ta, [], rest);
    RenderConcat(ta, rest);
  }

  lemma SpacedOut(t: Token, tb: seq<Token>)
    requires Tokens(tb) && Fits(t, Render(tb))
    ensures Tokens([Other(' ')] + ([t] + tb))
    ensures Render([Other(' ')] + ([t] + tb)) == [' '] + (Text(t) + Render(tb))
  {
    Head(t, tb);
    Head(Other(' '), [t] + tb);
  }

  /** The tokens of an input in its default state, a blank, one more token and the rest. */
  lemma Placed(a: string, t: Token, b: string)
    requires EndsOpen(a) && Fits(t, b)
    ensures Tokenize(a + ([' '] + (Text(t) + b))) == Tokenize(a) + ([Other(' ')] + ([t] + Tokenize(b)))
  {
    TokenizeSound(a);
    TokenizeSound(b);
    var rest := [Other(' ')] + ([t] + Tokenize(b));
    SpacedOut(t, Tokenize(b));
    Followed(Tokenize(a), rest);
    TokenizeUnique(Tokenize(a) + rest);
  }

  /** Quoting does not hide a setting's name: whatever stands before it, and whatever after. */
  lemma QuotedNameIsRefused(a: string, s: string, b: string, lower: Lower)
    requires EndsOpen(a) && !StartsWith(b, '"')
    requires lower(s) in
      {"search_path", "set_config", "session_authorization", "pg_settings",
       "standard_conforming_strings", "backslash_quote", "escape_string_warning"}
    ensures !Accepted(a + ([' '] + (QuoteIdent(s) + b)), lower)
  {
    var t := QuotedIdent(QuoteItems(s), true);
    QuoteIdentRoundTrip(s, b);
    QuoteItemsGood(s);
    Placed(a, t, b);
    var k := |Tokenize(a)| + 1;
    assert Tokenize(a + ([' '] + (QuoteIdent(s) + b)))[k] == t;
    NameIsRefused(a + ([' '] + (QuoteIdent(s) + b)), k, lower);
  }

  predicate StartsIdentifier(c: char) {
    'A' <= c <= 'Z' || 'a' <= c <= 'z' || c == '_' || c >= '\U{0080}'
  }

  predicate GoesOn(c: char) {
    StartsIdentifier(c) || '0' <= c <= '9' || c == '$'
  }

  /** A whole plain identifier, longer than the one-letter prefixes of strings. */
  predicate Plainly(w: string, b: string) {
    && |w| > 1 && StartsIdentifier(w[0]) && (forall k | 0 <= k < |w| :: GoesOn(w[k]))
    && (b == "" || !GoesOn(b[0]))
  }

  /** The same for a plain identifier, and for the keywords that manage privileges. */
  lemma PlainWordIsRefused(a: string, w: string, b: string, lower: Lower)
    requires EndsOpen(a) && Plainly(w, b)
    requires lower(w) in
      {"search_path", "set_config", "session_authorization", "pg_settings",
       "standard_conforming_strings", "backslash_quote", "escape_string_warning",
       "grant", "revoke", "reassign", "authorization"}
    ensures !Accepted(a + ([' '] + (w + b)), lower)
  {
    var sql, k := a + ([' '] + (w + b)), |Tokenize(a)| + 1;
    Placed(a, Word(w), b);
    var ts := Tokenize(sql);
    assert ts[k] == Word(w);
    WordStands(ts, k, lower);
    AcceptedExactlyWhen(sql, lower);
    assert Statements(ts, lower)[Semicolons(ts[..k])] in Statements(ts, lower);
  }

  /** A U&".." identifier is refused, whatever it spells. */
  lemma UnicodeIdentifierIsRefused(a: string, p: char, b: string, lower: Lower)
    requires EndsOpen(a) && (p == 'U' || p == 'u')
    ensures !Accepted(a + ([' '] + ([p] + (['&', '"'] + b))), lower)
  {
    var t := UIdent(p, b);
    var sql := a + ([' '] + (Text(t) + ""));
    assert Text(t) + "" == Text(t);
    Placed(a, t, "");
    assert Tokenize(sql)[|Tokenize(a)| + 1] == t;
    AcceptedExactlyWhen(sql, lower);
  }

  /** A keyword that opens a statement, plainly written after a semicolon. */
  lemma OpeningIsRefused(a: string, w: string, b: string, lower: Lower)
    requires EndsOpen(a) && Plainly(w, b)
    requires lower(w) in
      {"begin", "commit", "rollback", "savepoint", "release", "end", "abort", "start", "prepare", "do"}
    ensures !Accepted(a + ([';'] + (w + b)), lower)
  {
    TokenizeSound(b);
    Head(Word(w), Tokenize(b));
    TokenizeUnique([Word(w)] + Tokenize(b));
    var ts := Tokenize(w + b);
    assert ts == [Word(w)] + Tokenize(b);
    assert ts[..0] == [];
    WordStands(ts, 0, lower);
    assert Statements(ts, lower)[0] in Statements(ts, lower);
    AcceptedExactlyWhen(w + b, lower);
    AcceptedJoin(a, w + b, lower);
  }
}
