/** Where each identifier of an input ends up among the words of its statements. */
module SqlWords {
  import opened SqlTokens
  import opened StatementLaws

  predicate IsIdentifier(t: Token) {
    t.Word? || t.QuotedIdent?
  }

  /** Identifiers since the last semicolon. */
  function Since(ts: seq<Token>): nat {
    if ts == [] then 0
    else
      var last := ts[|ts| - 1];
      if last.Semi? then 0 else Since(ts[..|ts| - 1]) + if IsIdentifier(last) then 1 else 0
  }

  /** A plain word is keyword and name alike; a quoted one has only its name. */
  function WordFor(t: Token, lower: Lower): SqlWord
    requires IsIdentifier(t)
  {
    match t
    case Word(w) => SqlWord(lower(w), lower(w))
    case QuotedIdent(xs, _) => SqlWord("", lower(ItemsValue(xs, '"')))
  }

  lemma {:induction false} MergeSeam<T>(a: seq<seq<T>>, b: seq<seq<T>>)
    requires a != [] && b != []
    ensures |Merge(a, b)| == |a| + |b| - 1
    ensures Merge(a, b)[..|a| - 1] == a[..|a| - 1]
    ensures Merge(a, b)[|a| - 1] == a[|a| - 1] + b[0]
    ensures Merge(a, b)[|a|..] == b[1..]
  {
    if |a| == 1 {
    } else {
      MergeSeam(a[1..], b);
      assert a == [a[0]] + a[1..];
      assert Merge(a, b) == [a[0]] + Merge(a[1..], b);
    }
  }

  lemma OneToken(t: Token, lower: Lower)
    ensures Statements([t], lower) == if t.Semi? then [[], []] else [WordsOf(t, lower)]
    ensures !t.Semi? ==> WordsOf(t, lower) == if IsIdentifier(t) then [WordFor(t, lower)] else []
  {
    assert [t][1..] == [];
    var words := WordsOf(t, lower);
    assert words + [] == words && [words] + [] == [words];
  }

  lemma {:induction false} MergeLast<T>(s: seq<seq<T>>, words: seq<T>)
    requires s != []
    ensures Merge(s, [words]) == s[..|s| - 1] + [s[|s| - 1] + words]
  {
    if |s| == 1 {
      assert [s[0] + words] + [] == [s[0] + words];
    } else {
      MergeLast(s[1..], words);
      assert s[..|s| - 1] == [s[0]] + s[1..][..|s| - 2];
      Assoc([s[0]], s[1..][..|s| - 2], [s[|s| - 1] + words]);
    }
  }

  /** One more token: a semicolon opens a new statement, an identifier goes on with the last one,
      and nothing else leaves a trace. */
  lemma Appended(ts: seq<Token>, t: Token, lower: Lower)
    ensures var s, s' := Statements(ts, lower), Statements(ts + [t], lower);
      if t.Semi? then s' == s + [[]]
      else s' == s[..|s| - 1] + [s[|s| - 1] + if IsIdentifier(t) then [WordFor(t, lower)] else []]
  {
    var s := Statements(ts, lower);
    StatementsConcat(ts, [t], lower);
    OneToken(t, lower);
    if t.Semi? {
      var next: seq<seq<SqlWord>> := [[]];
      MergeNew(s, next);
      assert next + next == [[], []];
    } else {
      MergeLast(s, WordsOf(t, lower));
    }
  }

  /** As many statements as semicolons and one, the last with the identifiers since the last one. */
  lemma {:induction false} LastStatement(ts: seq<Token>, lower: Lower)
    ensures |Statements(ts, lower)| == Semicolons(ts) + 1
    ensures |Statements(ts, lower)[Semicolons(ts)]| == Since(ts)
    decreases |ts|
  {
    StatementsCount(ts, lower);
    if ts != [] {
      var init, t := ts[..|ts| - 1], ts[|ts| - 1];
      LastStatement(init, lower);
      StatementsCount(init, lower);
      Appended(init, t, lower);
      assert ts == init + [t];
    }
  }

  /** More tokens do not touch the statements already closed, and only add to the last one. */
  lemma WordsStay(a: seq<Token>, b: seq<Token>, lower: Lower)
    ensures var s, s' := Statements(a, lower), Statements(a + b, lower);
      |s| <= |s'| && s'[..|s| - 1] == s[..|s| - 1] && s[|s| - 1] <= s'[|s| - 1]
  {
    StatementsConcat(a, b, lower);
    MergeSeam(Statements(a, lower), Statements(b, lower));
  }

  /** Every identifier of an input, quoted or not, is a word of its statement, at its place. */
  lemma WordStands(ts: seq<Token>, k: nat, lower: Lower)
    requires k < |ts| && IsIdentifier(ts[k])
    ensures var s, a, b := Statements(ts, lower), Semicolons(ts[..k]), Since(ts[..k]);
      a < |s| && b < |s[a]| && s[a][b] == WordFor(ts[k], lower)
  {
    var init := ts[..k];
    LastStatement(init, lower);
    Appended(init, ts[k], lower);
    assert ts[..k + 1] == init + [ts[k]];
    assert ts == ts[..k + 1] + ts[k + 1..];
    WordsStay(ts[..k + 1], ts[k + 1..], lower);
  }

  /** ... and every word of a statement is such an identifier. */
  lemma {:induction false} WordIsIdentifier(ts: seq<Token>, a: nat, b: nat, lower: Lower) returns (k: nat)
    requires a < |Statements(ts, lower)| && b < |Statements(ts, lower)[a]|
    ensures k < |ts| && IsIdentifier(ts[k]) && Semicolons(ts[..k]) == a && Since(ts[..k]) == b
    ensures Statements(ts, lower)[a][b] == WordFor(ts[k], lower)
    decreases |ts|
  {
    if ts != [] {
      var init, t := ts[..|ts| - 1], ts[|ts| - 1];
      LastStatement(init, lower);
      Appended(init, t, lower);
      assert ts == init + [t];
      var s := Statements(init, lower);
      if a < |s| && b < |s[a]| {
        k := WordIsIdentifier(init, a, b, lower);
        assert ts[..k] == init[..k];
      } else {
        k := |ts| - 1;
      }
    }
  }
}
