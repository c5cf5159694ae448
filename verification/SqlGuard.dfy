/** The statement guard for customer SQL: the scanning loops of sqlStatements, proved to
    compute the token grammar's statements, and privilegeStatementError, proved to refuse
    exactly the statements that some rule denies. */
module SqlGuard {
  import opened Prelude
  import opened SqlTokens
  import opened StatementLaws

  // ----- The scanner -----

  predicate QuotePair(sql: string, j: nat, q: char, backslash: bool)
    requires j < |sql|
  {
    j + 1 < |sql| && ((backslash && sql[j] == '\\') || (sql[j] == q && sql[j + 1] == q))
  }

  /** Where the region that goes on at sql[j] ends, and what it stands for when it stood
      for `content` so far. */
  function QuotedFrom(sql: string, j: nat, q: char, backslash: bool, content: string): (r: (nat, string))
    requires j <= |sql|
    ensures j <= r.0 <= |sql|
    decreases |sql| - j
  {
    if j == |sql| then (j, content)
    else if QuotePair(sql, j, q, backslash) then
      QuotedFrom(sql, j + 2, q, backslash, content + [sql[j + 1]])
    else if sql[j] == q then (j + 1, content)
    else QuotedFrom(sql, j + 1, q, backslash, content + [sql[j]])
  }

  /** ... as the token grammar has it. */
  lemma {:induction false} QuotedFromScans(sql: string, j: nat, q: char, backslash: bool, content: string)
    requires j <= |sql| && !(backslash && q == '\\')
    ensures var (next, all), r := QuotedFrom(sql, j, q, backslash, content), ScanItems(sql[j..], q, backslash);
            sql[next..] == r.rest && all == content + ItemsValue(r.items, q)
    decreases |sql| - j
  {
    assert content + [] == content;
    if j < |sql| {
      var s := sql[j..];
      Drop(sql, j, 1);
      var n := if QuotePair(sql, j, q, backslash) then 2 else 1;
      if n == 2 || sql[j] != q {
        Drop(sql, j, n);
        var c := sql[j + n - 1];
        QuotedFromScans(sql, j + n, q, backslash, content + [c]);
        var items := ScanItems(s[n..], q, backslash).items;
        assert ScanItems(s, q, backslash).items[1..] == items;
        Assoc(content, [c], ItemsValue(items, q));
      }
    }
  }

  /** Skips a quoted region starting at sql[i]; `next` is the index after it and `content`
      what it stands for. */
  method SkipQuoted(sql: string, i: nat, q: char, backslash: bool) returns (next: nat, content: string)
    requires i < |sql| && !(backslash && q == '\\')
    ensures i < next <= |sql|
    ensures var r := ScanItems(sql[i + 1..], q, backslash);
            sql[next..] == r.rest && content == ItemsValue(r.items, q)
  {
    next, content := SkipQuotedLoop(sql, i, q, backslash);
    QuotedFromScans(sql, i + 1, q, backslash, "");
  }

  method SkipQuotedLoop(sql: string, i: nat, q: char, backslash: bool) returns (next: nat, content: string)
    requires i < |sql|
    ensures (next, content) == QuotedFrom(sql, i + 1, q, backslash, "")
  {
    var n := |sql|;
    next, content := i + 1, "";
    while next < n
      invariant i < next <= n
      invariant QuotedFrom(sql, next, q, backslash, content) == QuotedFrom(sql, i + 1, q, backslash, "")
    {
      var c := sql[next];
      if backslash && c == '\\' && next + 1 < n {
        content, next := content + [sql[next + 1]], next + 2;
      } else if c == q && next + 1 < n && sql[next + 1] == q {
        content, next := content + [q], next + 2;
      } else if c == q {
        return next + 1, content;
      } else {
        content, next := content + [c], next + 1;
      }
    }
  }

  /** Skips the line comment at sql[i], up to but not over the line end. */
  method SkipLineComment(sql: string, i: nat) returns (next: nat)
    requires i + 1 < |sql| && sql[i] == '-' && sql[i + 1] == '-'
    ensures i < next <= |sql|
    ensures sql[next..] == NextToken(sql[i..]).rest && NextToken(sql[i..]).token.LineComment?
  {
    next := i;
    ghost var line := ScanLine(sql[i + 2..]);
    assert sql[i..][1..] == sql[i + 1..] && sql[i + 1..][1..] == sql[i + 2..];
    while next < |sql| && sql[next] != '\n'
      invariant i <= next <= |sql|
      invariant next + |ScanLine(sql[next..])| == i + 2 + |line|
    {
      assert sql[next..][1..] == sql[next + 1..];
      next := next + 1;
    }
    assert ScanLine(sql[next..]) == "";
    assert sql[i + 2..][|line|..] == sql[next..];
  }

  /** Skips the block comment at sql[i], with the comments nested in it. */
  method SkipBlockComment(sql: string, i: nat) returns (next: nat)
    requires i + 1 < |sql| && sql[i] == '/' && sql[i + 1] == '*'
    ensures i < next <= |sql|
    ensures sql[next..] == NextToken(sql[i..]).rest && NextToken(sql[i..]).token.BlockComment?
  {
    var n := |sql|;
    var depth: nat := 1;
    next := i + 2;
    ghost var rest := ScanComment(sql[i + 2..], 1).rest;
    assert sql[i..][1..][1..] == sql[i + 2..];
    while next < n && depth > 0
      invariant i + 2 <= next <= n
      invariant ScanComment(sql[next..], depth).rest == rest
    {
      assert sql[next..][1..] == sql[next + 1..];
      if next + 1 < n && sql[next] == '/' && sql[next + 1] == '*' {
        assert sql[next..][2..] == sql[next + 2..];
        depth := depth + 1;
        next := next + 2;
      } else if next + 1 < n && sql[next] == '*' && sql[next + 1] == '/' {
        assert sql[next..][2..] == sql[next + 2..];
        depth := depth - 1;
        next := next + 2;
      } else {
        next := next + 1;
      }
    }
    assert next == n ==> sql[next..] == "";
  }

  /** Skips the dollar quote whose opening delimiter the regular expression found at sql[i]. */
  method SkipDollar(sql: string, i: nat) returns (next: nat)
    requires i < |sql| && sql[i] == '$' && DollarOpens(sql[i + 1..])
    ensures i < next <= |sql|
    ensures sql[next..] == NextToken(sql[i..]).rest && NextToken(sql[i..]).token.DollarQuote?
  {
    var after := sql[i + 1..];
    assert sql[i..][1..] == after;
    var tag := ScanTag(after);
    var width := |tag| + 2;
    var end := Find(Delimiter(tag), sql[i + width..]);
    assert after[|tag| + 1..] == sql[i + width..];
    DollarBodyFits(Delimiter(tag), sql[i + width..]);
    if end < |sql| - i - width {
      next := i + width + end + width;
      assert sql[i + width..][end + width..] == sql[next..];
    } else {
      next := |sql|;
    }
  }

  /** The end of the word that starts at sql[i]. */
  method WordEnd(sql: string, i: nat) returns (j: nat)
    requires i < |sql| && IdentStart(sql[i])
    ensures i < j <= |sql|
    ensures sql[i..j] == ScanIdent(sql[i..])
  {
    j := i + 1;
    assert sql[i..][1..] == sql[i + 1..];
    while j < |sql| && IdentCont(sql[j])
      invariant i < j <= |sql|
      invariant j + |ScanIdent(sql[j..])| == i + |ScanIdent(sql[i..])|
    {
      assert sql[j..][1..] == sql[j + 1..];
      j := j + 1;
    }
    assert ScanIdent(sql[j..]) == "";
    ScanIdentFits(sql[i..]);
    assert sql[i..j] == sql[i..][..j - i];
  }

  datatype Scan = Scanned(stmts: seq<seq<SqlWord>>) | UnicodeIdentError

  /** What the token grammar says about an input. */
  function ScanOf(sql: string, lower: Lower): Scan {
    var ts := Tokenize(sql);
    if Refused(ts) then UnicodeIdentError else Scanned(Statements(ts, lower))
  }

  /** The whole scan from a point where `stmts` and the open statement `cur` were collected. */
  ghost predicate Continues(sql: string, i: nat, stmts: seq<seq<SqlWord>>, cur: seq<SqlWord>, lower: Lower)
    requires i <= |sql|
  {
    var ts, rest := Tokenize(sql), Tokenize(sql[i..]);
    && Refused(rest) == Refused(ts)
    && stmts + Prepend(cur, Statements(rest, lower)) == Statements(ts, lower)
  }

  /** Passing one token: a semicolon closes the open statement, any other adds its words. */
  lemma Advance(sql: string, i: nat, j: nat, stmts: seq<seq<SqlWord>>, cur: seq<SqlWord>, lower: Lower)
    requires i < |sql| && j <= |sql| && Continues(sql, i, stmts, cur, lower)
    requires sql[j..] == NextToken(sql[i..]).rest && !NextToken(sql[i..]).token.UIdent?
    ensures var t := NextToken(sql[i..]).token;
            if t.Semi? then Continues(sql, j, stmts + [cur], [], lower)
            else Continues(sql, j, stmts, cur + WordsOf(t, lower), lower)
  {
    var t := NextToken(sql[i..]).token;
    var here, rest := Tokenize(sql[i..]), Tokenize(sql[j..]);
    assert here == [t] + rest && here[1..] == rest;
    assert Refused(here) == Refused(rest) by {
      assert forall u :: u in here <==> u == t || u in rest;
    }
    var tail := Statements(rest, lower);
    if t.Semi? {
      PassSemicolon(stmts, cur, tail);
    } else {
      Assoc(cur, WordsOf(t, lower), tail[0]);
      Split([WordsOf(t, lower) + tail[0]], tail[1..]);
    }
  }

  lemma PassSemicolon<T>(stmts: seq<seq<T>>, cur: seq<T>, tail: seq<seq<T>>)
    requires tail != []
    ensures stmts + Prepend(cur, [[]] + tail) == (stmts + [cur]) + Prepend([], tail)
  {
    assert ([[]] + tail)[1..] == tail && cur + [] == cur;
    assert [] + tail[0] == tail[0] && tail == [tail[0]] + tail[1..];
    Assoc(stmts, [cur], tail);
  }

  /** Passes one token other than a semicolon; `words` is what it adds to the statement. */
  method ScanToken(sql: string, i: nat, lower: Lower) returns (stop: bool, next: nat, words: seq<SqlWord>)
    requires i < |sql| && sql[i] != ';'
    ensures i < next <= |sql|
    ensures var r := NextToken(sql[i..]);
            && !r.token.Semi?
            && stop == r.token.UIdent?
            && (!stop ==> sql[next..] == r.rest && words == WordsOf(r.token, lower))
  {
    var n := |sql|;
    var c := sql[i];
    stop, words := false, [];
    assert sql[i..][1..] == sql[i + 1..];
    var v;
    if c == '\'' {
      next, v := SkipQuoted(sql, i, '\'', false);
    } else if c == '"' {
      next, v := SkipQuoted(sql, i, '"', false);
      words := [SqlWord("", lower(v))];
    } else if c == '-' && i + 1 < n && sql[i + 1] == '-' {
      next := SkipLineComment(sql, i);
    } else if c == '/' && i + 1 < n && sql[i + 1] == '*' {
      next := SkipBlockComment(sql, i);
    } else if c == '$' && DollarOpens(sql[i + 1..]) {
      next := SkipDollar(sql, i);
    } else if IdentStart(c) {
      stop, next, words := ScanWordAt(sql, i, lower);
    } else {
      next := i + 1;
    }
  }

  /** Splits SQL into statements of words; strings, comments and dollar quotes are skipped. */
  method SqlStatements(sql: string, lower: Lower) returns (r: Scan)
    ensures r == ScanOf(sql, lower)
  {
    var stmts: seq<seq<SqlWord>>, cur: seq<SqlWord> := [], [];
    var n := |sql|;
    var i: nat := 0;
    Begin(sql, lower);
    while i < n
      invariant i <= n
      invariant Continues(sql, i, stmts, cur, lower)
    {
      if sql[i] == ';' {
        assert sql[i..][1..] == sql[i + 1..];
        Advance(sql, i, i + 1, stmts, cur, lower);
        stmts := stmts + [cur];
        cur := [];
        i := i + 1;
      } else {
        var stop, next, words := ScanToken(sql, i, lower);
        if stop {
          RefusedHere(sql, i);
          return UnicodeIdentError;
        }
        Advance(sql, i, next, stmts, cur, lower);
        cur := cur + words;
        i := next;
      }
    }
    End(sql, stmts, cur, lower);
    r := Scanned(stmts + [cur]);
  }

  lemma Begin(sql: string, lower: Lower)
    ensures Continues(sql, 0, [], [], lower)
  {
    assert sql[0..] == sql;
    var stmts := Statements(Tokenize(sql), lower);
    assert [] + stmts[0] == stmts[0] && stmts == [stmts[0]] + stmts[1..];
  }

  lemma End(sql: string, stmts: seq<seq<SqlWord>>, cur: seq<SqlWord>, lower: Lower)
    requires Continues(sql, |sql|, stmts, cur, lower)
    ensures ScanOf(sql, lower) == Scanned(stmts + [cur])
  {
    assert sql[|sql|..] == "";
    assert Tokenize("") == [];
    assert cur + [] == cur;
    assert Statements([], lower)[1..] == [];
  }

  lemma RefusedHere(sql: string, i: nat)
    requires i < |sql| && NextToken(sql[i..]).token.UIdent?
    ensures Refused(Tokenize(sql[i..]))
  {
    assert NextToken(sql[i..]).token in Tokenize(sql[i..]);
  }

  /** A word at sql[i], or the string or identifier it is the prefix of. */
  method ScanWordAt(sql: string, i: nat, lower: Lower) returns (stop: bool, next: nat, words: seq<SqlWord>)
    requires i < |sql| && IdentStart(sql[i])
    ensures i < next <= |sql|
    ensures var r := NextToken(sql[i..]);
            && stop == r.token.UIdent?
            && (!stop ==> sql[next..] == r.rest && words == WordsOf(r.token, lower))
  {
    next := WordEnd(sql, i);
    var word := sql[i..next];
    var n := |sql|;
    stop, words := false, [];
    assert sql[i..][|word|..] == sql[next..];
    if |word| == 1 && IsE(word[0]) && next < n && sql[next] == '\'' {
      assert sql[next..][1..] == sql[next + 1..];
      var v;
      next, v := SkipQuoted(sql, next, '\'', true);
    } else if |word| == 1 && IsU(word[0]) && next + 1 < n && sql[next] == '&'
              && (sql[next + 1] == '\'' || sql[next + 1] == '"') {
      assert sql[next..][2..] == sql[next + 2..];
      if sql[next + 1] == '"' {
        stop := true;
      } else {
        var v;
        next, v := SkipQuoted(sql, next + 1, '\'', false);
      }
    } else {
      words := [SqlWord(lower(word), lower(word))];
    }
  }
}
