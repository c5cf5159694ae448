/** What a token sequence means to the guard: the statements and their words. Laws about
    comments, quoting and concatenation. */
module StatementLaws {
  import opened SqlTokens

  /** kw is "" for a quoted identifier. `lower` stands for the host's lower-casing, and
      is arbitrary throughout. */
  datatype SqlWord = SqlWord(kw: string, name: string)

  type Lower = string -> string

  function WordsOf(t: Token, lower: Lower): seq<SqlWord> {
    match t
    case Word(w) => [SqlWord(lower(w), lower(w))]
    case QuotedIdent(xs, _) => [SqlWord("", lower(ItemsValue(xs, '"')))]
    case _ => []
  }

  /** One statement per semicolon, plus the last; strings, comments and the rest vanish. */
  function Statements(ts: seq<Token>, lower: Lower): (stmts: seq<seq<SqlWord>>)
    ensures stmts != []
  {
    if ts == [] then [[]]
    else
      var rest := Statements(ts[1..], lower);
      if ts[0].Semi? then [[]] + rest else Prepend(WordsOf(ts[0], lower), rest)
  }

  /** Words put in front of the first statement. */
  function Prepend<T>(words: seq<T>, stmts: seq<seq<T>>): (r: seq<seq<T>>)
    requires stmts != []
    ensures r != []
  {
    [words + stmts[0]] + stmts[1..]
  }

  /** The last statement of one list goes on as the first of the next. */
  function Merge<T>(a: seq<seq<T>>, b: seq<seq<T>>): (r: seq<seq<T>>)
    requires a != [] && b != []
    ensures r != []
  {
    if |a| == 1 then Prepend(a[0], b) else [a[0]] + Merge(a[1..], b)
  }

  /** U&".." identifiers stop the scan. */
  predicate Refused(ts: seq<Token>) {
    exists t :: t in ts && t.UIdent?
  }

  function Semicolons(ts: seq<Token>): nat {
    if ts == [] then 0 else (if ts[0].Semi? then 1 else 0) + Semicolons(ts[1..])
  }

  function AllWords(ts: seq<Token>, lower: Lower): seq<SqlWord> {
    if ts == [] then [] else WordsOf(ts[0], lower) + AllWords(ts[1..], lower)
  }

  function Flatten<T>(xs: seq<seq<T>>): seq<T> {
    if xs == [] then [] else xs[0] + Flatten(xs[1..])
  }

  /** One more statement than there are top-level semicolons, and exactly the word tokens,
      in order. */
  lemma {:induction false} StatementsCount(ts: seq<Token>, lower: Lower)
    ensures |Statements(ts, lower)| == Semicolons(ts) + 1
    ensures Flatten(Statements(ts, lower)) == AllWords(ts, lower)
  {
    if ts == [] {
      assert Statements(ts, lower)[1..] == [];
    } else {
      StatementsCount(ts[1..], lower);
      FlattenPrepend(WordsOf(ts[0], lower), Statements(ts[1..], lower));
    }
  }

  lemma FlattenPrepend<T>(words: seq<T>, stmts: seq<seq<T>>)
    requires stmts != []
    ensures Flatten(Prepend(words, stmts)) == words + Flatten(stmts)
    ensures Flatten([[]] + stmts) == Flatten(stmts)
  {
    Split([words + stmts[0]], stmts[1..]);
    assert ([[]] + stmts)[1..] == stmts;
    Assoc(words, stmts[0], Flatten(stmts[1..]));
  }

  lemma MergePrepend<T>(words: seq<T>, a: seq<seq<T>>, b: seq<seq<T>>)
    requires a != [] && b != []
    ensures Merge(Prepend(words, a), b) == Prepend(words, Merge(a, b))
    ensures Merge([[]] + a, b) == [[]] + Merge(a, b)
  {
    Split([words + a[0]], a[1..]);
    assert ([[]] + a)[1..] == a;
    if |a| == 1 {
      Split([a[0] + b[0]], b[1..]);
      Assoc(words, a[0], b[0]);
    } else {
      Split([a[0]], Merge(a[1..], b));
    }
  }

  /** The statements of a concatenation of token sequences. */
  lemma {:induction false} StatementsConcat(a: seq<Token>, b: seq<Token>, lower: Lower)
    ensures Statements(a + b, lower) == Merge(Statements(a, lower), Statements(b, lower))
  {
    var sb := Statements(b, lower);
    if a == [] {
      assert a + b == b;
      assert [] + sb[0] == sb[0] && sb == [sb[0]] + sb[1..];
    } else {
      assert (a + b)[1..] == a[1..] + b;
      StatementsConcat(a[1..], b, lower);
      MergePrepend(WordsOf(a[0], lower), Statements(a[1..], lower), sb);
    }
  }

  // ----- Replacing what follows a token -----

  /** The first token of a sequence, and the rest. */
  lemma Head(t: Token, ts: seq<Token>)
    ensures Render([t] + ts) == Text(t) + Render(ts)
    ensures Tokens([t] + ts) <==> Fits(t, Render(ts)) && Tokens(ts)
  {
    assert ([t] + ts)[1..] == ts;
  }

  lemma Uncons(a: seq<Token>, b: seq<Token>)
    requires a != []
    ensures a + b == [a[0]] + (a[1..] + b)
  {
  }

  lemma {:induction false} RenderConcat(a: seq<Token>, b: seq<Token>)
    ensures Render(a + b) == Render(a) + Render(b)
  {
    if a == [] {
      assert a + b == b;
    } else {
      Uncons(a, b);
      Head(a[0], a[1..] + b);
      RenderConcat(a[1..], b);
      Assoc(Text(a[0]), Render(a[1..]), Render(b));
    }
  }

  lemma {:induction false} TokensSuffix(a: seq<Token>, b: seq<Token>)
    requires Tokens(a + b)
    ensures Tokens(b)
  {
    if a == [] {
      assert a + b == b;
    } else {
      Uncons(a, b);
      Head(a[0], a[1..] + b);
      TokensSuffix(a[1..], b);
    }
  }

  /** A character that neither quotes nor continues any token. */
  predicate Neutral(c: char) {
    c == ' ' || c == ';'
  }

  predicate StartsNeutral(s: string) {
    s != "" && Neutral(s[0])
  }

  /** A token that is complete wherever a neutral character may follow. */
  predicate Closed(t: Token) {
    match t
    case Str(_, closed) => closed
    case EStr(_, _, closed) => closed
    case UStr(_, _, closed) => closed
    case QuotedIdent(_, closed) => closed
    case BlockComment(_, closed) => closed
    case DollarQuote(_, _, closed) => closed
    case UIdent(_, _) => false
    case LineComment(_) => false
    case _ => true
  }

  lemma TagNeedsPrefix(tag: string, m: string, after: string)
    requires StartsNeutral(after) && OpensDollar(tag, m + after)
    ensures OpensDollar(tag, m)
  {
    var d := tag + ['$'];
    assert forall k | 0 <= k < |d| :: d[k] == (m + after)[k] && (d[k] == '$' || TagCont(d[k]));
    assert (m + after)[|m|] == after[0];
    assert d == (m + after)[..|d|] == m[..|d|];
  }

  /** What `t` fits before, it fits before with a neutral character put at any later point:
      where the text ended, if `t` is closed, or where a comment began. */
  lemma FitsNeutral(t: Token, m: string, before: string, after: string)
    requires Fits(t, m + before) && StartsNeutral(after)
    requires before == "" || before[0] == '/' || before[0] == '-'
    requires m == "" && before == "" ==> Closed(t)
    ensures Fits(t, m + after)
  {
    if m == "" {
      assert m + after == after && m + before == before;
    } else {
      assert (m + after)[0] == m[0] == (m + before)[0];
      assert |m| > 1 ==> (m + after)[1] == m[1] == (m + before)[1];
      assert |m| == 1 ==> (m + after)[1] == after[0];
    }
    if t.Other? && t.c == '$' {
      forall tag: string ensures OpensDollar(tag, m + after) ==> OpensDollar(tag, m + before) {
        if OpensDollar(tag, m + after) {
          TagNeedsPrefix(tag, m, after);
          assert tag + ['$'] <= m + before;
        }
      }
    }
  }

  lemma TextNonEmpty(t: Token, rest: string)
    requires Fits(t, rest)
    ensures Text(t) != ""
  {
  }

  lemma RenderNonEmpty(a: seq<Token>, b: seq<Token>)
    requires Tokens(a + b) && a != []
    ensures Render(a) != ""
  {
    Uncons(a, b);
    Head(a[0], a[1..] + b);
    TextNonEmpty(a[0], Render(a[1..] + b));
  }

  /** The tokens `a`, followed by something else than before. */
  lemma {:induction false} TokensNeutral(a: seq<Token>, before: seq<Token>, after: seq<Token>)
    requires Tokens(a + before) && Tokens(after) && StartsNeutral(Render(after))
    requires Render(before) == "" || Render(before)[0] == '/' || Render(before)[0] == '-'
    requires Render(before) == "" && a != [] ==> Closed(a[|a| - 1])
    ensures Tokens(a + after)
  {
    if a == [] {
      assert a + after == after;
    } else {
      var t, rest := a[0], a[1..];
      Uncons(a, before);
      Uncons(a, after);
      Head(t, rest + before);
      Head(t, rest + after);
      assert rest != [] ==> rest[|rest| - 1] == a[|a| - 1];
      TokensNeutral(rest, before, after);
      RenderConcat(rest, before);
      RenderConcat(rest, after);
      if rest != [] {
        RenderNonEmpty(rest, before);
      }
      FitsNeutral(t, Render(rest), Render(before), Render(after));
    }
  }

  // ----- Laws of the scan -----

  predicate IsComment(t: Token) {
    t.LineComment? || t.BlockComment?
  }

  /** Replacing any comment of any input by a space leaves the statements unchanged. */
  lemma CommentIsSpace(sql: string, a: seq<Token>, c: Token, b: seq<Token>, lower: Lower)
    requires Tokenize(sql) == a + ([c] + b) && IsComment(c)
    ensures var spaced := Tokenize(Render(a) + ([' '] + Render(b)));
            && spaced == a + ([Other(' ')] + b)
            && Statements(spaced, lower) == Statements(Tokenize(sql), lower)
            && Refused(spaced) == Refused(Tokenize(sql))
  {
    TokenizeSound(sql);
    SpacedTokens(a, c, b);
    TokenizeUnique(a + ([Other(' ')] + b));
    CommentNoWords(a, c, b, lower);
  }

  lemma SpacedTokens(a: seq<Token>, c: Token, b: seq<Token>)
    requires IsComment(c) && Tokens(a + ([c] + b))
    ensures Tokens(a + ([Other(' ')] + b))
    ensures Render(a + ([Other(' ')] + b)) == Render(a) + ([' '] + Render(b))
  {
    TokensSuffix(a, [c] + b);
    Head(c, b);
    Head(Other(' '), b);
    CommentStart(c, Render(b));
    TokensNeutral(a, [c] + b, [Other(' ')] + b);
    RenderConcat(a, [Other(' ')] + b);
  }

  lemma CommentStart(c: Token, rest: string)
    requires IsComment(c)
    ensures var s := Text(c) + rest; s != "" && (s[0] == '/' || s[0] == '-')
  {
  }

  lemma CommentNoWords(a: seq<Token>, c: Token, b: seq<Token>, lower: Lower)
    requires IsComment(c)
    ensures Statements(a + ([Other(' ')] + b), lower) == Statements(a + ([c] + b), lower)
    ensures Refused(a + ([Other(' ')] + b)) == Refused(a + ([c] + b))
  {
    StatementsConcat(a, [c] + b, lower);
    StatementsConcat(a, [Other(' ')] + b, lower);
    assert ([c] + b)[1..] == b && ([Other(' ')] + b)[1..] == b;
    var s, s' := a + ([c] + b), a + ([Other(' ')] + b);
    assert forall t :: t in s <==> t in a || t == c || t in b;
    assert forall t :: t in s' <==> t in a || t == Other(' ') || t in b;
  }

  /** The scan of `a` ends outside any region. */
  predicate EndsOpen(a: string) {
    var ts := Tokenize(a);
    ts == [] || Closed(ts[|ts| - 1])
  }

  /** For `a` ending in the default state, `a;b` has the tokens of `a`, the semicolon and
      the tokens of `b`, hence the statements of `a` and then those of `b`. */
  lemma JoinedBySemicolon(a: string, b: string, lower: Lower)
    requires EndsOpen(a)
    ensures var ta, tb := Tokenize(a), Tokenize(b);
            && Tokenize(a + ([';'] + b)) == ta + ([Semi] + tb)
            && Statements(Tokenize(a + ([';'] + b)), lower) == Statements(ta, lower) + Statements(tb, lower)
  {
    var ta, tb := Tokenize(a), Tokenize(b);
    TokenizeSound(a);
    TokenizeSound(b);
    Head(Semi, tb);
    assert ta + [] == ta;
    TokensNeutral(ta, [], [Semi] + tb);
    RenderConcat(ta, [Semi] + tb);
    TokenizeUnique(ta + ([Semi] + tb));
    StatementsConcat(ta, [Semi] + tb, lower);
    assert ([Semi] + tb)[1..] == tb;
    MergeNew(Statements(ta, lower), Statements(tb, lower));
  }

  lemma {:induction false} MergeNew<T>(a: seq<seq<T>>, b: seq<seq<T>>)
    requires a != []
    ensures Merge(a, [[]] + b) == a + b
  {
    assert ([[]] + b)[1..] == b;
    if |a| == 1 {
      assert a[0] + [] == a[0] && a == [a[0]];
    } else {
      MergeNew(a[1..], b);
      assert a == [a[0]] + a[1..];
    }
  }

  /** A UIdent token runs to the end of the input, so it is the last one. */
  lemma {:induction false} RefusedAtEnd(ts: seq<Token>) returns (front: seq<Token>, p: char, tail: string)
    requires Tokens(ts) && Refused(ts)
    ensures ts == front + [UIdent(p, tail)]
  {
    assert ts == [ts[0]] + ts[1..];
    if |ts| == 1 {
      front, p, tail := [], ts[0].prefix, ts[0].tail;
    } else {
      Head(ts[0], ts[1..]);
      assert ts[1..] + [] == ts[1..];
      RenderNonEmpty(ts[1..], []);
      front, p, tail := RefusedAtEnd(ts[1..]);
      Assoc([ts[0]], front, [UIdent(p, tail)]);
      front := [ts[0]] + front;
    }
  }

  /** A refused input stays refused whatever is appended after a semicolon. */
  lemma RefusedStays(a: string, b: string)
    requires Refused(Tokenize(a))
    ensures Refused(Tokenize(a + ([';'] + b)))
  {
    TokenizeSound(a);
    var front, p, tail := RefusedAtEnd(Tokenize(a));
    RefusedGoesOn(front, p, tail, [';'] + b);
  }

  lemma RefusedGoesOn(front: seq<Token>, p: char, tail: string, more: string)
    requires Tokens(front + [UIdent(p, tail)])
    ensures Refused(Tokenize(Render(front + [UIdent(p, tail)]) + more))
  {
    var longer := front + [UIdent(p, tail + more)];
    TokensLonger(front, p, tail, tail + more);
    RenderLonger(front, p, tail, more);
    TokenizeUnique(longer);
    assert longer[|front|].UIdent?;
  }

  lemma RenderLonger(front: seq<Token>, p: char, tail: string, more: string)
    ensures Render(front + [UIdent(p, tail + more)]) == Render(front + [UIdent(p, tail)]) + more
  {
    RenderConcat(front, [UIdent(p, tail)]);
    RenderConcat(front, [UIdent(p, tail + more)]);
    RenderOne(UIdent(p, tail));
    RenderOne(UIdent(p, tail + more));
    Assoc(['&', '"'], tail, more);
    Assoc([p], ['&', '"'] + tail, more);
    Assoc(Render(front), Text(UIdent(p, tail)), more);
  }

  lemma RenderOne(t: Token)
    ensures Render([t]) == Text(t)
  {
    assert [t] == [t] + [];
    Head(t, []);
    assert Text(t) + "" == Text(t);
  }

  /** The tokens before a UIdent look at no more than its first characters. */
  lemma {:induction false} TokensLonger(a: seq<Token>, p: char, tail: string, tail': string)
    requires Tokens(a + [UIdent(p, tail)])
    ensures Tokens(a + [UIdent(p, tail')])
  {
    var u, u' := UIdent(p, tail), UIdent(p, tail');
    if a == [] {
      assert a + [u] == [u] + [] && a + [u'] == [u'] + [];
      Head(u, []);
      Head(u', []);
    } else {
      var t, rest := a[0], a[1..];
      Uncons(a, [u]);
      Uncons(a, [u']);
      Head(t, rest + [u]);
      Head(t, rest + [u']);
      TokensLonger(rest, p, tail, tail');
      RenderConcat(rest, [u]);
      RenderConcat(rest, [u']);
      RenderOne(u);
      RenderOne(u');
      TokensSuffix(a, [u]);
      FitsLonger(t, Render(rest), p, tail, tail');
    }
  }

  /** A dollar tag ends before the prefix of a Unicode identifier, so what follows it does not matter. */
  lemma TagBeforeUIdent(tag: string, m: string, p: char, tail: string, tail': string)
    requires IsU(p) && OpensDollar(tag, m + Text(UIdent(p, tail')))
    ensures OpensDollar(tag, m + Text(UIdent(p, tail)))
  {
    var u, u' := Text(UIdent(p, tail)), Text(UIdent(p, tail'));
    var d := tag + ['$'];
    assert (m + u')[|m| + 1] == '&';
    assert forall k | 0 <= k < |d| :: d[k] == (m + u')[k] && (d[k] == '$' || TagCont(d[k]));
    assert |d| <= |m| + 1;
    assert (m + u)[0] == (m + u')[0];
    assert d == (m + u')[..|d|] == (m + u)[..|d|];
  }

  lemma FitsLonger(t: Token, m: string, p: char, tail: string, tail': string)
    requires Fits(t, m + Text(UIdent(p, tail))) && IsU(p)
    ensures Fits(t, m + Text(UIdent(p, tail')))
  {
    var u, u' := Text(UIdent(p, tail)), Text(UIdent(p, tail'));
    assert (m + u)[0] == (m + u')[0] && (m + u)[1] == (m + u')[1];
    if t.Other? && t.c == '$' {
      forall tag: string | OpensDollar(tag, m + u') ensures OpensDollar(tag, m + u) {
        TagBeforeUIdent(tag, m, p, tail, tail');
      }
    }
  }

  // ----- Quoting -----

  /** s.replaceAll('"', '""'). */
  function DoubleQuotes(s: string): string {
    if s == "" then "" else (if s[0] == '"' then ['"', '"'] else [s[0]]) + DoubleQuotes(s[1..])
  }

  function QuoteIdent(s: string): string {
    ['"'] + DoubleQuotes(s) + ['"']
  }

  function QuoteItems(s: string): seq<Item> {
    if s == "" then [] else [if s[0] == '"' then Doubled else Plain(s[0])] + QuoteItems(s[1..])
  }

  lemma {:induction false} QuoteItemsText(s: string)
    ensures ItemsText(QuoteItems(s), '"') == DoubleQuotes(s)
  {
    if s != "" {
      QuoteItemsText(s[1..]);
      assert QuoteItems(s)[1..] == QuoteItems(s[1..]);
    }
  }

  lemma {:induction false} QuoteItemsValue(s: string)
    ensures ItemsValue(QuoteItems(s), '"') == s
  {
    if s != "" {
      QuoteItemsValue(s[1..]);
      assert QuoteItems(s)[1..] == QuoteItems(s[1..]);
    }
  }

  lemma {:induction false} QuoteItemsGood(s: string)
    ensures GoodItems(QuoteItems(s), '"', false, true)
  {
    if s != "" {
      QuoteItemsGood(s[1..]);
      assert QuoteItems(s)[1..] == QuoteItems(s[1..]);
    }
  }

  /** Scanning undoes quoting: a quoted identifier, followed by anything but a further
      quote, is one token, whose value is the original, whatever characters it has. */
  lemma QuoteIdentRoundTrip(s: string, rest: string)
    requires !StartsWith(rest, '"')
    ensures var t := QuotedIdent(QuoteItems(s), true);
            && NextToken(QuoteIdent(s) + rest) == Cut(t, rest)
            && Text(t) == QuoteIdent(s)
            && ItemsValue(t.items, '"') == s
  {
    QuoteItemsText(s);
    QuoteItemsValue(s);
    QuoteItemsGood(s);
    Assoc(['"'], DoubleQuotes(s), ['"']);
    NextTokenFinds(QuotedIdent(QuoteItems(s), true), rest);
  }

  /** ... so quoting is injective. */
  lemma QuoteIdentInjective(s: string, t: string)
    requires QuoteIdent(s) == QuoteIdent(t)
    ensures s == t
  {
    QuoteIdentRoundTrip(s, "");
    QuoteIdentRoundTrip(t, "");
  }
}
