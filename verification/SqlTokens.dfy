/** A token grammar for customer SQL: what each lexical region looks like and what may
    follow it. The scanner in SqlGuard is proved against it. A text is a sequence of
    characters; the grammar only ever looks at ASCII characters, all others may start and
    continue an identifier. */
module SqlTokens {

  // ----- Characters -----

  predicate Letter(c: char) {
    'A' <= c <= 'Z' || 'a' <= c <= 'z' || c == '_'
  }

  predicate Digit(c: char) {
    '0' <= c <= '9'
  }

  predicate IdentStart(c: char) {
    Letter(c) || c >= '\U{0080}'
  }

  predicate IdentCont(c: char) {
    IdentStart(c) || Digit(c) || c == '$'
  }

  predicate TagCont(c: char) {
    Letter(c) || Digit(c)
  }

  predicate StartsWith(s: string, c: char) {
    s != "" && s[0] == c
  }

  // ----- Quoted regions -----

  /** One element of a quoted region: itself, a doubled quote, or a backslash escape. */
  datatype Item = Plain(c: char) | Doubled | Escaped(c: char)

  function ItemText(x: Item, q: char): (s: string)
    ensures s != ""
  {
    match x
    case Plain(c) => [c]
    case Doubled => [q, q]
    case Escaped(c) => ['\\', c]
  }

  function ItemsText(xs: seq<Item>, q: char): string {
    if xs == [] then "" else ItemText(xs[0], q) + ItemsText(xs[1..], q)
  }

  /** The characters the region stands for. */
  function ItemsValue(xs: seq<Item>, q: char): string {
    if xs == [] then ""
    else [match xs[0] case Plain(c) => c case Doubled => q case Escaped(c) => c] + ItemsValue(xs[1..], q)
  }

  /** A plain element is not the quote, and not a backslash where that escapes — except a
      backslash at the very end of the input, which has nothing to escape. */
  predicate GoodItems(xs: seq<Item>, q: char, backslash: bool, closed: bool) {
    xs == [] ||
    (&& GoodItems(xs[1..], q, backslash, closed)
     && match xs[0]
        case Plain(c) => c != q && (backslash && c == '\\' ==> !closed && |xs| == 1)
        case Doubled => !(backslash && q == '\\')
        case Escaped(_) => backslash)
  }

  function Close(q: char, closed: bool): string {
    if closed then [q] else ""
  }

  /** After a closed region comes no further quote; an unclosed one runs to the end. */
  predicate EndsQuoted(q: char, closed: bool, rest: string) {
    if closed then !StartsWith(rest, q) else rest == ""
  }

  // ----- Comments -----

  datatype CommentItem = Open | Shut | Char(c: char)

  function CommentItemText(x: CommentItem): (s: string)
    ensures s != ""
  {
    match x
    case Open => ['/', '*']
    case Shut => ['*', '/']
    case Char(c) => [c]
  }

  function CommentText(xs: seq<CommentItem>): string {
    if xs == [] then "" else CommentItemText(xs[0]) + CommentText(xs[1..])
  }

  /** What follows an opened comment at nesting depth `depth`: the depth stays positive up
      to the last element, which brings it to zero when the comment is closed. A lone `/`
      or `*` does not begin a delimiter. */
  predicate GoodComment(xs: seq<CommentItem>, depth: nat, closed: bool)
    decreases |xs|
  {
    if xs == [] then closed == (depth == 0)
    else
      && depth > 0
      && match xs[0]
         case Open => GoodComment(xs[1..], depth + 1, closed)
         case Shut => GoodComment(xs[1..], depth - 1, closed)
         case Char(c) =>
           && GoodComment(xs[1..], depth, closed)
           && !(c == '/' && StartsWith(CommentText(xs[1..]), '*'))
           && !(c == '*' && StartsWith(CommentText(xs[1..]), '/'))
  }

  // ----- Dollar quotes -----

  predicate IsTag(tag: string) {
    tag == "" || (Letter(tag[0]) && forall k | 0 <= k < |tag| :: TagCont(tag[k]))
  }

  /** `rest` continues a `$` to the opening delimiter of a dollar quote. */
  predicate OpensDollar(tag: string, rest: string) {
    IsTag(tag) && tag + ['$'] <= rest
  }

  function Delimiter(tag: string): string {
    ['$'] + (tag + ['$'])
  }

  predicate OccursAt(needle: string, s: string, k: nat) {
    k <= |s| && needle <= s[k..]
  }

  ghost predicate NoneBefore(needle: string, s: string, n: nat) {
    forall k: nat | k < n :: !OccursAt(needle, s, k)
  }

  /** What follows the opening delimiter. */
  function DollarTail(tag: string, body: string, closed: bool): string {
    body + if closed then Delimiter(tag) else ""
  }

  // ----- Tokens -----

  datatype Token =
    | Str(items: seq<Item>, closed: bool)
    | EStr(prefix: char, items: seq<Item>, closed: bool)
    | UStr(prefix: char, items: seq<Item>, closed: bool)
    | QuotedIdent(items: seq<Item>, closed: bool)
    | UIdent(prefix: char, tail: string)
    | Semi
    | LineComment(line: string)
    | BlockComment(inner: seq<CommentItem>, closed: bool)
    | DollarQuote(tag: string, body: string, closed: bool)
    | Word(word: string)
    | Other(c: char)

  function Text(t: Token): (s: string)
  {
    match t
    case Str(xs, closed) => ['\''] + (ItemsText(xs, '\'') + Close('\'', closed))
    case EStr(p, xs, closed) => [p] + (['\''] + (ItemsText(xs, '\'') + Close('\'', closed)))
    case UStr(p, xs, closed) => [p] + (['&', '\''] + (ItemsText(xs, '\'') + Close('\'', closed)))
    case QuotedIdent(xs, closed) => ['"'] + (ItemsText(xs, '"') + Close('"', closed))
    case UIdent(p, tail) => [p] + (['&', '"'] + tail)
    case Semi => [';']
    case LineComment(line) => ['-', '-'] + line
    case BlockComment(xs, _) => ['/', '*'] + CommentText(xs)
    case DollarQuote(tag, body, closed) => ['$'] + (tag + (['$'] + DollarTail(tag, body, closed)))
    case Word(w) => w
    case Other(c) => [c]
  }

  predicate IsE(c: char) {
    c == 'E' || c == 'e'
  }

  predicate IsU(c: char) {
    c == 'U' || c == 'u'
  }

  /** E'..: the one-letter word `w` is the prefix of a string with backslash escapes. */
  predicate EscapePrefix(w: string, rest: string) {
    |w| == 1 && IsE(w[0]) && StartsWith(rest, '\'')
  }

  /** U&'.. or U&".., with `q` the quote. */
  predicate UnicodePrefix(w: string, rest: string, q: char) {
    |w| == 1 && IsU(w[0]) && |rest| > 1 && rest[0] == '&' && rest[1] == q
  }

  /** `t` is a token of its kind, and the text `rest` that follows does not belong to it. */
  ghost predicate Fits(t: Token, rest: string) {
    match t
    case Str(xs, closed) => GoodItems(xs, '\'', false, closed) && EndsQuoted('\'', closed, rest)
    case EStr(p, xs, closed) =>
      IsE(p) && GoodItems(xs, '\'', true, closed) && EndsQuoted('\'', closed, rest)
    case UStr(p, xs, closed) =>
      IsU(p) && GoodItems(xs, '\'', false, closed) && EndsQuoted('\'', closed, rest)
    case QuotedIdent(xs, closed) => GoodItems(xs, '"', false, closed) && EndsQuoted('"', closed, rest)
    case UIdent(p, _) => IsU(p) && rest == ""
    case Semi => true
    case LineComment(line) => '\n' !in line && (rest == "" || rest[0] == '\n')
    case BlockComment(xs, closed) => GoodComment(xs, 1, closed) && (closed || rest == "")
    case DollarQuote(tag, body, closed) =>
      && IsTag(tag)
      && NoneBefore(Delimiter(tag), DollarTail(tag, body, closed), |body|)
      && (closed || rest == "")
    case Word(w) =>
      && w != "" && IdentStart(w[0]) && (forall k | 0 <= k < |w| :: IdentCont(w[k]))
      && (rest == "" || !IdentCont(rest[0]))
      && !EscapePrefix(w, rest) && !UnicodePrefix(w, rest, '\'') && !UnicodePrefix(w, rest, '"')
    case Other(c) =>
      && c != '\'' && c != '"' && c != ';' && !IdentStart(c)
      && !(c == '-' && StartsWith(rest, '-'))
      && !(c == '/' && StartsWith(rest, '*'))
      && (c == '$' ==> forall tag: string :: !OpensDollar(tag, rest))
  }

  function Render(ts: seq<Token>): string {
    if ts == [] then "" else Text(ts[0]) + Render(ts[1..])
  }

  /** The grammar of whole inputs: each token fits what comes after it. */
  ghost predicate Tokens(ts: seq<Token>) {
    ts == [] || (Fits(ts[0], Render(ts[1..])) && Tokens(ts[1..]))
  }

  // ----- The scan: what it cuts off, and what is left of the input -----

  datatype Quoted = Quoted(items: seq<Item>, closed: bool, rest: string)
  datatype Comment = Comment(inner: seq<CommentItem>, closed: bool, rest: string)
  datatype Cut = Cut(token: Token, rest: string)

  function ScanItems(s: string, q: char, backslash: bool): (r: Quoted)
    ensures |r.rest| <= |s|
  {
    if s == "" then Quoted([], false, "")
    else if backslash && s[0] == '\\' && |s| > 1 then
      var r := ScanItems(s[2..], q, backslash);
      r.(items := [Escaped(s[1])] + r.items)
    else if s[0] == q && |s| > 1 && s[1] == q then
      var r := ScanItems(s[2..], q, backslash);
      r.(items := [Doubled] + r.items)
    else if s[0] == q then Quoted([], true, s[1..])
    else
      var r := ScanItems(s[1..], q, backslash);
      r.(items := [Plain(s[0])] + r.items)
  }

  function ScanComment(s: string, depth: nat): (r: Comment)
    ensures |r.rest| <= |s|
    decreases |s|
  {
    if depth == 0 then Comment([], true, s)
    else if s == "" then Comment([], false, "")
    else if s[0] == '/' && |s| > 1 && s[1] == '*' then
      var r := ScanComment(s[2..], depth + 1);
      r.(inner := [Open] + r.inner)
    else if s[0] == '*' && |s| > 1 && s[1] == '/' then
      var r := ScanComment(s[2..], depth - 1);
      r.(inner := [Shut] + r.inner)
    else
      var r := ScanComment(s[1..], depth);
      r.(inner := [Char(s[0])] + r.inner)
  }

  /** The longest prefix of identifier characters. */
  function ScanIdent(s: string): (w: string)
    ensures |w| <= |s|
  {
    if s == "" || !IdentCont(s[0]) then "" else [s[0]] + ScanIdent(s[1..])
  }

  function ScanLine(s: string): (line: string)
    ensures |line| <= |s|
  {
    if s == "" || s[0] == '\n' then "" else [s[0]] + ScanLine(s[1..])
  }

  function ScanTag(s: string): (tag: string)
    ensures |tag| <= |s|
  {
    if s == "" || !TagCont(s[0]) then "" else [s[0]] + ScanTag(s[1..])
  }

  /** Whether a `$` followed by `rest` opens a dollar quote: the match of the scanner's
      regular expression. */
  predicate DollarOpens(rest: string) {
    var tag := ScanTag(rest);
    IsTag(tag) && |tag| < |rest| && rest[|tag|] == '$'
  }

  /** The first occurrence of `needle` in `s`, or |s| when there is none. */
  function Find(needle: string, s: string): (k: nat)
    ensures k <= |s|
  {
    if s == "" || needle <= s then 0 else Find(needle, s[1..]) + 1
  }

  function ScanDollar(after: string): (r: Cut)
    requires DollarOpens(after)
    ensures |r.rest| <= |after|
  {
    var tag := ScanTag(after);
    var inner := after[|tag| + 1..];
    var k := Find(Delimiter(tag), inner);
    if k < |inner| && k + |tag| + 2 <= |inner| then
      Cut(DollarQuote(tag, inner[..k], true), inner[k + |tag| + 2..])
    else
      Cut(DollarQuote(tag, inner, false), "")
  }

  function ScanWord(s: string): (r: Cut)
    requires s != "" && IdentStart(s[0])
    ensures |r.rest| < |s|
  {
    var w := ScanIdent(s);
    var rest := s[|w|..];
    if EscapePrefix(w, rest) then
      var r := ScanItems(rest[1..], '\'', true);
      Cut(EStr(w[0], r.items, r.closed), r.rest)
    else if UnicodePrefix(w, rest, '"') then
      Cut(UIdent(w[0], rest[2..]), "")
    else if UnicodePrefix(w, rest, '\'') then
      var r := ScanItems(rest[2..], '\'', false);
      Cut(UStr(w[0], r.items, r.closed), r.rest)
    else
      Cut(Word(w), rest)
  }

  function NextToken(s: string): (r: Cut)
    requires s != ""
    ensures |r.rest| < |s|
  {
    var c, rest := s[0], s[1..];
    if c == '\'' then
      var r := ScanItems(rest, '\'', false);
      Cut(Str(r.items, r.closed), r.rest)
    else if c == '"' then
      var r := ScanItems(rest, '"', false);
      Cut(QuotedIdent(r.items, r.closed), r.rest)
    else if c == ';' then Cut(Semi, rest)
    else if c == '-' && StartsWith(rest, '-') then
      var line := ScanLine(rest[1..]);
      Cut(LineComment(line), rest[1..][|line|..])
    else if c == '/' && StartsWith(rest, '*') then
      var r := ScanComment(rest[1..], 1);
      Cut(BlockComment(r.inner, r.closed), r.rest)
    else if c == '$' && DollarOpens(rest) then ScanDollar(rest)
    else if IdentStart(c) then ScanWord(s)
    else Cut(Other(c), rest)
  }

  // ----- Sequence steps the proofs below take one at a time -----

  lemma Assoc<T>(a: seq<T>, b: seq<T>, c: seq<T>)
    ensures (a + b) + c == a + (b + c)
  {
  }

  lemma Split<T>(a: seq<T>, b: seq<T>)
    ensures (a + b)[|a|..] == b && (a + b)[..|a|] == a
  {
  }

  lemma Drop<T>(s: seq<T>, i: nat, k: nat)
    requires i + k <= |s|
    ensures s[i..][k..] == s[i + k..]
  {
  }

  lemma Cons(s: string)
    requires s != ""
    ensures s == [s[0]] + s[1..]
    ensures |s| > 1 ==> s == [s[0], s[1]] + s[2..]
  {
  }

  // ----- Each region scanned is a token followed by the rest of the input -----

  lemma {:induction false} ScanItemsFits(s: string, q: char, backslash: bool)
    requires !(backslash && q == '\\')
    ensures var r := ScanItems(s, q, backslash);
            && s == ItemsText(r.items, q) + (Close(q, r.closed) + r.rest)
            && GoodItems(r.items, q, backslash, r.closed)
            && EndsQuoted(q, r.closed, r.rest)
    decreases |s|
  {
    if s != "" {
      var n := if (backslash && s[0] == '\\' && |s| > 1) || (s[0] == q && |s| > 1 && s[1] == q) then 2 else 1;
      Cons(s);
      if n == 2 || s[0] != q {
        var r, t := ScanItems(s, q, backslash), ScanItems(s[n..], q, backslash);
        ScanItemsFits(s[n..], q, backslash);
        assert r.items[1..] == t.items;
        Assoc(ItemText(r.items[0], q), ItemsText(t.items, q), Close(q, t.closed) + t.rest);
      }
    }
  }

  lemma {:induction false} ScanItemsFinds(xs: seq<Item>, q: char, backslash: bool, closed: bool, rest: string)
    requires !(backslash && q == '\\')
    requires GoodItems(xs, q, backslash, closed) && EndsQuoted(q, closed, rest)
    ensures ScanItems(ItemsText(xs, q) + (Close(q, closed) + rest), q, backslash) == Quoted(xs, closed, rest)
    decreases |xs|
  {
    if xs == [] {
      assert ItemsText(xs, q) + (Close(q, closed) + rest) == Close(q, closed) + rest;
    } else {
      var tail := ItemsText(xs[1..], q) + (Close(q, closed) + rest);
      Assoc(ItemText(xs[0], q), ItemsText(xs[1..], q), Close(q, closed) + rest);
      Split(ItemText(xs[0], q), tail);
      ScanItemsFinds(xs[1..], q, backslash, closed, rest);
      assert [xs[0]] + xs[1..] == xs;
      assert xs[0].Plain? && backslash && xs[0].c == '\\' ==> tail == "";
    }
  }

  lemma {:induction false} ScanCommentFits(s: string, depth: nat)
    ensures var r := ScanComment(s, depth);
            && s == CommentText(r.inner) + r.rest
            && GoodComment(r.inner, depth, r.closed)
            && (r.closed || r.rest == "")
    decreases |s|
  {
    if depth != 0 && s != "" {
      Cons(s);
      var r := ScanComment(s, depth);
      if s[0] == '/' && |s| > 1 && s[1] == '*' {
        ScanCommentFits(s[2..], depth + 1);
      } else if s[0] == '*' && |s| > 1 && s[1] == '/' {
        ScanCommentFits(s[2..], depth - 1);
      } else {
        ScanCommentFits(s[1..], depth);
        assert r.inner[1..] == ScanComment(s[1..], depth).inner;
      }
      Assoc(CommentItemText(r.inner[0]), CommentText(r.inner[1..]), r.rest);
    }
  }

  lemma CommentStarts(xs: seq<CommentItem>, depth: nat, closed: bool, rest: string)
    requires GoodComment(xs, depth, closed) && (closed || rest == "") && depth > 0
    ensures forall c :: StartsWith(CommentText(xs) + rest, c) <==> StartsWith(CommentText(xs), c)
  {
    if xs != [] {
      assert (CommentText(xs) + rest)[0] == CommentText(xs)[0];
    }
  }

  lemma {:induction false} ScanCommentFinds(xs: seq<CommentItem>, depth: nat, closed: bool, rest: string)
    requires GoodComment(xs, depth, closed) && (closed || rest == "")
    ensures ScanComment(CommentText(xs) + rest, depth) == Comment(xs, closed, rest)
    decreases |xs|
  {
    if xs == [] {
      assert CommentText(xs) + rest == rest;
    } else {
      var tail := CommentText(xs[1..]) + rest;
      Assoc(CommentItemText(xs[0]), CommentText(xs[1..]), rest);
      Split(CommentItemText(xs[0]), tail);
      assert [xs[0]] + xs[1..] == xs;
      match xs[0]
      case Open => ScanCommentFinds(xs[1..], depth + 1, closed, rest);
      case Shut => ScanCommentFinds(xs[1..], depth - 1, closed, rest);
      case Char(c) =>
        CommentStarts(xs[1..], depth, closed, rest);
        ScanCommentFinds(xs[1..], depth, closed, rest);
    }
  }

  lemma {:induction false} ScanIdentFits(s: string)
    ensures var w := ScanIdent(s);
            && s == w + s[|w|..]
            && (forall k | 0 <= k < |w| :: IdentCont(w[k]))
            && (s[|w|..] == "" || !IdentCont(s[|w|..][0]))
  {
    if s != "" && IdentCont(s[0]) {
      ScanIdentFits(s[1..]);
    }
  }

  lemma {:induction false} ScanLineFits(s: string)
    ensures var line := ScanLine(s);
            && s == line + s[|line|..]
            && '\n' !in line
            && (s[|line|..] == "" || s[|line|..][0] == '\n')
  {
    if s != "" && s[0] != '\n' {
      ScanLineFits(s[1..]);
    }
  }

  lemma {:induction false} ScanTagFits(s: string)
    ensures var tag := ScanTag(s);
            && s == tag + s[|tag|..]
            && (forall k | 0 <= k < |tag| :: TagCont(tag[k]))
  {
    if s != "" && TagCont(s[0]) {
      ScanTagFits(s[1..]);
    }
  }

  lemma {:induction false} ScanIdentFinds(w: string, rest: string)
    requires (forall k | 0 <= k < |w| :: IdentCont(w[k])) && (rest == "" || !IdentCont(rest[0]))
    ensures ScanIdent(w + rest) == w
  {
    if w == "" {
      assert w + rest == rest;
    } else {
      assert (w + rest)[1..] == w[1..] + rest;
      ScanIdentFinds(w[1..], rest);
    }
  }

  lemma {:induction false} ScanLineFinds(line: string, rest: string)
    requires '\n' !in line && (rest == "" || rest[0] == '\n')
    ensures ScanLine(line + rest) == line
  {
    if line == "" {
      assert line + rest == rest;
    } else {
      assert (line + rest)[1..] == line[1..] + rest;
      ScanLineFinds(line[1..], rest);
    }
  }

  lemma {:induction false} ScanTagFinds(tag: string, rest: string)
    requires (forall k | 0 <= k < |tag| :: TagCont(tag[k])) && StartsWith(rest, '$')
    ensures ScanTag(tag + rest) == tag
  {
    if tag == "" {
      assert tag + rest == rest;
    } else {
      assert (tag + rest)[1..] == tag[1..] + rest;
      ScanTagFinds(tag[1..], rest);
    }
  }

  // ----- Dollar quotes -----

  /** The regular expression finds a tag exactly when there is one, and finds that one. */
  lemma DollarTag(tag: string, rest: string)
    requires OpensDollar(tag, rest)
    ensures DollarOpens(rest) && ScanTag(rest) == tag
  {
    var inner := rest[|tag| + 1..];
    assert rest == tag + (['$'] + inner);
    ScanTagFinds(tag, ['$'] + inner);
  }

  lemma DollarOpensTag(rest: string)
    requires DollarOpens(rest)
    ensures var tag := ScanTag(rest);
            OpensDollar(tag, rest) && rest == tag + (['$'] + rest[|tag| + 1..])
  {
    ScanTagFits(rest);
    var tag := ScanTag(rest);
    assert rest[..|tag| + 1] == tag + ['$'];
  }

  lemma NoTagNoDollar(rest: string)
    ensures DollarOpens(rest) || forall tag: string :: !OpensDollar(tag, rest)
  {
    forall tag: string ensures OpensDollar(tag, rest) ==> DollarOpens(rest) {
      if OpensDollar(tag, rest) {
        DollarTag(tag, rest);
      }
    }
  }

  lemma OccursInPrefix(needle: string, s: string, n: nat, k: nat)
    requires k + |needle| <= n <= |s|
    ensures OccursAt(needle, s[..n], k) <==> OccursAt(needle, s, k)
  {
    assert s[..n][k..][..|needle|] == s[k..][..|needle|];
  }

  /** Find is the first occurrence. */
  lemma {:induction false} FindFits(needle: string, s: string)
    requires needle != ""
    ensures var k := Find(needle, s);
            NoneBefore(needle, s, k) && (k < |s| <==> OccursAt(needle, s, k))
  {
    if s != "" && !(needle <= s) {
      FindFits(needle, s[1..]);
      forall j: nat | 0 < j <= |s| ensures OccursAt(needle, s, j) <==> OccursAt(needle, s[1..], j - 1) {
        assert s[j..] == s[1..][j - 1..];
      }
      assert s[0..] == s;
    }
  }

  lemma FindFirst(needle: string, body: string, rest: string)
    requires needle != "" && NoneBefore(needle, body + needle, |body|)
    ensures Find(needle, body + (needle + rest)) == |body|
  {
    var s := body + (needle + rest);
    assert s[..|body + needle|] == body + needle;
    forall k: nat | k < |body| ensures !OccursAt(needle, s, k) {
      OccursInPrefix(needle, s, |body + needle|, k);
    }
    assert s[|body|..] == needle + rest;
    assert OccursAt(needle, s, |body|);
    FindFits(needle, s);
  }

  /** Past the opening delimiter: up to the first closing one, or to the end of the input. */
  lemma DollarBodyFits(d: string, inner: string)
    requires d != ""
    ensures var k := Find(d, inner);
            if k < |inner| then
              && k + |d| <= |inner|
              && inner == (inner[..k] + d) + inner[k + |d|..]
              && NoneBefore(d, inner[..k] + d, k)
            else
              NoneBefore(d, inner, |inner|)
  {
    var k := Find(d, inner);
    FindFits(d, inner);
    if k < |inner| {
      assert inner == inner[..k] + inner[k..];
      var tail := inner[..k + |d|];
      assert inner[..k] + d == tail;
      forall j: nat | j < k ensures !OccursAt(d, tail, j) {
        OccursInPrefix(d, inner, k + |d|, j);
      }
    }
  }

  lemma ScanDollarFits(after: string)
    requires DollarOpens(after)
    ensures var r := ScanDollar(after);
            ['$'] + after == Text(r.token) + r.rest && Fits(r.token, r.rest)
  {
    var tag := ScanTag(after);
    var d, inner := Delimiter(tag), after[|tag| + 1..];
    var k := Find(d, inner);
    DollarOpensTag(after);
    DollarBodyFits(d, inner);
    if k < |inner| {
      var body, rest := inner[..k], inner[k + |d|..];
      assert DollarTail(tag, body, true) == body + d;
      assert ScanDollar(after) == Cut(DollarQuote(tag, body, true), rest);
      DollarText(tag, body + d, rest);
    } else {
      assert DollarTail(tag, inner, false) == inner;
      assert ScanDollar(after) == Cut(DollarQuote(tag, inner, false), "");
      assert inner + "" == inner;
      DollarText(tag, inner, "");
    }
  }

  lemma DollarText(tag: string, tail: string, rest: string)
    ensures ['$'] + (tag + (['$'] + (tail + rest))) == (['$'] + (tag + (['$'] + tail))) + rest
  {
    Assoc(['$'], tail, rest);
    Assoc(tag, ['$'] + tail, rest);
    Assoc(['$'], tag + (['$'] + tail), rest);
  }

  lemma DollarTailFinds(tag: string, body: string, closed: bool, rest: string)
    requires NoneBefore(Delimiter(tag), DollarTail(tag, body, closed), |body|) && (closed || rest == "")
    ensures var inner := DollarTail(tag, body, closed) + rest;
            var k := Find(Delimiter(tag), inner);
            && k == |body| && inner[..k] == body && (k < |inner| <==> closed)
            && if closed then k + |tag| + 2 <= |inner| && inner[k + |tag| + 2..] == rest else inner == body
  {
    var d, inner := Delimiter(tag), DollarTail(tag, body, closed) + rest;
    if closed {
      Assoc(body, d, rest);
      FindFirst(d, body, rest);
    } else {
      assert inner == body == DollarTail(tag, body, closed);
      FindFits(d, body);
    }
  }

  lemma DollarTagFinds(tag: string, inner: string)
    requires IsTag(tag)
    ensures var after := tag + (['$'] + inner);
            DollarOpens(after) && ScanTag(after) == tag && after[|tag| + 1..] == inner
  {
    ScanTagFinds(tag, ['$'] + inner);
  }

  lemma ScanDollarFinds(tag: string, body: string, closed: bool, rest: string)
    requires Fits(DollarQuote(tag, body, closed), rest)
    ensures NextToken(Text(DollarQuote(tag, body, closed)) + rest) == Cut(DollarQuote(tag, body, closed), rest)
  {
    var tail := DollarTail(tag, body, closed);
    var after := tag + (['$'] + (tail + rest));
    DollarTailFinds(tag, body, closed, rest);
    DollarTagFinds(tag, tail + rest);
    DollarText(tag, tail, rest);
    Split(['$'], after);
  }

  // ----- Words and prefixed strings -----

  lemma ScanWordFits(s: string)
    requires s != "" && IdentStart(s[0])
    ensures var r := ScanWord(s);
            Text(r.token) != "" && s == Text(r.token) + r.rest && Fits(r.token, r.rest)
  {
    ScanIdentFits(s);
    var w := ScanIdent(s);
    var rest := s[|w|..];
    if EscapePrefix(w, rest) {
      EStrFits(w, rest);
    } else if UnicodePrefix(w, rest, '"') {
      Cons(rest);
      assert w == [w[0]];
    } else if UnicodePrefix(w, rest, '\'') {
      UStrFits(w, rest);
    }
  }

  lemma EStrFits(w: string, rest: string)
    requires EscapePrefix(w, rest)
    ensures var r := ScanItems(rest[1..], '\'', true);
            var t := EStr(w[0], r.items, r.closed);
            w + rest == Text(t) + r.rest && Fits(t, r.rest)
  {
    var r := ScanItems(rest[1..], '\'', true);
    ScanItemsFits(rest[1..], '\'', true);
    Cons(rest);
    var inner, close := ItemsText(r.items, '\''), Close('\'', r.closed);
    Assoc(inner, close, r.rest);
    Assoc(['\''], inner + close, r.rest);
    Assoc([w[0]], ['\''] + (inner + close), r.rest);
    assert w == [w[0]];
  }

  lemma UStrFits(w: string, rest: string)
    requires UnicodePrefix(w, rest, '\'')
    ensures var r := ScanItems(rest[2..], '\'', false);
            var t := UStr(w[0], r.items, r.closed);
            w + rest == Text(t) + r.rest && Fits(t, r.rest)
  {
    var r := ScanItems(rest[2..], '\'', false);
    ScanItemsFits(rest[2..], '\'', false);
    Cons(rest);
    var inner, close := ItemsText(r.items, '\''), Close('\'', r.closed);
    Assoc(inner, close, r.rest);
    Assoc(['&', '\''], inner + close, r.rest);
    Assoc([w[0]], ['&', '\''] + (inner + close), r.rest);
    assert w == [w[0]];
  }

  /** A one-letter word followed by something that does not continue it. */
  lemma LetterFinds(p: char, after: string)
    requires IdentStart(p) && after != "" && !IdentCont(after[0])
    ensures ScanIdent([p] + after) == [p] && ([p] + after)[1..] == after
  {
    ScanIdentFinds([p], after);
  }

  lemma EStrFinds(p: char, xs: seq<Item>, closed: bool, rest: string)
    requires Fits(EStr(p, xs, closed), rest)
    ensures NextToken(Text(EStr(p, xs, closed)) + rest) == Cut(EStr(p, xs, closed), rest)
  {
    var items, close := ItemsText(xs, '\''), Close('\'', closed);
    var inner := items + (close + rest);
    var after := ['\''] + inner;
    Assoc(items, close, rest);
    Assoc(['\''], items + close, rest);
    Assoc([p], ['\''] + (items + close), rest);
    LetterFinds(p, after);
    Split(['\''], inner);
    ScanItemsFinds(xs, '\'', true, closed, rest);
    assert ScanWord([p] + after) == Cut(EStr(p, xs, closed), rest);
  }

  lemma UStrFinds(p: char, xs: seq<Item>, closed: bool, rest: string)
    requires Fits(UStr(p, xs, closed), rest)
    ensures NextToken(Text(UStr(p, xs, closed)) + rest) == Cut(UStr(p, xs, closed), rest)
  {
    var items, close := ItemsText(xs, '\''), Close('\'', closed);
    var inner := items + (close + rest);
    var after := ['&', '\''] + inner;
    Assoc(items, close, rest);
    Assoc(['&', '\''], items + close, rest);
    Assoc([p], ['&', '\''] + (items + close), rest);
    LetterFinds(p, after);
    Split(['&', '\''], inner);
    ScanItemsFinds(xs, '\'', false, closed, rest);
    assert ScanWord([p] + after) == Cut(UStr(p, xs, closed), rest);
  }

  lemma UIdentFinds(p: char, tail: string)
    requires IsU(p)
    ensures NextToken(Text(UIdent(p, tail))) == Cut(UIdent(p, tail), "")
  {
    var after := ['&', '"'] + tail;
    LetterFinds(p, after);
    Split(['&', '"'], tail);
    assert ScanWord([p] + after) == Cut(UIdent(p, tail), "");
  }

  lemma WordFinds(w: string, rest: string)
    requires Fits(Word(w), rest)
    ensures NextToken(Text(Word(w)) + rest) == Cut(Word(w), rest)
  {
    ScanIdentFinds(w, rest);
    Split(w, rest);
  }

  // ----- Strings, quoted identifiers, comments, single characters -----

  lemma QuotedFits(q: char, s: string)
    requires q != '\\'
    ensures var r := ScanItems(s, q, false);
            [q] + s == ([q] + (ItemsText(r.items, q) + Close(q, r.closed))) + r.rest
  {
    var r := ScanItems(s, q, false);
    ScanItemsFits(s, q, false);
    Assoc(ItemsText(r.items, q), Close(q, r.closed), r.rest);
    Assoc([q], ItemsText(r.items, q) + Close(q, r.closed), r.rest);
  }

  lemma QuotedFinds(q: char, xs: seq<Item>, closed: bool, rest: string)
    requires q != '\\' && GoodItems(xs, q, false, closed) && EndsQuoted(q, closed, rest)
    ensures var s := ([q] + (ItemsText(xs, q) + Close(q, closed))) + rest;
            s[0] == q && ScanItems(s[1..], q, false) == Quoted(xs, closed, rest)
  {
    var inner := ItemsText(xs, q) + (Close(q, closed) + rest);
    Assoc(ItemsText(xs, q), Close(q, closed), rest);
    Assoc([q], ItemsText(xs, q) + Close(q, closed), rest);
    Split([q], inner);
    ScanItemsFinds(xs, q, false, closed, rest);
  }

  lemma LineCommentFinds(line: string, rest: string)
    requires Fits(LineComment(line), rest)
    ensures NextToken(Text(LineComment(line)) + rest) == Cut(LineComment(line), rest)
  {
    var s := Text(LineComment(line)) + rest;
    Assoc(['-', '-'], line, rest);
    assert s[1..][1..] == line + rest;
    ScanLineFinds(line, rest);
    Split(line, rest);
  }

  lemma BlockCommentFinds(xs: seq<CommentItem>, closed: bool, rest: string)
    requires Fits(BlockComment(xs, closed), rest)
    ensures NextToken(Text(BlockComment(xs, closed)) + rest) == Cut(BlockComment(xs, closed), rest)
  {
    var s := Text(BlockComment(xs, closed)) + rest;
    Assoc(['/', '*'], CommentText(xs), rest);
    assert s[1..][1..] == CommentText(xs) + rest;
    ScanCommentFinds(xs, 1, closed, rest);
  }

  lemma OtherFinds(c: char, rest: string)
    requires Fits(Other(c), rest)
    ensures NextToken(Text(Other(c)) + rest) == Cut(Other(c), rest)
  {
    Split([c], rest);
    if DollarOpens(rest) {
      DollarOpensTag(rest);
    }
  }

  // ----- The next token -----

  /** Every token the scan cuts off belongs to the grammar and is a prefix of the input. */
  lemma NextTokenFits(s: string)
    requires s != ""
    ensures var r := NextToken(s);
            Text(r.token) != "" && s == Text(r.token) + r.rest && Fits(r.token, r.rest)
  {
    var c, rest := s[0], s[1..];
    Cons(s);
    if c == '\'' || c == '"' {
      ScanItemsFits(rest, c, false);
      QuotedFits(c, rest);
    } else if c == '-' && StartsWith(rest, '-') {
      ScanLineFits(rest[1..]);
      assert s == ['-', '-'] + rest[1..];
      Assoc(['-', '-'], ScanLine(rest[1..]), NextToken(s).rest);
    } else if c == '/' && StartsWith(rest, '*') {
      ScanCommentFits(rest[1..], 1);
      assert s == ['/', '*'] + rest[1..];
      Assoc(['/', '*'], CommentText(ScanComment(rest[1..], 1).inner), NextToken(s).rest);
    } else if c == '$' && DollarOpens(rest) {
      ScanDollarFits(rest);
    } else if IdentStart(c) {
      ScanWordFits(s);
    } else if c == '$' {
      NoTagNoDollar(rest);
    }
  }

  /** ... and it is the only one: a token of the grammar followed by what fits it is what
      the scan finds there. */
  lemma NextTokenFinds(t: Token, rest: string)
    requires Fits(t, rest)
    ensures Text(t) + rest != "" && NextToken(Text(t) + rest) == Cut(t, rest)
  {
    match t
    case Str(xs, closed) => QuotedFinds('\'', xs, closed, rest);
    case EStr(p, xs, closed) => EStrFinds(p, xs, closed, rest);
    case UStr(p, xs, closed) => UStrFinds(p, xs, closed, rest);
    case QuotedIdent(xs, closed) => QuotedFinds('"', xs, closed, rest);
    case UIdent(p, tail) =>
      UIdentFinds(p, tail);
      assert Text(t) + rest == Text(t);
    case Semi => Split([';'], rest);
    case LineComment(line) => LineCommentFinds(line, rest);
    case BlockComment(xs, closed) => BlockCommentFinds(xs, closed, rest);
    case DollarQuote(tag, body, closed) => ScanDollarFinds(tag, body, closed, rest);
    case Word(w) => WordFinds(w, rest);
    case Other(c) => OtherFinds(c, rest);
  }

  // ----- Whole inputs -----

  function Tokenize(s: string): seq<Token>
    decreases |s|
  {
    if s == "" then [] else [NextToken(s).token] + Tokenize(NextToken(s).rest)
  }

  /** The scan cuts any input into tokens of the grammar whose texts concatenate back to it. */
  lemma {:induction false} TokenizeSound(s: string)
    ensures Tokens(Tokenize(s)) && Render(Tokenize(s)) == s
    decreases |s|
  {
    if s != "" {
      var r := NextToken(s);
      NextTokenFits(s);
      TokenizeSound(r.rest);
      assert Tokenize(s)[1..] == Tokenize(r.rest);
    }
  }

  /** ... in the only possible way: scanning the text of any token sequence of the grammar
      gives that sequence. */
  lemma {:induction false} TokenizeUnique(ts: seq<Token>)
    requires Tokens(ts)
    ensures Tokenize(Render(ts)) == ts
  {
    if ts != [] {
      NextTokenFinds(ts[0], Render(ts[1..]));
      TokenizeUnique(ts[1..]);
    }
  }
}
