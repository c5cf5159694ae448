/** The regions the guard skips, spelled out character by character: strings, escape strings,
    comments and dollar quotes. What is written in them never matters. */
module SqlRegions {
  import opened SqlTokens
  import opened StatementLaws
  import opened SqlWords
  import opened PrivilegeGuard
  import opened GuardLaws

  // ----- How regions are written -----

  /** s.replace("'", "''"). */
  function DoubleSingles(s: string): string {
    if s == "" then "" else (if s[0] == '\'' then ['\'', '\''] else [s[0]]) + DoubleSingles(s[1..])
  }

  /** Quotes and backslashes behind a backslash. */
  function Backslashes(s: string): string {
    if s == "" then "" else (if s[0] == '\'' || s[0] == '\\' then ['\\', s[0]] else [s[0]]) + Backslashes(s[1..])
  }

  function SingleItems(s: string): seq<Item> {
    if s == "" then [] else [if s[0] == '\'' then Doubled else Plain(s[0])] + SingleItems(s[1..])
  }

  function EscapeItems(s: string): seq<Item> {
    if s == "" then [] else [if s[0] == '\'' || s[0] == '\\' then Escaped(s[0]) else Plain(s[0])] + EscapeItems(s[1..])
  }

  lemma {:induction false} SingleItemsAre(s: string, closed: bool)
    ensures ItemsText(SingleItems(s), '\'') == DoubleSingles(s) && GoodItems(SingleItems(s), '\'', false, closed)
  {
    if s != "" {
      SingleItemsAre(s[1..], closed);
      assert SingleItems(s)[1..] == SingleItems(s[1..]);
    }
  }

  lemma {:induction false} EscapeItemsAre(s: string)
    ensures ItemsText(EscapeItems(s), '\'') == Backslashes(s) && GoodItems(EscapeItems(s), '\'', true, true)
  {
    if s != "" {
      EscapeItemsAre(s[1..]);
      assert EscapeItems(s)[1..] == EscapeItems(s[1..]);
    }
  }

  /** A comment's body: text without delimiters, and comments within it. */
  datatype Remark = Note(text: string) | Nested(before: string, inner: Remark, after: Remark)

  predicate NoDelimiters(s: string) {
    '/' !in s && '*' !in s
  }

  predicate Proper(r: Remark) {
    match r
    case Note(text) => NoDelimiters(text)
    case Nested(before, inner, after) => NoDelimiters(before) && Proper(inner) && Proper(after)
  }

  function Body(r: Remark): string {
    match r
    case Note(text) => text
    case Nested(before, inner, after) => before + (['/', '*'] + (Body(inner) + (['*', '/'] + Body(after))))
  }

  function Chars(s: string): seq<CommentItem> {
    if s == "" then [] else [Char(s[0])] + Chars(s[1..])
  }

  function Items(r: Remark): seq<CommentItem> {
    match r
    case Note(text) => Chars(text)
    case Nested(before, inner, after) => Chars(before) + ([Open] + (Items(inner) + ([Shut] + Items(after))))
  }

  lemma CharBefore(c: char, xs: seq<CommentItem>, depth: nat, closed: bool)
    requires c != '/' && c != '*' && depth > 0 && GoodComment(xs, depth, closed)
    ensures GoodComment([Char(c)] + xs, depth, closed) && CommentText([Char(c)] + xs) == [c] + CommentText(xs)
  {
    assert ([Char(c)] + xs)[1..] == xs;
  }

  lemma {:induction false} CharsBefore(s: string, xs: seq<CommentItem>, depth: nat, closed: bool)
    requires NoDelimiters(s) && depth > 0 && GoodComment(xs, depth, closed)
    ensures GoodComment(Chars(s) + xs, depth, closed) && CommentText(Chars(s) + xs) == s + CommentText(xs)
  {
    if s == "" {
      assert Chars(s) + xs == xs;
    } else {
      var rest := Chars(s[1..]) + xs;
      CharsBefore(s[1..], xs, depth, closed);
      Assoc([Char(s[0])], Chars(s[1..]), xs);
      assert Chars(s) + xs == [Char(s[0])] + rest;
      assert s[0] in s;
      CharBefore(s[0], rest, depth, closed);
      assert s == [s[0]] + s[1..];
      Assoc([s[0]], s[1..], CommentText(xs));
    }
  }

  lemma ItemBefore(x: CommentItem, xs: seq<CommentItem>)
    ensures CommentText([x] + xs) == CommentItemText(x) + CommentText(xs)
  {
    assert ([x] + xs)[1..] == xs;
  }

  lemma OpenBefore(xs: seq<CommentItem>, depth: nat, closed: bool)
    requires depth > 0 && GoodComment(xs, depth + 1, closed)
    ensures GoodComment([Open] + xs, depth, closed)
  {
    assert ([Open] + xs)[1..] == xs;
  }

  lemma ShutBefore(xs: seq<CommentItem>, depth: nat, closed: bool)
    requires depth > 0 && GoodComment(xs, depth - 1, closed)
    ensures GoodComment([Shut] + xs, depth, closed)
  {
    assert ([Shut] + xs)[1..] == xs;
  }

  /** A remark leaves the depth as it was. */
  lemma {:induction false} RemarkBefore(r: Remark, xs: seq<CommentItem>, depth: nat, closed: bool)
    requires Proper(r) && depth > 0 && GoodComment(xs, depth, closed)
    ensures GoodComment(Items(r) + xs, depth, closed) && CommentText(Items(r) + xs) == Body(r) + CommentText(xs)
    decreases r
  {
    match r
    case Note(text) => CharsBefore(text, xs, depth, closed);
    case Nested(before, inner, after) =>
      var ys := Items(after) + xs;
      RemarkBefore(after, xs, depth, closed);
      ShutBefore(ys, depth + 1, closed);
      RemarkBefore(inner, [Shut] + ys, depth + 1, closed);
      var zs := Items(inner) + ([Shut] + ys);
      OpenBefore(zs, depth, closed);
      CharsBefore(before, [Open] + zs, depth, closed);
      NestedText(before, inner, after, xs);
  }

  lemma NestedText(before: string, inner: Remark, after: Remark, xs: seq<CommentItem>)
    requires CommentText(Items(after) + xs) == Body(after) + CommentText(xs)
    requires var ys := Items(after) + xs; CommentText(Items(inner) + ([Shut] + ys)) == Body(inner) + CommentText([Shut] + ys)
    requires var zs := [Open] + (Items(inner) + ([Shut] + (Items(after) + xs)));
      CommentText(Chars(before) + zs) == before + CommentText(zs)
    ensures var r := Nested(before, inner, after);
      && Items(r) + xs == Chars(before) + ([Open] + (Items(inner) + ([Shut] + (Items(after) + xs))))
      && CommentText(Items(r) + xs) == Body(r) + CommentText(xs)
  {
    var ys := Items(after) + xs;
    var zs := Items(inner) + ([Shut] + ys);
    ItemBefore(Shut, ys);
    ItemBefore(Open, zs);
    Around(Chars(before), [Open], Items(inner), [Shut], Items(after), xs);
    Around(before, ['/', '*'], Body(inner), ['*', '/'], Body(after), CommentText(xs));
  }

  lemma Around<T>(a: seq<T>, b: seq<T>, c: seq<T>, d: seq<T>, e: seq<T>, x: seq<T>)
    ensures (a + (b + (c + (d + e)))) + x == a + (b + (c + (d + (e + x))))
  {
    Assoc(a, b + (c + (d + e)), x);
    Assoc(b, c + (d + e), x);
    Assoc(c, d + e, x);
    Assoc(d, e, x);
  }

  // ----- Regions are single tokens -----

  /** A region as it is written, and the token it is. */
  datatype Region =
    | StringOf(s: string)
    | EscapeOf(prefix: char, s: string)
    | UnicodeOf(prefix: char, s: string)
    | LineOf(line: string)
    | CommentOf(remark: Remark)
    | DollarOf(tag: string, body: string)

  function Written(r: Region): string {
    match r
    case StringOf(s) => ['\''] + (DoubleSingles(s) + ['\''])
    case EscapeOf(p, s) => [p] + (['\''] + (Backslashes(s) + ['\'']))
    case UnicodeOf(p, s) => [p] + (['&', '\''] + (DoubleSingles(s) + ['\'']))
    case LineOf(line) => ['-', '-'] + line
    case CommentOf(remark) => ['/', '*'] + (Body(remark) + ['*', '/'])
    case DollarOf(tag, body) => ['$'] + (tag + (['$'] + (body + (['$'] + (tag + ['$'])))))
  }

  predicate TagLetter(c: char) {
    'A' <= c <= 'Z' || 'a' <= c <= 'z' || c == '_'
  }

  /** A region that ends where its text does, whatever `b` follows. */
  ghost predicate Complete(r: Region, b: string) {
    match r
    case StringOf(_) => !StartsWith(b, '\'')
    case EscapeOf(p, _) => (p == 'E' || p == 'e') && !StartsWith(b, '\'')
    case UnicodeOf(p, _) => (p == 'U' || p == 'u') && !StartsWith(b, '\'')
    case LineOf(line) => '\n' !in line && StartsWith(b, '\n')
    case CommentOf(remark) => Proper(remark)
    case DollarOf(tag, body) =>
      && (tag == "" || TagLetter(tag[0])) && (forall k | 0 <= k < |tag| :: TagLetter(tag[k]) || '0' <= tag[k] <= '9')
      && forall k | 0 <= k < |body| :: !(['$'] + (tag + ['$']) <= (body + (['$'] + (tag + ['$'])))[k..])
  }

  function TokenFor(r: Region): Token {
    match r
    case StringOf(s) => Str(SingleItems(s), true)
    case EscapeOf(p, s) => EStr(p, EscapeItems(s), true)
    case UnicodeOf(p, s) => UStr(p, SingleItems(s), true)
    case LineOf(line) => LineComment(line)
    case CommentOf(remark) => BlockComment(Items(remark) + [Shut], true)
    case DollarOf(tag, body) => DollarQuote(tag, body, true)
  }

  lemma RemarkToken(remark: Remark)
    requires Proper(remark)
    ensures GoodComment(Items(remark) + [Shut], 1, true) && CommentText(Items(remark) + [Shut]) == Body(remark) + ['*', '/']
  {
    assert [Shut][1..] == [];
    assert CommentText([Shut]) == ['*', '/'] + "" == ['*', '/'];
    RemarkBefore(remark, [Shut], 1, true);
  }

  /** Each is a token of its kind, of exactly its text. */
  lemma RegionIsToken(r: Region, b: string)
    requires Complete(r, b)
    ensures Fits(TokenFor(r), b) && Text(TokenFor(r)) == Written(r)
  {
    match r
    case StringOf(s) => SingleItemsAre(s, true);
    case EscapeOf(_, s) => EscapeItemsAre(s);
    case UnicodeOf(_, s) => SingleItemsAre(s, true);
    case LineOf(_) =>
    case CommentOf(remark) => RemarkToken(remark);
    case DollarOf(tag, body) => DollarRegion(tag, body);
  }

  lemma DollarRegion(tag: string, body: string)
    requires (tag == "" || TagLetter(tag[0])) && (forall k | 0 <= k < |tag| :: TagLetter(tag[k]) || '0' <= tag[k] <= '9')
    requires forall k | 0 <= k < |body| :: !(['$'] + (tag + ['$']) <= (body + (['$'] + (tag + ['$'])))[k..])
    ensures IsTag(tag) && NoneBefore(Delimiter(tag), DollarTail(tag, body, true), |body|)
  {
  }

  /** So the scanner cuts it off in one piece. */
  lemma RegionIsSkipped(r: Region, b: string)
    requires Complete(r, b)
    ensures Written(r) + b != "" && NextToken(Written(r) + b) == Cut(TokenFor(r), b)
  {
    RegionIsToken(r, b);
    NextTokenFinds(TokenFor(r), b);
  }

  // ----- Their content never matters -----

  lemma NoIdentifier(a: string, r: Region, b: string, lower: Lower)
    requires EndsOpen(a) && Complete(r, b)
    ensures var ts := Tokenize(a + ([' '] + (Written(r) + b)));
      && ts == Tokenize(a) + ([Other(' ')] + ([TokenFor(r)] + Tokenize(b)))
      && Statements(ts, lower) == Merge(Statements(Tokenize(a), lower), Statements(Tokenize(b), lower))
  {
    RegionIsToken(r, b);
    Placed(a, TokenFor(r), b);
    var rest := [TokenFor(r)] + Tokenize(b);
    StatementsConcat(Tokenize(a), [Other(' ')] + rest, lower);
    NothingAdded(Other(' '), rest, lower);
    NothingAdded(TokenFor(r), Tokenize(b), lower);
  }

  lemma NothingAdded(t: Token, ts: seq<Token>, lower: Lower)
    requires !IsIdentifier(t) && !t.Semi?
    ensures Statements([t] + ts, lower) == Statements(ts, lower)
  {
    var s := Statements(ts, lower);
    assert ([t] + ts)[1..] == ts;
    assert [] + s[0] == s[0] && s == [s[0]] + s[1..];
  }

  /** Whatever is written in a string, an escape string, a comment or a dollar quote, and with
      however deep a nesting: the guard's verdict is the same, and the words are those around it. */
  lemma RegionNeverMatters(a: string, r: Region, r': Region, b: string, lower: Lower)
    requires EndsOpen(a) && Complete(r, b) && Complete(r', b)
    ensures Accepted(a + ([' '] + (Written(r) + b)), lower) <==> Accepted(a + ([' '] + (Written(r') + b)), lower)
  {
    NoIdentifier(a, r, b, lower);
    NoIdentifier(a, r', b, lower);
    SameRefusals(Tokenize(a), TokenFor(r), TokenFor(r'), Tokenize(b));
  }

  lemma SameRefusals(a: seq<Token>, t: Token, t': Token, b: seq<Token>)
    requires !t.UIdent? && !t'.UIdent?
    ensures Refused(a + ([Other(' ')] + ([t] + b))) <==> Refused(a + ([Other(' ')] + ([t'] + b)))
  {
    var s, s' := a + ([Other(' ')] + ([t] + b)), a + ([Other(' ')] + ([t'] + b));
    assert forall u :: u in s <==> u in a || u == Other(' ') || u == t || u in b;
    assert forall u :: u in s' <==> u in a || u == Other(' ') || u == t' || u in b;
  }
}
