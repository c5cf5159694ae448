/** Cache keys of the per-tenant client pool (targetKey): which tenants can share a client. */
module TenantKeys {
  import opened Prelude

  datatype Target = Target(id: string, host: string, port: nat, database: string)

  /** A schema on the shared cluster, or on a dedicated instance. */
  datatype Tenant = Tenant(schema: string, target: Option<Target>)

  function Decimal(n: nat): (s: string)
    ensures s != ""
  {
    if n < 10 then [Digit(n)] else Decimal(n / 10) + [Digit(n % 10)]
  }

  function Digit(d: nat): char
    requires d < 10
  {
    "0123456789"[d]
  }

  function TargetKey(t: Target): string {
    t.id + "@" + t.host + ":" + Decimal(t.port) + "/" + t.database
  }

  function Key(t: Tenant): string {
    match t.target
    case None => t.schema
    case Some(target) => t.schema + "@" + TargetKey(target)
  }

  /** What schema names, instance ids and host names never contain. */
  predicate WellNamed(t: Tenant) {
    '@' !in t.schema && (t.target.Some? ==> '@' !in t.target.value.id && '/' !in t.target.value.host)
  }

  /** Text before the first separator, and after it. */
  lemma {:induction false} SplitFirst(a: string, b: string, x: string, y: string, c: char)
    requires c !in a && c !in b && a + [c] + x == b + [c] + y
    ensures a == b && x == y
  {
    if a == "" || b == "" {
      assert (a + [c] + x)[0] == (b + [c] + y)[0];
      assert a == "" && b == "";
      assert x == (a + [c] + x)[1..] && y == (b + [c] + y)[1..];
    } else {
      assert (a + [c] + x)[0] == (b + [c] + y)[0];
      assert a[1..] + [c] + x == (a + [c] + x)[1..];
      assert b[1..] + [c] + y == (b + [c] + y)[1..];
      SplitFirst(a[1..], b[1..], x, y, c);
      assert a == [a[0]] + a[1..] && b == [b[0]] + b[1..];
    }
  }

  /** Text before the last separator, and after it. */
  lemma {:induction false} SplitLast(a: string, b: string, x: string, y: string, c: char)
    requires c !in x && c !in y && a + [c] + x == b + [c] + y
    ensures a == b && x == y
    decreases |x|
  {
    var s, t := a + [c] + x, b + [c] + y;
    assert s[|s| - 1] == t[|t| - 1];
    if x == "" || y == "" {
      assert x == "" && y == "";
      assert a == s[..|s| - 1] && b == t[..|t| - 1];
    } else {
      var x', y' := x[..|x| - 1], y[..|y| - 1];
      assert s[..|s| - 1] == a + [c] + x' && t[..|t| - 1] == b + [c] + y';
      SplitLast(a, b, x', y', c);
      assert x == x' + [x[|x| - 1]] && y == y' + [y[|y| - 1]];
    }
  }

  lemma DigitIsOne(d: nat)
    requires d < 10
    ensures '0' <= Digit(d) <= '9' && Digit(d) as int - '0' as int == d
  {
  }

  lemma {:induction false} DecimalDigits(n: nat)
    ensures forall c | c in Decimal(n) :: '0' <= c <= '9'
  {
    if n < 10 {
      DigitIsOne(n);
    } else {
      DecimalDigits(n / 10);
      DigitIsOne(n % 10);
    }
  }

  lemma {:induction false} DecimalInjective(m: nat, n: nat)
    requires Decimal(m) == Decimal(n)
    ensures m == n
  {
    assert |Decimal(m)| == 1 <==> m < 10;
    assert |Decimal(n)| == 1 <==> n < 10;
    if m < 10 && n < 10 {
      DigitIsOne(m);
      DigitIsOne(n);
    } else if m >= 10 && n >= 10 {
      var s, t := Decimal(m), Decimal(n);
      assert s[|s| - 1] == Digit(m % 10) && t[|t| - 1] == Digit(n % 10);
      assert s[..|s| - 1] == Decimal(m / 10) && t[..|t| - 1] == Decimal(n / 10);
      DigitIsOne(m % 10);
      DigitIsOne(n % 10);
      DecimalInjective(m / 10, n / 10);
    }
  }

  lemma TargetKeyInjective(t: Target, u: Target)
    requires '@' !in t.id && '@' !in u.id && '/' !in t.host && '/' !in u.host && TargetKey(t) == TargetKey(u)
    ensures t == u
  {
    DecimalDigits(t.port);
    DecimalDigits(u.port);
    var tp, up := Decimal(t.port), Decimal(u.port);
    var t1, u1 := t.host + ":" + tp, u.host + ":" + up;
    assert TargetKey(t) == t.id + ['@'] + (t1 + ['/'] + t.database);
    assert TargetKey(u) == u.id + ['@'] + (u1 + ['/'] + u.database);
    SplitFirst(t.id, u.id, t1 + ['/'] + t.database, u1 + ['/'] + u.database, '@');
    assert '/' !in t1 && '/' !in u1;
    SplitFirst(t1, u1, t.database, u.database, '/');
    assert t1 == t.host + [':'] + tp && u1 == u.host + [':'] + up;
    SplitLast(t.host, u.host, tp, up, ':');
    DecimalInjective(t.port, u.port);
  }

  lemma KeyShape(t: Tenant)
    requires WellNamed(t)
    ensures '@' in Key(t) <==> t.target.Some?
  {
    if t.target.Some? {
      assert Key(t)[|t.schema|] == '@';
    }
  }

  /** Two tenants share a cache key only if they are the same tenant. */
  lemma KeyInjective(t: Tenant, u: Tenant)
    requires WellNamed(t) && WellNamed(u) && Key(t) == Key(u)
    ensures t == u
  {
    KeyShape(t);
    KeyShape(u);
    if t.target.Some? && u.target.Some? {
      assert Key(t) == t.schema + ['@'] + TargetKey(t.target.value);
      assert Key(u) == u.schema + ['@'] + TargetKey(u.target.value);
      SplitFirst(t.schema, u.schema, TargetKey(t.target.value), TargetKey(u.target.value), '@');
      TargetKeyInjective(t.target.value, u.target.value);
    }
  }

  // ----- When the separators are part of a name -----

  predicate AllDigits(s: string) {
    forall n | 0 <= n < |s| :: '0' <= s[n] <= '9'
  }

  /** How a number is printed: without a leading zero. */
  predicate IsDecimal(s: string) {
    s != "" && AllDigits(s) && (s[0] == '0' ==> |s| == 1)
  }

  lemma {:induction false} DecimalIsDecimal(n: nat)
    ensures IsDecimal(Decimal(n)) && (Decimal(n)[0] == '0' ==> n == 0)
  {
    DecimalDigits(n);
    if n < 10 {
      DigitIsOne(n);
    } else {
      DecimalIsDecimal(n / 10);
      assert Decimal(n)[0] == Decimal(n / 10)[0];
    }
  }

  /** Every string like that is some number's. */
  lemma {:induction false} DecimalOnto(s: string) returns (n: nat)
    requires IsDecimal(s)
    ensures Decimal(n) == s && (n == 0 ==> s[0] == '0')
  {
    var d := s[|s| - 1];
    var e := d as int - '0' as int;
    DigitIsOne(e);
    if |s| == 1 {
      n := e;
    } else {
      var init := s[..|s| - 1];
      assert init[0] == s[0];
      var m := DecimalOnto(init);
      n := 10 * m + e;
      assert n / 10 == m && n % 10 == e;
      assert s == init + [d];
    }
  }

  /** ":<number>/", from k to l. */
  predicate PortAt(s: string, k: nat, l: nat) {
    k < l < |s| && s[k] == ':' && s[l] == '/' && IsDecimal(s[k + 1..l])
  }

  predicate HasPort(s: string) {
    exists k: nat, l: nat | k < l < |s| :: PortAt(s, k, l)
  }

  /** "<schema>@<id>@<host>:<port>/<database>", with its separators at i, j, k and l. */
  predicate SplitsAt(s: string, i: nat, j: nat, k: nat, l: nat) {
    i < j < k && PortAt(s, k, l) && s[i] == '@' && s[j] == '@'
  }

  /** Where a dedicated tenant's key splits into its own parts. */
  ghost predicate OwnSplit(t: Tenant, i: nat, j: nat, k: nat, l: nat) {
    && t.target.Some? && SplitsAt(Key(t), i, j, k, l)
    && var s, x := Key(t), t.target.value;
       && s[..i] == t.schema && s[i + 1..j] == x.id && s[j + 1..k] == x.host
       && s[k + 1..l] == Decimal(x.port) && s[l + 1..|s|] == x.database
  }

  lemma Split(t: Tenant) returns (i: nat, j: nat, k: nat, l: nat)
    requires t.target.Some?
    ensures OwnSplit(t, i, j, k, l)
  {
    var x := t.target.value;
    var port := Decimal(x.port);
    DecimalIsDecimal(x.port);
    i, j := |t.schema|, |t.schema| + 1 + |x.id|;
    k := j + 1 + |x.host|;
    l := k + 1 + |port|;
    Parts(t.schema, x.id, x.host, port, x.database);
    assert Key(t) == t.schema + "@" + (x.id + "@" + x.host + ":" + port + "/" + x.database);
  }

  lemma Parts(a: string, b: string, c: string, d: string, e: string)
    ensures var s, i := a + "@" + (b + "@" + c + ":" + d + "/" + e), |a|;
      var j := i + 1 + |b|;
      var k := j + 1 + |c|;
      var l := k + 1 + |d|;
      && l < |s| && s[i] == '@' && s[j] == '@' && s[k] == ':' && s[l] == '/'
      && s[..i] == a && s[i + 1..j] == b && s[j + 1..k] == c && s[k + 1..l] == d && s[l + 1..] == e
  {
  }

  /** The tenant that a way to split a string spells. */
  lemma Spells(s: string, i: nat, j: nat, k: nat, l: nat) returns (u: Tenant)
    requires SplitsAt(s, i, j, k, l)
    ensures Key(u) == s && OwnSplit(u, i, j, k, l)
  {
    var port := DecimalOnto(s[k + 1..l]);
    u := Tenant(s[..i], Some(Target(s[i + 1..j], s[j + 1..k], port, s[l + 1..])));
    Rejoined(s, i, j, k, l);
  }

  lemma Rejoined(s: string, i: nat, j: nat, k: nat, l: nat)
    requires i < j < k < l < |s| && s[i] == '@' && s[j] == '@' && s[k] == ':' && s[l] == '/'
    ensures s[..i] + "@" + (s[i + 1..j] + "@" + s[j + 1..k] + ":" + s[k + 1..l] + "/" + s[l + 1..]) == s
  {
  }

  lemma SameSplitSameTenant(t: Tenant, u: Tenant, i: nat, j: nat, k: nat, l: nat)
    requires Key(t) == Key(u) && OwnSplit(t, i, j, k, l) && OwnSplit(u, i, j, k, l)
    ensures t == u
  {
    DecimalInjective(t.target.value.port, u.target.value.port);
  }

  /** The separators of the target are part of one of its names. */
  predicate AmbiguousTarget(x: Target) {
    '@' in x.id || '@' in x.host || HasPort(x.host) || HasPort(x.database)
  }

  lemma SliceOfSlice(s: string, a: nat, b: nat, x: nat, y: nat)
    requires a <= b <= |s| && x <= y <= b - a
    ensures s[a..b][x..y] == s[a + x..a + y]
  {
    assert |s[a..b]| == b - a;
    assert |s[a..b][x..y]| == y - x;
    assert |s[a + x..a + y]| == y - x;
    assert forall n | 0 <= n < y - x :: s[a..b][x..y][n] == s[a + x..a + y][n];
  }

  lemma PortOfPart(s: string, a: nat, b: nat) returns (m: nat, n: nat)
    requires a <= b <= |s| && HasPort(s[a..b])
    ensures a <= m && n < b && PortAt(s, m, n)
  {
    var x: nat, y: nat :| x < y < |s[a..b]| && PortAt(s[a..b], x, y);
    m, n := a + x, a + y;
    assert |s[a..b]| == b - a;
    SliceOfSlice(s, a, b, x + 1, y);
    assert s[m] == s[a..b][x] && s[n] == s[a..b][y];
  }

  lemma SplitLengths(t: Tenant, i: nat, j: nat, k: nat, l: nat)
    requires OwnSplit(t, i, j, k, l)
    ensures i == |t.schema| && j == i + 1 + |t.target.value.id| && k == j + 1 + |t.target.value.host|
  {
  }

  /** Another way to split the key is another tenant. */
  lemma Respelled(t: Tenant, i: nat, j: nat, k: nat, l: nat, a: nat, b: nat, m: nat, n: nat) returns (u: Tenant)
    requires OwnSplit(t, i, j, k, l) && SplitsAt(Key(t), a, b, m, n) && !(a == i && b == j && m == k)
    ensures u.target.Some? && u != t && Key(u) == Key(t) && (a == i ==> u.schema == t.schema)
  {
    u := Spells(Key(t), a, b, m, n);
    SplitLengths(t, i, j, k, l);
    SplitLengths(u, a, b, m, n);
  }

  /** Then another target has the same key. */
  lemma OtherTarget(t: Tenant) returns (u: Tenant)
    requires t.target.Some? && AmbiguousTarget(t.target.value)
    ensures u.target.Some? && u != t && u.schema == t.schema && Key(u) == Key(t)
  {
    var x := t.target.value;
    var i, j, k, l := Split(t);
    if '@' in x.id {
      var n :| 0 <= n < |x.id| && x.id[n] == '@';
      u := Respelled(t, i, j, k, l, i, i + 1 + n, k, l);
    } else if '@' in x.host {
      var n :| 0 <= n < |x.host| && x.host[n] == '@';
      u := Respelled(t, i, j, k, l, i, j + 1 + n, k, l);
    } else {
      var m, n := OtherPortOf(t, i, j, k, l);
      u := Respelled(t, i, j, k, l, i, j, m, n);
    }
  }

  lemma OtherPortOf(t: Tenant, i: nat, j: nat, k: nat, l: nat) returns (m: nat, n: nat)
    requires OwnSplit(t, i, j, k, l) && (HasPort(t.target.value.host) || HasPort(t.target.value.database))
    ensures j < m && m != k && PortAt(Key(t), m, n)
  {
    var s := Key(t);
    if HasPort(s[j + 1..k]) {
      m, n := PortOfPart(s, j + 1, k);
    } else {
      m, n := PortOfPart(s, l + 1, |s|);
    }
  }

  lemma PortDigits(s: string, k: nat, l: nat)
    requires PortAt(s, k, l)
    ensures forall n | k < n < l :: '0' <= s[n] <= '9'
  {
    forall n | k < n < l ensures '0' <= s[n] <= '9' {
      assert s[n] == s[k + 1..l][n - k - 1];
    }
  }

  /** Two ways to split at the same colon split at the same slash. */
  lemma PortEnds(s: string, k: nat, l: nat, l': nat)
    requires PortAt(s, k, l) && PortAt(s, k, l')
    ensures l == l'
  {
    PortDigits(s, k, l);
    PortDigits(s, k, l');
  }

  /** A port that does not overlap another lies before or behind it. */
  lemma PortsApart(s: string, k: nat, l: nat, m: nat, n: nat)
    requires PortAt(s, k, l) && PortAt(s, m, n) && m != k
    ensures n < k || l < m
  {
    PortDigits(s, k, l);
    PortDigits(s, m, n);
  }

  lemma InPart(s: string, a: nat, b: nat, n: nat)
    requires a <= n < b <= |s|
    ensures s[n] in s[a..b]
  {
    assert s[n] == s[a..b][n - a];
  }

  lemma PortInPart(s: string, a: nat, b: nat, m: nat, n: nat)
    requires a <= m && n < b <= |s| && PortAt(s, m, n)
    ensures HasPort(s[a..b])
  {
    SliceOfSlice(s, a, b, m - a + 1, n - a);
    assert PortAt(s[a..b], m - a, n - a);
  }

  lemma OtherPort(t: Tenant, i: nat, j: nat, k: nat, l: nat, m: nat, n: nat)
    requires OwnSplit(t, i, j, k, l) && PortAt(Key(t), m, n) && m != k && j < m
    ensures AmbiguousTarget(t.target.value)
  {
    var s := Key(t);
    PortsApart(s, k, l, m, n);
    if l < m {
      PortInPart(s, l + 1, |s|, m, n);
    } else {
      PortInPart(s, j + 1, k, m, n);
    }
  }

  lemma OtherAt(t: Tenant, i: nat, j: nat, k: nat, l: nat, c: nat)
    requires OwnSplit(t, i, j, k, l) && c < k && Key(t)[c] == '@' && c != i && c != j
    ensures '@' in t.schema || AmbiguousTarget(t.target.value)
  {
    var s := Key(t);
    if c < i {
      InPart(s, 0, i, c);
      assert s[0..i] == t.schema;
    } else if c < j {
      InPart(s, i + 1, j, c);
    } else {
      InPart(s, j + 1, k, c);
    }
  }

  /** A second way to split a key needs a separator inside one of its parts. */
  lemma OtherSplit(t: Tenant, i: nat, j: nat, k: nat, l: nat, a: nat, b: nat, m: nat, n: nat)
    requires OwnSplit(t, i, j, k, l) && SplitsAt(Key(t), a, b, m, n) && !(a == i && b == j && m == k && n == l)
    ensures '@' in t.schema || AmbiguousTarget(t.target.value)
  {
    if m == k { PortEnds(Key(t), k, l, n); }
    if m != k && j < m {
      OtherPort(t, i, j, k, l, m, n);
    } else {
      var c := if a != i && a != j then a else b;
      OtherAt(t, i, j, k, l, c);
    }
  }

  lemma SameKeyMeansAmbiguous(t: Tenant, u: Tenant)
    requires t.target.Some? && u.target.Some? && u != t && Key(u) == Key(t)
    ensures '@' in t.schema || AmbiguousTarget(t.target.value)
  {
    var i, j, k, l := Split(t);
    var a, b, m, n := Split(u);
    if a == i && b == j && m == k && n == l {
      SameSplitSameTenant(t, u, i, j, k, l);
    } else {
      OtherSplit(t, i, j, k, l, a, b, m, n);
    }
  }

  /** An instance shares its key with another exactly when an '@' is in its id or host, or a
      ":<number>/" in its host or database. */
  lemma TargetKeyCollidesExactlyWhen(x: Target)
    ensures (exists y :: y != x && TargetKey(y) == TargetKey(x)) <==> AmbiguousTarget(x)
  {
    var t := Tenant("", Some(x));
    if AmbiguousTarget(x) {
      var u := OtherTarget(t);
      SameSchemaSameTargetKey(t, u);
      assert u.target.value != x;
    }
    forall y | y != x && TargetKey(y) == TargetKey(x) ensures AmbiguousTarget(x) {
      SameKeyMeansAmbiguous(t, Tenant("", Some(y)));
    }
  }

  lemma SameSchemaSameTargetKey(t: Tenant, u: Tenant)
    requires t.target.Some? && u.target.Some? && u.schema == t.schema && Key(u) == Key(t)
    ensures TargetKey(u.target.value) == TargetKey(t.target.value)
  {
    assert Key(t)[|t.schema| + 1..] == TargetKey(t.target.value);
    assert Key(u)[|u.schema| + 1..] == TargetKey(u.target.value);
  }

  /** A tenant on a dedicated instance shares its key with another one exactly when, besides that,
      an '@' may be in its schema name. */
  lemma DedicatedKeyCollidesExactlyWhen(t: Tenant)
    requires t.target.Some?
    ensures (exists u: Tenant :: u.target.Some? && u != t && Key(u) == Key(t)) <==> '@' in t.schema || AmbiguousTarget(t.target.value)
  {
    if '@' in t.schema {
      var i, j, k, l := Split(t);
      var n :| 0 <= n < |t.schema| && t.schema[n] == '@';
      var u := Spells(Key(t), n, i, k, l);
      assert u.schema == Key(t)[..n];
    } else if AmbiguousTarget(t.target.value) {
      var u := OtherTarget(t);
    }
    forall u: Tenant | u.target.Some? && u != t && Key(u) == Key(t) ensures '@' in t.schema || AmbiguousTarget(t.target.value) {
      SameKeyMeansAmbiguous(t, u);
    }
  }

  /** Among all tenants, a dedicated one shares its key with a shared-cluster schema of that very
      name, and a schema on the shared cluster shares its own exactly when it is spelled like a
      dedicated tenant's key. */
  lemma KeyCollidesExactlyWhen(t: Tenant)
    ensures (exists u :: u != t && Key(u) == Key(t)) <==>
      t.target.Some? || exists i: nat, j: nat, k: nat, l: nat :: SplitsAt(t.schema, i, j, k, l)
  {
    if t.target.Some? {
      var u := Tenant(Key(t), None);
      assert u != t && Key(u) == Key(t);
    } else if i: nat, j: nat, k: nat, l: nat :| SplitsAt(t.schema, i, j, k, l) {
      var u := Spells(t.schema, i, j, k, l);
      assert u != t && Key(u) == Key(t);
    } else {
      forall u | u != t && Key(u) == Key(t) ensures false {
        var i, j, k, l := Split(u);
        assert false;
      }
    }
  }
}
