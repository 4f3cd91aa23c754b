/**
 The textual keys under which mapping rules are compared: "<method>:<pattern>:<position>".
 Two rules are taken for the same rule exactly when these strings are equal, so the synchronisation
 is only as good as the keys are unambiguous.
 */
module MappingRuleKeys {
  import opened Decimals

  function Key(httpMethod: string, pattern: string, position: nat): string {
    httpMethod + ":" + pattern + ":" + Decimal(position)
  }

  /** The text before the last separator; empty if there is none. */
  function BeforeLast(u: string): string
    decreases |u|
  {
    if u == [] then [] else
    var front := u[..|u| - 1];
    if u[|u| - 1] == ':' then front else BeforeLast(front)
  }

  lemma {:induction false} SplitsAtLast(a: string, s: string)
    requires ':' !in s
    ensures BeforeLast(a + ":" + s) == a
    decreases |s|
  {
    var u := a + ":" + s;
    if s == [] {
      assert u[..|u| - 1] == a;
    } else {
      var front := s[..|s| - 1];
      assert u[..|u| - 1] == a + ":" + front;
      assert u[|u| - 1] == s[|s| - 1];
      SplitsAtLast(a, front);
    }
  }

  /** The text before the first separator; everything if there is none. */
  function BeforeFirst(u: string): string {
    if u == [] || u[0] == ':' then [] else [u[0]] + BeforeFirst(u[1..])
  }

  lemma {:induction false} SplitsAtFirst(a: string, s: string)
    requires ':' !in a
    ensures BeforeFirst(a + ":" + s) == a
  {
    var u := a + ":" + s;
    if a != [] {
      assert u[1..] == a[1..] + ":" + s;
      SplitsAtFirst(a[1..], s);
    }
  }

  lemma {:induction false} SameTail(a: string, s: string, t: string)
    requires a + ":" + s == a + ":" + t
    ensures s == t
  {
    var u, v := a + ":" + s, a + ":" + t;
    assert s == u[|a| + 1..] && t == v[|a| + 1..];
  }

  /** Whatever the method and the pattern contain, a key determines the position. */
  lemma {:induction false} KeyFixesPosition(m: string, p: string, n: nat, m': string, p': string, n': nat)
    requires Key(m, p, n) == Key(m', p', n')
    ensures n == n' && m + ":" + p == m' + ":" + p'
  {
    SplitsAtLast(m + ":" + p, Decimal(n));
    SplitsAtLast(m' + ":" + p', Decimal(n'));
    SameTail(m + ":" + p, Decimal(n), Decimal(n'));
    DecimalRoundTrip(n);
    DecimalRoundTrip(n');
  }

  /** HTTP methods hold no separator, so the whole key is unambiguous even if patterns contain ':'. */
  lemma {:induction false} KeyInjective(m: string, p: string, n: nat, m': string, p': string, n': nat)
    requires ':' !in m && ':' !in m'
    ensures Key(m, p, n) == Key(m', p', n') <==> m == m' && p == p' && n == n'
  {
    if Key(m, p, n) == Key(m', p', n') {
      KeyFixesPosition(m, p, n, m', p', n');
      SplitsAtFirst(m, p);
      SplitsAtFirst(m', p');
      SameTail(m, p, p');
    }
  }

  /** Without that restriction two different rules can share a key. */
  lemma {:induction false} KeyCollision()
    ensures Key("A:B", "C", 1) == Key("A", "B:C", 1)
  {
  }
}
