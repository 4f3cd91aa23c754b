/** Values that may be absent, standing for the pointers and lookups of the source. */
module Options {
  datatype Option<+T> = None | Some(value: T)
}

/** Calls to the outside world. */
module Calls {

  /**
   Decides the fate of a call: whether it is answered without error, and if not whether it took effect. Nothing fails
   for a reason outside the program when the other side is reliable.
   */
  method Fate(reliable: bool) returns (ok: bool, applied: bool)
    ensures reliable ==> ok
    ensures ok ==> applied
  {
    ok, applied := *, *;
    if reliable { ok := true; }
    if ok { applied := true; }
  }
}

/** Set-like operations on string slices, on which every key-based synchronisation rests. */
module StringSlices {

  predicate Distinct<T(==)>(s: seq<T>) {
    forall i, j :: 0 <= i < j < |s| ==> s[i] != s[j]
  }

  /** The elements of a for which b has no equal, in the order of a. */
  function Minus(a: seq<string>, b: seq<string>): seq<string> {
    if a == [] then [] else
    var last := a[|a| - 1];
    Minus(a[..|a| - 1], b) + (if last in b then [] else [last])
  }

  /** The elements of a for which b has an equal, in the order of a. */
  function Common(a: seq<string>, b: seq<string>): seq<string> {
    if a == [] then [] else
    var last := a[|a| - 1];
    Common(a[..|a| - 1], b) + (if last in b then [last] else [])
  }

  lemma {:induction false} MinusMembers(a: seq<string>, b: seq<string>)
    ensures forall x :: x in Minus(a, b) <==> x in a && x !in b
    ensures Distinct(a) ==> Distinct(Minus(a, b))
  {
    if a != [] {
      var front := a[..|a| - 1];
      assert a == front + [a[|a| - 1]];
      MinusMembers(front, b);
    }
  }

  lemma {:induction false} CommonMembers(a: seq<string>, b: seq<string>)
    ensures forall x :: x in Common(a, b) <==> x in a && x in b
    ensures Distinct(a) ==> Distinct(Common(a, b))
  {
    if a != [] {
      var front := a[..|a| - 1];
      assert a == front + [a[|a| - 1]];
      CommonMembers(front, b);
    }
  }

  /** Matched, new and undesired keys split the union of existing and desired keys into three. */
  lemma {:induction false} KeysPartition(existing: seq<string>, desired: seq<string>, k: string)
    ensures var matched := k in Common(existing, desired);
            var fresh' := k in Minus(desired, existing);
            var gone := k in Minus(existing, desired);
            && (k in existing || k in desired <==> matched || fresh' || gone)
            && !(matched && fresh') && !(matched && gone) && !(fresh' && gone)
  {
    CommonMembers(existing, desired);
    MinusMembers(desired, existing);
    MinusMembers(existing, desired);
  }

  method ArrayStringDifference(a: seq<string>, b: seq<string>) returns (result: seq<string>)
    ensures result == Minus(a, b)
    ensures forall x :: x in result <==> x in a && x !in b
    ensures Distinct(a) ==> Distinct(result)
  {
    var target: set<string> := {};
    for i := 0 to |b|
      invariant target == set x | x in b[..i]
    {
      target := target + {b[i]};
      assert b[..i + 1] == b[..i] + [b[i]];
    }
    assert b[..|b|] == b;
    result := [];
    for i := 0 to |a|
      invariant result == Minus(a[..i], b)
    {
      assert a[..i + 1][..i] == a[..i];
      if a[i] !in target {
        result := result + [a[i]];
      }
    }
    assert a[..|a|] == a;
    MinusMembers(a, b);
  }

  method ArrayStringIntersection(a: seq<string>, b: seq<string>) returns (result: seq<string>)
    ensures result == Common(a, b)
    ensures forall x :: x in result <==> x in a && x in b
    ensures Distinct(a) ==> Distinct(result)
  {
    var target: set<string> := {};
    for i := 0 to |b|
      invariant target == set x | x in b[..i]
    {
      target := target + {b[i]};
      assert b[..i + 1] == b[..i] + [b[i]];
    }
    assert b[..|b|] == b;
    result := [];
    for i := 0 to |a|
      invariant result == Common(a[..i], b)
    {
      assert a[..i + 1][..i] == a[..i];
      if a[i] in target {
        result := result + [a[i]];
      }
    }
    assert a[..|a|] == a;
    CommonMembers(a, b);
  }

  /** The keys of a map in the order in which some iteration meets them. */
  method KeysInAnyOrder<V>(m: map<string, V>) returns (keys: seq<string>)
    ensures Distinct(keys) && forall k :: k in keys <==> k in m
  {
    keys := [];
    var todo := m.Keys;
    while todo != {}
      invariant todo <= m.Keys
      invariant forall k :: k in keys <==> k in m.Keys - todo
      invariant Distinct(keys)
      decreases |todo|
    {
      var k :| k in todo;
      todo := todo - {k};
      keys := keys + [k];
    }
  }
}
