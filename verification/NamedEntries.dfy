/**
 Lists of named entries in containers and pods: environment variables, volumes and volume mounts. Reconciling a name
 adds, replaces or removes its first entry and leaves the rest of the list alone.
 */
module NamedEntries {
  import opened Options

  datatype Named = Named(name: string, value: string)

  // ---------- Looking at lists ----------

  predicate DistinctNames(s: seq<Named>) {
    forall i, j :: 0 <= i < j < |s| ==> s[i].name != s[j].name
  }

  /** The value of the first entry of that name, which is the one that counts. */
  function Lookup(s: seq<Named>, name: string): Option<string> {
    if s == [] then None
    else if s[0].name == name then Some(s[0].value)
    else Lookup(s[1..], name)
  }

  /** The entries of other names, in their order. */
  function Others(s: seq<Named>, name: string): seq<Named> {
    if s == [] then [] else
    (if s[0].name == name then [] else [s[0]]) + Others(s[1..], name)
  }

  function Count(s: seq<Named>, name: string): nat {
    if s == [] then 0 else (if s[0].name == name then 1 else 0) + Count(s[1..], name)
  }

  lemma {:induction false} OthersConcat(s: seq<Named>, t: seq<Named>, name: string)
    ensures Others(s + t, name) == Others(s, name) + Others(t, name)
    ensures Count(s + t, name) == Count(s, name) + Count(t, name)
    ensures Lookup(s + t, name) == if Count(s, name) > 0 then Lookup(s, name) else Lookup(t, name)
  {
    if s == [] {
      assert s + t == t;
    } else {
      assert (s + t)[1..] == s[1..] + t;
      OthersConcat(s[1..], t, name);
    }
  }

  lemma {:induction false} CountMeans(s: seq<Named>, name: string)
    ensures Count(s, name) > 0 <==> exists i :: 0 <= i < |s| && s[i].name == name
    ensures Count(s, name) == 0 <==> Lookup(s, name) == None
  {
    if s != [] {
      CountMeans(s[1..], name);
      if i :| 0 <= i < |s| && s[i].name == name && i > 0 {
        assert s[1..][i - 1] == s[i];
      }
    }
  }

  lemma {:induction false} OtherLookup(s: seq<Named>, name: string, other: string)
    requires other != name
    ensures Lookup(Others(s, name), other) == Lookup(s, other)
    ensures Count(Others(s, name), other) == Count(s, other) && Count(Others(s, name), name) == 0
  {
    if s != [] {
      OtherLookup(s[1..], name, other);
      OthersConcat(if s[0].name == name then [] else [s[0]], Others(s[1..], name), other);
      OthersConcat(if s[0].name == name then [] else [s[0]], Others(s[1..], name), name);
    }
  }

  lemma {:induction false} DistinctCounts(s: seq<Named>)
    ensures DistinctNames(s) <==> forall name :: Count(s, name) <= 1
  {
    if s != [] {
      DistinctCounts(s[1..]);
      CountMeans(s[1..], s[0].name);
      if DistinctNames(s) {
        forall name ensures Count(s, name) <= 1 {
          assert Count(s[1..], name) <= 1;
        }
      } else if forall name :: Count(s[1..], name) <= 1 {
        var i :| 0 < i < |s| && s[i].name == s[0].name;
        assert s[1..][i - 1] == s[i];
        assert Count(s, s[0].name) > 1;
      } else {
        var name :| Count(s[1..], name) > 1;
        assert Count(s, name) > 1;
      }
    }
  }

  // ---------- Reconciling one name ----------

  /** One name is as wanted; the entries of other names are as they were. */
  ghost predicate Reconciled(before: seq<Named>, after: seq<Named>, name: string, want: Option<string>) {
    && Others(after, name) == Others(before, name)
    && (Lookup(after, name) == want <==> want.Some? || Count(before, name) <= 1)
    && (forall other :: Count(before, other) <= 1 ==> Count(after, other) <= 1)
  }

  /** An optional entry of the given name between the rest of the list. */
  function Spliced(head: seq<Named>, name: string, middle: Option<string>, tail: seq<Named>): seq<Named> {
    head + ((if middle.None? then [] else [Named(name, middle.value)]) + tail)
  }

  lemma {:induction false} SplicedParts(head: seq<Named>, name: string, middle: Option<string>, tail: seq<Named>,
                                        n: string)
    ensures var s := Spliced(head, name, middle, tail);
            && Count(s, n) == Count(head, n) + (if n == name && middle.Some? then 1 else 0) + Count(tail, n)
            && (n == name ==> Others(s, n) == Others(head, n) + Others(tail, n))
            && (n == name && Count(head, n) == 0 ==>
                  Lookup(s, n) == if middle.Some? then middle else Lookup(tail, n))
  {
    var mid := if middle.None? then [] else [Named(name, middle.value)];
    OthersConcat(head, mid + tail, n);
    OthersConcat(mid, tail, n);
    if middle.Some? {
      assert mid[1..] == [];
    }
  }

  /** Changing what a name has between a head without it and any tail reconciles it. */
  lemma {:induction false} SpliceReconciles(head: seq<Named>, name: string, was: Option<string>, want: Option<string>,
                                            tail: seq<Named>)
    requires Count(head, name) == 0
    requires was.None? ==> tail == []
    ensures Reconciled(Spliced(head, name, was, tail), Spliced(head, name, want, tail), name, want)
  {
    SplicedParts(head, name, was, tail, name);
    SplicedParts(head, name, want, tail, name);
    CountMeans(tail, name);
    forall other
      ensures Count(Spliced(head, name, was, tail), other) <= 1 ==> Count(Spliced(head, name, want, tail), other) <= 1
    {
      SplicedParts(head, name, was, tail, other);
      SplicedParts(head, name, want, tail, other);
    }
  }

  lemma {:induction false} NoneBefore(s: seq<Named>, k: nat, name: string)
    requires k <= |s| && forall i :: 0 <= i < k ==> s[i].name != name
    ensures Count(s[..k], name) == 0
  {
    CountMeans(s[..k], name);
  }

  lemma {:induction false} Replaces(s: seq<Named>, k: nat, v: string)
    requires k < |s| && forall i :: 0 <= i < k ==> s[i].name != s[k].name
    ensures Reconciled(s, s[k := Named(s[k].name, v)], s[k].name, Some(v))
  {
    NoneBefore(s, k, s[k].name);
    SpliceReconciles(s[..k], s[k].name, Some(s[k].value), Some(v), s[k + 1..]);
    assert s == Spliced(s[..k], s[k].name, Some(s[k].value), s[k + 1..]);
    assert s[k := Named(s[k].name, v)] == Spliced(s[..k], s[k].name, Some(v), s[k + 1..]);
  }

  lemma {:induction false} Removes(s: seq<Named>, k: nat)
    requires k < |s| && forall i :: 0 <= i < k ==> s[i].name != s[k].name
    ensures Reconciled(s, s[..k] + s[k + 1..], s[k].name, None)
  {
    NoneBefore(s, k, s[k].name);
    SpliceReconciles(s[..k], s[k].name, Some(s[k].value), None, s[k + 1..]);
    assert s == Spliced(s[..k], s[k].name, Some(s[k].value), s[k + 1..]);
    assert s[..k] + s[k + 1..] == Spliced(s[..k], s[k].name, None, s[k + 1..]);
  }

  lemma {:induction false} Appends(s: seq<Named>, e: Named)
    requires forall i :: 0 <= i < |s| ==> s[i].name != e.name
    ensures Reconciled(s, s + [e], e.name, Some(e.value))
  {
    NoneBefore(s, |s|, e.name);
    assert s[..|s|] == s;
    SpliceReconciles(s, e.name, None, Some(e.value), []);
    assert s == Spliced(s, e.name, None, []);
    assert s + [e] == Spliced(s, e.name, Some(e.value), []);
  }

  lemma {:induction false} Keeps(s: seq<Named>, name: string, want: Option<string>)
    requires Lookup(s, name) == want && (want.None? ==> Count(s, name) == 0)
    ensures Reconciled(s, s, name, want)
  {
  }

  /** The first position of a name, or -1. */
  method Find(s: seq<Named>, name: string) returns (index: int)
    ensures -1 <= index < |s|
    ensures index >= 0 ==> s[index].name == name && forall i :: 0 <= i < index ==> s[i].name != name
    ensures index >= 0 ==> Lookup(s, name) == Some(s[index].value)
    ensures index < 0 ==> Lookup(s, name) == None && forall i :: 0 <= i < |s| ==> s[i].name != name
  {
    assert s[0..] == s;
    for i := 0 to |s|
      invariant forall j :: 0 <= j < i ==> s[j].name != name
      invariant Lookup(s, name) == Lookup(s[i..], name)
    {
      assert s[i..][0] == s[i] && s[i..][1..] == s[i + 1..];
      if s[i].name == name { return i; }
    }
    return -1;
  }

  class EntryList {
    var entries: seq<Named>

    constructor (entries: seq<Named>)
      ensures this.entries == entries
    {
      this.entries := entries;
    }

    /** Makes one name as it is in the desired list; reports whether the list changed. */
    method Reconcile(desired: seq<Named>, name: string) returns (update: bool)
      modifies this
      ensures Reconciled(old(entries), entries, name, Lookup(desired, name))
      ensures update <==> entries != old(entries)
      ensures update <==> Lookup(old(entries), name) != Lookup(desired, name)
    {
      hide Reconciled;
      update := false;
      var desiredIdx := Find(desired, name);
      var existingIdx := Find(entries, name);
      CountMeans(entries, name);
      if desiredIdx < 0 && existingIdx >= 0 {
        Removes(entries, existingIdx);
        entries := entries[..existingIdx] + entries[existingIdx + 1..];
        return true;
      } else if desiredIdx < 0 && existingIdx < 0 {
        Keeps(entries, name, None);
      } else if desiredIdx >= 0 && existingIdx < 0 {
        Appends(entries, desired[desiredIdx]);
        entries := entries + [desired[desiredIdx]];
        return true;
      } else if entries[existingIdx] != desired[desiredIdx] {
        Replaces(entries, existingIdx, desired[desiredIdx].value);
        assert desired[desiredIdx] == Named(entries[existingIdx].name, desired[desiredIdx].value);
        entries := entries[existingIdx := desired[desiredIdx]];
        assert entries[existingIdx] != old(entries)[existingIdx];
        return true;
      } else {
        Keeps(entries, name, Lookup(desired, name));
      }
    }

    /** Adds or replaces one entry. */
    method Ensure(desired: Named) returns (update: bool)
      modifies this
      ensures Reconciled(old(entries), entries, desired.name, Some(desired.value))
      ensures update <==> entries != old(entries)
    {
      hide Reconciled;
      for i := 0 to |entries|
        invariant entries == old(entries) && forall j :: 0 <= j < i ==> entries[j].name != desired.name
        invariant Lookup(entries, desired.name) == Lookup(entries[i..], desired.name)
      {
        assert entries[i..][0] == entries[i] && entries[i..][1..] == entries[i + 1..];
        if entries[i].name == desired.name {
          if entries[i] == desired {
            Keeps(entries, desired.name, Some(desired.value));
            return false;
          }
          Replaces(entries, i, desired.value);
          assert desired == Named(entries[i].name, desired.value);
          entries := entries[i := desired];
          assert entries[i] != old(entries)[i];
          return true;
        }
      }
      Appends(entries, desired);
      entries := entries + [desired];
      return true;
    }

    /** Reconciles the listed names one after the other, as for the volumes of a pod. */
    method ReconcileNames(desired: seq<Named>, names: seq<string>) returns (updated: bool)
      requires DistinctNames(entries)
      modifies this
      ensures DistinctNames(entries)
      ensures forall name :: name in names ==> Lookup(entries, name) == Lookup(desired, name)
      ensures Unmanaged(entries, names) == Unmanaged(old(entries), names)
      ensures updated <==> entries != old(entries)
    {
      hide Reconciled, Lookup, Unmanaged, DistinctNames;
      updated := false;
      for i := 0 to |names|
        invariant DistinctNames(entries)
        invariant Unmanaged(entries, names) == Unmanaged(old(entries), names)
        invariant forall name :: Lookup(entries, name) == Lookup(if name in names[..i] then desired
                  else old(entries), name)
        invariant !updated ==> entries == old(entries)
        invariant updated ==> exists name :: name in names[..i] && Lookup(old(entries), name) != Lookup(desired, name)
      {
        ghost var before, was := entries, updated;
        var tmpUpdated := Reconcile(desired, names[i]);
        assert names[..i + 1] == names[..i] + [names[i]];
        OneOfMany(before, entries, names[i], Lookup(desired, names[i]), names);
        updated := updated || tmpUpdated;
      }
      assert names[..|names|] == names;
    }
  }

  /** The entries of names that are not listed, in their order. */
  function Unmanaged(s: seq<Named>, names: seq<string>): seq<Named> {
    if s == [] then [] else
    (if s[0].name in names then [] else [s[0]]) + Unmanaged(s[1..], names)
  }

  lemma {:induction false} UnmanagedAreOthers(s: seq<Named>, name: string, names: seq<string>)
    requires name in names
    ensures Unmanaged(Others(s, name), names) == Unmanaged(s, names)
  {
    if s != [] {
      UnmanagedAreOthers(s[1..], name, names);
      if s[0].name != name {
        assert Others(s, name)[1..] == Others(s[1..], name);
      } else {
        assert Others(s, name) == Others(s[1..], name);
      }
    }
  }

  lemma {:induction false} OneOfMany(before: seq<Named>, after: seq<Named>, name: string, want: Option<string>,
                                     names: seq<string>)
    requires DistinctNames(before) && Reconciled(before, after, name, want) && name in names
    ensures DistinctNames(after) && Lookup(after, name) == want
    ensures forall other :: other != name ==> Lookup(after, other) == Lookup(before, other)
    ensures Unmanaged(after, names) == Unmanaged(before, names)
  {
    DistinctCounts(before);
    DistinctCounts(after);
    assert Count(before, name) <= 1;
    forall other ensures Count(after, other) <= 1 {
      assert Count(before, other) <= 1;
    }
    UnmanagedAreOthers(before, name, names);
    UnmanagedAreOthers(after, name, names);
    forall other | other != name ensures Lookup(after, other) == Lookup(before, other) {
      OtherLookup(before, name, other);
      OtherLookup(after, name, other);
    }
  }

  // ---------- Removing duplicates ----------

  /** The first entry of every name. */
  function Deduplicated(s: seq<Named>): seq<Named> {
    if s == [] then [] else
    var front, last := s[..|s| - 1], s[|s| - 1];
    Deduplicated(front) + (if Lookup(front, last.name).Some? then [] else [last])
  }

  lemma {:induction false} DeduplicatedOne(s: seq<Named>, name: string)
    ensures Count(Deduplicated(s), name) == if Count(s, name) > 0 then 1 else 0
    ensures Lookup(Deduplicated(s), name) == Lookup(s, name)
  {
    if s != [] {
      var front, last := s[..|s| - 1], s[|s| - 1];
      assert s == front + [last];
      DeduplicatedOne(front, name);
      OthersConcat(front, [last], name);
      OthersConcat(Deduplicated(front), [last], name);
      CountMeans(front, last.name);
      CountMeans(front, name);
      if Lookup(front, last.name).Some? {
        assert Deduplicated(s) == Deduplicated(front);
      }
    }
  }

  lemma {:induction false} DistinctStays(s: seq<Named>)
    requires DistinctNames(s)
    ensures Deduplicated(s) == s
  {
    if s != [] {
      var front, last := s[..|s| - 1], s[|s| - 1];
      assert s == front + [last];
      DistinctStays(front);
      CountMeans(front, last.name);
    }
  }

  /** No name is left twice, every name keeps the value that counts, and a list without duplicates stays as it is. */
  lemma {:induction false} DeduplicatedDistinct(s: seq<Named>)
    ensures DistinctNames(Deduplicated(s))
    ensures forall name :: Lookup(Deduplicated(s), name) == Lookup(s, name)
    ensures DistinctNames(s) <==> Deduplicated(s) == s
  {
    forall name ensures Lookup(Deduplicated(s), name) == Lookup(s, name) && Count(Deduplicated(s), name) <= 1 {
      DeduplicatedOne(s, name);
    }
    DistinctCounts(Deduplicated(s));
    if DistinctNames(s) {
      DistinctStays(s);
    }
  }

  method RemoveDuplicateEnvVars(s: seq<Named>) returns (result: seq<Named>)
    ensures result == Deduplicated(s)
    ensures DistinctNames(result) && forall name :: Lookup(result, name) == Lookup(s, name)
    ensures DistinctNames(s) <==> result == s
  {
    var seen: map<string, Named> := map[];
    result := [];
    for i := 0 to |s|
      invariant result == Deduplicated(s[..i])
      invariant forall name :: name in seen <==> Lookup(s[..i], name).Some?
    {
      assert s[..i + 1][..i] == s[..i] && s[..i + 1] == s[..i] + [s[i]];
      forall name ensures Lookup(s[..i + 1], name).Some? <==> Lookup(s[..i], name).Some? || name == s[i].name {
        OthersConcat(s[..i], [s[i]], name);
        CountMeans(s[..i], name);
      }
      if s[i].name !in seen {
        seen := seen[s[i].name := s[i]];
        result := result + [s[i]];
      }
    }
    assert s[..|s|] == s;
    DeduplicatedDistinct(s);
  }
}
