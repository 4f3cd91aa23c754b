/**
 The limits or the pricing rules of an application plan. Entries are never updated: an entry that is not desired is
 deleted, and one that is missing from the list read at the start is created.
 */
module PlanSync {
  import opened Calls
  import opened Options
  import opened StringSlices
  import opened ProductRefs

  /** What identifies an entry: its terms, and the metric they apply to. */
  datatype Key = Key(terms: string, metricID: int)

  datatype Remote = Remote(id: int, key: Key)

  datatype Write = Deleted(id: int) | Created(key: Key)

  /** The metrics and methods of the product and of the remote backends, by system name. */
  datatype Index = Index(product: map<string, int>, backends: map<string, map<string, int>>)

  const NO_METRIC := -1

  /** The identifier a reference stands for. A missing backend is an error, a missing metric is not. */
  function FindID(index: Index, ref: MetricRef): Option<int> {
    if ref.backend.None? then
      Some(if ref.systemName in index.product then index.product[ref.systemName] else NO_METRIC)
    else if ref.backend.value !in index.backends then None
    else
      var metrics := index.backends[ref.backend.value];
      Some(if ref.systemName in metrics then metrics[ref.systemName] else NO_METRIC)
  }

  /** The reference is to the metric with this identifier: one of the product, or one of the backend it names. */
  predicate Names(index: Index, ref: MetricRef, id: int) {
    match ref.backend
    case None => ref.systemName in index.product && index.product[ref.systemName] == id
    case Some(b) =>
      b in index.backends && ref.systemName in index.backends[b] && index.backends[b][ref.systemName] == id
  }

  /** No reference is to a backend that does not exist. */
  predicate Found(index: Index, desired: seq<Entry>) {
    forall i :: 0 <= i < |desired| ==> BackendFound(index, desired[i].ref)
  }

  predicate BackendFound(index: Index, ref: MetricRef) {
    ref.backend.Some? ==> ref.backend.value in index.backends
  }

  /** Every reference is to a metric. */
  predicate Resolved(index: Index, desired: seq<Entry>) {
    forall i :: 0 <= i < |desired| ==> Resolves(index, desired[i].ref)
  }

  predicate Resolves(index: Index, ref: MetricRef) {
    match ref.backend
    case None => ref.systemName in index.product
    case Some(b) => b in index.backends && ref.systemName in index.backends[b]
  }

  /** Some desired entry has these terms and refers to this metric. */
  ghost predicate Wanted(index: Index, desired: seq<Entry>, k: Key) {
    exists i :: 0 <= i < |desired| && desired[i].rest == k.terms && Names(index, desired[i].ref, k.metricID)
  }

  ghost predicate Present(entries: seq<Remote>, k: Key) {
    exists i :: 0 <= i < |entries| && entries[i].key == k
  }

  /** What is remote and what is wanted agree. */
  ghost predicate ExactlyWanted(index: Index, desired: seq<Entry>, entries: seq<Remote>) {
    forall k :: Present(entries, k) <==> Wanted(index, desired, k)
  }

  lemma {:induction false} FindIDNames(index: Index, ref: MetricRef)
    ensures FindID(index, ref).Some? <==> BackendFound(index, ref)
    ensures Resolves(index, ref) ==>
              FindID(index, ref).Some? && Names(index, ref, FindID(index, ref).value)
    ensures BackendFound(index, ref) && !Resolves(index, ref) ==> FindID(index, ref) == Some(NO_METRIC)
    ensures forall id :: Names(index, ref, id) ==> Resolves(index, ref) && FindID(index, ref) == Some(id)
  {
  }

  /** The index names only metrics that exist. */
  predicate Known(index: Index, metricIDs: set<int>) {
    && (forall name :: name in index.product ==> index.product[name] in metricIDs)
    && forall b :: b in index.backends ==>
         forall name :: name in index.backends[b] ==> index.backends[b][name] in metricIDs
  }

  function KeyOf(index: Index, e: Entry): Key
    requires FindID(index, e.ref).Some?
  {
    Key(e.rest, FindID(index, e.ref).value)
  }

  function KeysOf(index: Index, desired: seq<Entry>): (keys: seq<Key>)
    requires Found(index, desired)
    ensures |keys| == |desired|
  {
    seq(|desired|, i requires 0 <= i < |desired| => KeyOf(index, desired[i]))
  }

  /** For existing metrics, the keys the program computes are the wanted ones. */
  lemma {:induction false} KeysWanted(index: Index, desired: seq<Entry>, k: Key)
    requires Found(index, desired)
    ensures Wanted(index, desired, k) ==> k in KeysOf(index, desired)
    ensures k in KeysOf(index, desired) ==>
              || Wanted(index, desired, k)
              || (k.metricID == NO_METRIC && !Resolved(index, desired))
  {
    hide FindID, Names, Resolves, BackendFound;
    var keys := KeysOf(index, desired);
    if Wanted(index, desired, k) {
      var i :| 0 <= i < |desired| && desired[i].rest == k.terms && Names(index, desired[i].ref, k.metricID);
      FindIDNames(index, desired[i].ref);
      assert keys[i] == k;
    }
    if k in keys {
      var i :| 0 <= i < |keys| && keys[i] == k;
      FindIDNames(index, desired[i].ref);
    }
  }

  /** The keys of the entries are those computed exactly if all references resolve and just what is wanted is there. */
  lemma {:induction false} SameKeysWanted(index: Index, desired: seq<Entry>, entries: seq<Remote>)
    requires Found(index, desired) && forall r :: r in entries ==> r.key.metricID != NO_METRIC
    ensures SameKeys(RemoteKeys(entries), KeysOf(index, desired)) <==>
            Resolved(index, desired) && ExactlyWanted(index, desired, entries)
  {
    hide Resolved, Wanted, KeysOf;
    forall k ensures Present(entries, k) <==> k in RemoteKeys(entries) {
      RemoteKeysMembers(entries);
      if Present(entries, k) {
        var i :| 0 <= i < |entries| && entries[i].key == k;
        assert entries[i] in entries;
      }
    }
    forall k ensures Present(entries, k) ==> k.metricID != NO_METRIC {}
    if !Resolved(index, desired) {
      UnresolvedKey(index, desired);
    }
    forall k {
      KeysWanted(index, desired, k);
    }
  }

  lemma {:induction false} UnresolvedKey(index: Index, desired: seq<Entry>)
    requires Found(index, desired) && !Resolved(index, desired)
    ensures exists k :: k in KeysOf(index, desired) && k.metricID == NO_METRIC
  {
    var i :| 0 <= i < |desired| && !Resolves(index, desired[i].ref);
    FindIDNames(index, desired[i].ref);
    assert KeysOf(index, desired)[i] in KeysOf(index, desired);
  }

  predicate DistinctIDs(entries: seq<Remote>) {
    forall i, j :: 0 <= i < j < |entries| ==> entries[i].id != entries[j].id
  }

  function RemoteKeys(entries: seq<Remote>): seq<Key> {
    seq(|entries|, i requires 0 <= i < |entries| => entries[i].key)
  }

  /** The entries whose key is, or is not, among the given keys, in their order. */
  function Select(entries: seq<Remote>, keys: seq<Key>, desired: bool): seq<Remote> {
    if entries == [] then [] else
    var last := entries[|entries| - 1];
    Select(entries[..|entries| - 1], keys, desired) + (if (last.key in keys) == desired then [last] else [])
  }

  /** The keys that existing entries lack, in their order and as often as they occur. */
  function Lacking(keys: seq<Key>, existing: seq<Key>): seq<Key> {
    if keys == [] then [] else
    var last := keys[|keys| - 1];
    Lacking(keys[..|keys| - 1], existing) + (if last in existing then [] else [last])
  }

  /** The keys up to the first one whose metric does not exist. */
  function Creatable(keys: seq<Key>, metricIDs: set<int>): seq<Key> {
    if keys == [] || keys[0].metricID !in metricIDs then [] else [keys[0]] + Creatable(keys[1..], metricIDs)
  }

  lemma {:induction false} CreatableStops(keys: seq<Key>, n: nat, metricIDs: set<int>)
    requires n <= |keys| && forall i :: 0 <= i < n ==> keys[i].metricID in metricIDs
    requires n < |keys| ==> keys[n].metricID !in metricIDs
    ensures Creatable(keys, metricIDs) == keys[..n]
  {
    if n > 0 {
      CreatableStops(keys[1..], n - 1, metricIDs);
      assert [keys[0]] + keys[1..][..n - 1] == keys[..n];
    }
  }

  function WithoutIDs(entries: seq<Remote>, ids: set<int>): seq<Remote> {
    if entries == [] then [] else
    var last := entries[|entries| - 1];
    WithoutIDs(entries[..|entries| - 1], ids) + (if last.id in ids then [] else [last])
  }

  function IDs(entries: seq<Remote>): set<int> {
    set i | 0 <= i < |entries| :: entries[i].id
  }

  lemma {:induction false} SelectMembers(entries: seq<Remote>, keys: seq<Key>, desired: bool)
    ensures forall r :: r in Select(entries, keys, desired) <==> r in entries && (r.key in keys) == desired
  {
    if entries != [] {
      var front := entries[..|entries| - 1];
      assert entries == front + [entries[|entries| - 1]];
      SelectMembers(front, keys, desired);
    }
  }

  lemma {:induction false} LackingMembers(keys: seq<Key>, existing: seq<Key>)
    ensures forall k :: k in Lacking(keys, existing) <==> k in keys && k !in existing
  {
    if keys != [] {
      var front := keys[..|keys| - 1];
      assert keys == front + [keys[|keys| - 1]];
      LackingMembers(front, existing);
    }
  }

  lemma {:induction false} RemoteKeysMembers(entries: seq<Remote>)
    ensures forall k :: k in RemoteKeys(entries) <==> exists r :: r in entries && r.key == k
  {
    forall r | r in entries ensures r.key in RemoteKeys(entries) {
      var i :| 0 <= i < |entries| && entries[i] == r;
      assert RemoteKeys(entries)[i] == r.key;
    }
    forall k | k in RemoteKeys(entries) ensures exists r :: r in entries && r.key == k {
      var i :| 0 <= i < |entries| && RemoteKeys(entries)[i] == k;
      assert entries[i] in entries;
    }
  }

  /** Deleting the undesired entries leaves the desired ones. */
  lemma {:induction false} DeletingLeaves(all: seq<Remote>, n: nat, keys: seq<Key>)
    requires DistinctIDs(all) && n <= |all|
    ensures WithoutIDs(all[..n], IDs(Select(all, keys, false))) == Select(all[..n], keys, true)
  {
    if n > 0 {
      var last := all[n - 1];
      assert all[..n][..n - 1] == all[..n - 1];
      DeletingLeaves(all, n - 1, keys);
      SelectMembers(all, keys, false);
      assert last in all;
      if last.id in IDs(Select(all, keys, false)) {
        var i :| 0 <= i < |Select(all, keys, false)| && Select(all, keys, false)[i].id == last.id;
        assert Select(all, keys, false)[i] in all;
        var j :| 0 <= j < |all| && all[j] == Select(all, keys, false)[i];
        assert j == n - 1;
      } else {
        assert last !in Select(all, keys, false);
      }
    }
  }

  lemma {:induction false} AllDeleted(all: seq<Remote>, keys: seq<Key>)
    requires DistinctIDs(all)
    ensures WithoutIDs(all, IDs(Select(all, keys, false))) == Select(all, keys, true)
  {
    DeletingLeaves(all, |all|, keys);
    assert all[..|all|] == all;
  }

  /** What is left after deletions: entries from before, among them all with one of the keys. */
  ghost predicate LeavesDesired(before: seq<Remote>, keys: seq<Key>, after: seq<Remote>) {
    && (forall r :: r in after ==> r in before)
    && forall r :: r in before && r.key in keys ==> r in after
  }

  lemma {:induction false} DesiredStays(all: seq<Remote>, keys: seq<Key>, n: nat)
    requires DistinctIDs(all) && n <= |Select(all, keys, false)|
    ensures LeavesDesired(all, keys, WithoutIDs(all, IDs(Select(all, keys, false)[..n])))
  {
    var gone := Select(all, keys, false);
    hide Select, WithoutIDs, DistinctIDs;
    WithoutIDsDistinct(all, IDs(gone[..n]));
    WithoutIDsDistinct(all, IDs(gone));
    AllDeleted(all, keys);
    SelectMembers(all, keys, true);
    assert IDs(gone[..n]) <= IDs(gone);
  }

  lemma {:induction false} DeletedOneMore(all: seq<Remote>, gone: seq<Remote>, i: nat)
    requires i < |gone|
    ensures WithoutIDs(WithoutIDs(all, IDs(gone[..i])), {gone[i].id}) == WithoutIDs(all, IDs(gone[..i + 1]))
  {
    WithoutIDsTwice(all, IDs(gone[..i]), {gone[i].id});
    assert IDs(gone[..i + 1]) == IDs(gone[..i]) + {gone[i].id};
  }

  lemma {:induction false} WithoutIDsTwice(entries: seq<Remote>, ids: set<int>, more: set<int>)
    ensures WithoutIDs(WithoutIDs(entries, ids), more) == WithoutIDs(entries, ids + more)
  {
    if entries != [] {
      var front, last := entries[..|entries| - 1], entries[|entries| - 1];
      WithoutIDsTwice(front, ids, more);
      var kept := WithoutIDs(front, ids);
      if last.id in ids {
        assert WithoutIDs(entries, ids) == kept;
      } else {
        assert (kept + [last])[..|kept|] == kept;
      }
    }
  }

  lemma {:induction false} NoIDs(entries: seq<Remote>)
    ensures IDs(entries[..0]) == {}
  {
  }

  lemma {:induction false} WithoutNoIDs(entries: seq<Remote>)
    ensures WithoutIDs(entries, {}) == entries
  {
    if entries != [] { WithoutNoIDs(entries[..|entries| - 1]); }
  }

  lemma {:induction false} WithoutIDsDistinct(entries: seq<Remote>, ids: set<int>)
    ensures forall r :: r in WithoutIDs(entries, ids) <==> r in entries && r.id !in ids
    ensures DistinctIDs(entries) ==> DistinctIDs(WithoutIDs(entries, ids))
  {
    if entries != [] {
      var front := entries[..|entries| - 1];
      assert entries == front + [entries[|entries| - 1]];
      WithoutIDsDistinct(front, ids);
    }
  }

  ghost predicate SameKeys(a: seq<Key>, b: seq<Key>) {
    forall k :: k in a <==> k in b
  }

  /** The keys left by an error-free run are the desired ones, though creations follow the list read at the start. */
  lemma {:induction false} ResultHasDesiredKeys(existing: seq<Remote>, keys: seq<Key>, after: seq<Remote>)
    requires RemoteKeys(after) == RemoteKeys(Select(existing, keys, true)) + Lacking(keys, RemoteKeys(existing))
    ensures SameKeys(RemoteKeys(after), keys)
  {
    SelectMembers(existing, keys, true);
    LackingMembers(keys, RemoteKeys(existing));
    RemoteKeysMembers(existing);
    RemoteKeysMembers(Select(existing, keys, true));
    forall k | k in keys ensures k in RemoteKeys(after) {
      if k in RemoteKeys(existing) {
        var r :| r in existing && r.key == k;
        assert r in Select(existing, keys, true);
      }
    }
  }

  /** There is nothing to delete and nothing to create exactly when the keys agree already. */
  lemma {:induction false} NothingToDo(existing: seq<Remote>, keys: seq<Key>)
    ensures Select(existing, keys, false) == [] && Lacking(keys, RemoteKeys(existing)) == [] <==>
            SameKeys(RemoteKeys(existing), keys)
  {
    SelectMembers(existing, keys, false);
    LackingMembers(keys, RemoteKeys(existing));
    RemoteKeysMembers(existing);
    if Select(existing, keys, false) != [] {
      var r := Select(existing, keys, false)[0];
      assert r in Select(existing, keys, false);
      assert r.key in RemoteKeys(existing) && r.key !in keys;
    } else if Lacking(keys, RemoteKeys(existing)) != [] {
      var k := Lacking(keys, RemoteKeys(existing))[0];
      assert k in Lacking(keys, RemoteKeys(existing));
    } else {
      forall k ensures k in RemoteKeys(existing) <==> k in keys {
        if k in RemoteKeys(existing) {
          var r :| r in existing && r.key == k;
          assert r !in Select(existing, keys, false);
        }
        assert k !in Lacking(keys, RemoteKeys(existing));
      }
    }
  }

  class PlanServer {
    var entries: seq<Remote>
    var nextID: int
    /** The identifiers of the remote metrics an entry can apply to. */
    const metricIDs: set<int>
    /** No call fails for a reason outside the program. */
    const reliable: bool
    ghost var writes: seq<Write>

    ghost predicate Valid()
      reads this
    {
      && DistinctIDs(entries) && NO_METRIC !in metricIDs
      && forall r :: r in entries ==> r.id < nextID && r.key.metricID in metricIDs
    }

    constructor (entries: seq<Remote>, nextID: int, metricIDs: set<int>, reliable: bool)
      requires DistinctIDs(entries) && NO_METRIC !in metricIDs
      requires forall r :: r in entries ==> r.id < nextID && r.key.metricID in metricIDs
      ensures Valid() && this.entries == entries && this.metricIDs == metricIDs && this.reliable == reliable
      ensures writes == []
    {
      this.entries, this.nextID, this.metricIDs, this.reliable := entries, nextID, metricIDs, reliable;
      writes := [];
    }

    method List() returns (ok: bool, listed: seq<Remote>)
      ensures reliable ==> ok
      ensures listed == entries
    {
      var applied: bool;
      ok, applied := Fate(reliable);
      listed := entries;
    }

    method Delete(id: int) returns (ok: bool)
      requires Valid()
      modifies this`entries, this`writes
      ensures Valid() && writes == old(writes) + [Deleted(id)]
      ensures ok ==> entries == WithoutIDs(old(entries), {id})
      ensures entries == WithoutIDs(old(entries), {id}) || entries == old(entries)
      ensures reliable ==> ok
    {
      writes := writes + [Deleted(id)];
      var applied: bool;
      ok, applied := Fate(reliable);
      if applied {
        WithoutIDsDistinct(entries, {id});
        entries := WithoutIDs(entries, {id});
      }
    }

    /** Refuses an entry for a metric that does not exist. */
    method Create(key: Key) returns (ok: bool)
      requires Valid()
      modifies this`entries, this`nextID, this`writes
      ensures Valid() && writes == old(writes) + [Created(key)]
      ensures ok ==> key.metricID in metricIDs && entries == old(entries) + [Remote(old(nextID), key)]
      ensures key.metricID !in metricIDs ==> entries == old(entries)
      ensures entries == old(entries) || entries == old(entries) + [Remote(old(nextID), key)]
      ensures reliable ==> (ok <==> key.metricID in metricIDs)
    {
      writes := writes + [Created(key)];
      if key.metricID !in metricIDs { return false; }
      var applied: bool;
      ok, applied := Fate(reliable);
      if applied {
        entries := entries + [Remote(nextID, key)];
        nextID := nextID + 1;
      }
    }
  }

  class PlanReconciler {
    const server: PlanServer
    const index: Index

    constructor (server: PlanServer, index: Index)
      ensures this.server == server && this.index == index
    {
      this.server, this.index := server, index;
    }

    /** Fails for a missing backend, and whenever the remote lists of metrics cannot be read. */
    method FindMetricID(ref: MetricRef) returns (ok: bool, id: int)
      ensures ok ==> BackendFound(index, ref) && FindID(index, ref) == Some(id)
      ensures ok && Resolves(index, ref) ==> Names(index, ref, id)
      ensures ok && !Resolves(index, ref) ==> id == NO_METRIC
      ensures server.reliable ==> (ok <==> BackendFound(index, ref))
    {
      FindIDNames(index, ref);
      var found := FindID(index, ref);
      if found.None? { return false, 0; }
      var applied: bool;
      ok, applied := Fate(server.reliable);
      id := found.value;
    }

    /** Resolves every reference, or none of them counts. */
    method ResolveAll(desired: seq<Entry>) returns (ok: bool, keys: seq<Key>)
      ensures ok ==> Found(index, desired) && keys == KeysOf(index, desired)
      ensures server.reliable ==> (ok <==> Found(index, desired))
    {
      keys := [];
      for i := 0 to |desired|
        invariant |keys| == i
        invariant forall j :: 0 <= j < i ==> FindID(index, desired[j].ref).Some? && keys[j] == KeyOf(index, desired[j])
      {
        var id;
        ok, id := FindMetricID(desired[i].ref);
        if !ok { return false, []; }
        keys := keys + [Key(desired[i].rest, id)];
      }
      return true, keys;
    }

    method ComputeUndesired(existing: seq<Remote>, desired: seq<Entry>) returns (ok: bool, result: seq<Remote>)
      ensures ok ==> Found(index, desired) && result == Select(existing, KeysOf(index, desired), false)
      ensures server.reliable ==> (ok <==> Found(index, desired))
    {
      var target;
      result := [];
      ok, target := ResolveAll(desired);
      if !ok { return; }
      for i := 0 to |existing|
        invariant result == Select(existing[..i], target, false)
      {
        assert existing[..i + 1][..i] == existing[..i];
        if existing[i].key !in target { result := result + [existing[i]]; }
      }
      assert existing[..|existing|] == existing;
    }

    method ComputeDesired(desired: seq<Entry>, existing: seq<Remote>) returns (ok: bool, result: seq<Entry>)
      ensures ok ==> Found(index, desired) && Found(index, result)
      ensures ok ==> KeysOf(index, result) == Lacking(KeysOf(index, desired), RemoteKeys(existing))
      ensures server.reliable ==> (ok <==> Found(index, desired))
    {
      var target := RemoteKeys(existing);
      result := [];
      for i := 0 to |desired|
        invariant Found(index, desired[..i]) && Found(index, result)
        invariant KeysOf(index, result) == Lacking(KeysOf(index, desired[..i]), target)
      {
        var id;
        ok, id := FindMetricID(desired[i].ref);
        if !ok { return false, []; }
        ghost var keys := KeysOf(index, desired[..i + 1]);
        assert keys[..i] == KeysOf(index, desired[..i]);
        var key := Key(desired[i].rest, id);
        if key !in target {
          ghost var before := KeysOf(index, result);
          result := result + [desired[i]];
          assert KeysOf(index, result) == before + [key];
        }
      }
      assert desired[..|desired|] == desired;
      return true, result;
    }

    method DeleteAll(undesired: seq<Remote>, ghost keys: seq<Key>) returns (ok: bool)
      requires server.Valid() && undesired == Select(server.entries, keys, false)
      modifies server
      ensures server.Valid() && (server.reliable ==> ok)
      ensures old(server.writes) <= server.writes
      ensures server.writes == old(server.writes) <==> undesired == []
      ensures ok ==> server.entries == Select(old(server.entries), keys, true)
      ensures forall r :: r in server.entries ==> r in old(server.entries)
      ensures forall r :: r in old(server.entries) && r.key in keys ==> r in server.entries
    {
      hide Select, WithoutIDs, IDs, DistinctIDs;
      ok := true;
      WithoutNoIDs(server.entries);
      NoIDs(undesired);
      AllDeleted(server.entries, keys);
      DesiredStays(server.entries, keys, 0);
      for i := 0 to |undesired|
        invariant ok && server.Valid() && old(server.writes) <= server.writes
        invariant |server.writes| == |old(server.writes)| + i
        invariant server.entries == WithoutIDs(old(server.entries), IDs(undesired[..i]))
        invariant LeavesDesired(old(server.entries), keys, server.entries)
      {
        DeletedOneMore(old(server.entries), undesired, i);
        DesiredStays(old(server.entries), keys, i + 1);
        ok := server.Delete(undesired[i].id);
        if !ok { return; }
      }
      assert undesired[..|undesired|] == undesired;
    }

    method CreateAll(fresh': seq<Entry>) returns (ok: bool)
      requires server.Valid() && Found(index, fresh')
      modifies server
      ensures server.Valid()
      ensures old(server.writes) <= server.writes
      ensures ok || server.reliable ==> (server.writes == old(server.writes) <==> fresh' == [])
      ensures ok ==> RemoteKeys(server.entries) == RemoteKeys(old(server.entries)) + KeysOf(index, fresh')
      ensures old(server.entries) <= server.entries
      ensures forall r :: r in server.entries ==> r in old(server.entries) || r.key in KeysOf(index, fresh')
      ensures server.reliable ==>
                && (ok <==> forall k :: k in KeysOf(index, fresh') ==> k.metricID in server.metricIDs)
                && RemoteKeys(server.entries) ==
                   RemoteKeys(old(server.entries)) + Creatable(KeysOf(index, fresh'), server.metricIDs)
    {
      ok := true;
      for i := 0 to |fresh'|
        invariant ok && server.Valid() && old(server.writes) <= server.writes
        invariant |server.writes| == |old(server.writes)| + i
        invariant RemoteKeys(server.entries) == RemoteKeys(old(server.entries)) + KeysOf(index, fresh'[..i])
        invariant forall j :: 0 <= j < i ==> KeysOf(index, fresh')[j].metricID in server.metricIDs
        invariant old(server.entries) <= server.entries
        invariant forall r :: r in server.entries ==> r in old(server.entries) || r.key in KeysOf(index, fresh')
      {
        var id;
        ok, id := FindMetricID(fresh'[i].ref);
        if !ok { return; }
        ghost var before := RemoteKeys(server.entries);
        ok := server.Create(Key(fresh'[i].rest, id));
        assert KeysOf(index, fresh')[i] == Key(fresh'[i].rest, id);
        if !ok {
          assert KeysOf(index, fresh')[i] in KeysOf(index, fresh');
          if server.reliable {
            CreatableStops(KeysOf(index, fresh'), i, server.metricIDs);
            assert KeysOf(index, fresh'[..i]) == KeysOf(index, fresh')[..i];
          }
          return;
        }
        assert RemoteKeys(server.entries) == before + [KeysOf(index, fresh')[i]];
        assert KeysOf(index, fresh'[..i + 1]) == KeysOf(index, fresh'[..i]) + [KeysOf(index, fresh')[i]];
      }
      assert fresh'[..|fresh'|] == fresh';
      CreatableStops(KeysOf(index, fresh'), |fresh'|, server.metricIDs);
      assert KeysOf(index, fresh')[..|fresh'|] == KeysOf(index, fresh');
    }

    /** What a run does when no call fails: when it succeeds, when it writes at all, and what it leaves. */
    twostate predicate RunsReliably(desired: seq<Entry>, ok: bool)
      requires Found(index, desired)
      reads server
    {
      && (ok <==> Resolved(index, desired) &&
                  forall k :: Wanted(index, desired, k) ==> k.metricID in server.metricIDs)
      && (server.writes == old(server.writes) <==>
          Resolved(index, desired) && ExactlyWanted(index, desired, old(server.entries)))
      && RemoteKeys(server.entries) == LeftBy(old(server.entries), KeysOf(index, desired), server.metricIDs)
    }

    /** No run, failed or not, deletes an entry that is wanted or creates one that is not. */
    twostate predicate KeepsWanted(desired: seq<Entry>)
      reads server
    {
      && (forall r :: r in old(server.entries) && Wanted(index, desired, r.key) ==> r in server.entries)
      && forall r :: r in server.entries ==> r in old(server.entries) || Wanted(index, desired, r.key)
    }

    /**
     After an error-free run an entry with given terms for a given metric is remote exactly if a desired entry has these
     terms and refers to that metric. A missing backend stops the run before any write. A reference to a metric that
     does not exist fails the run as well, but only when its entry is created, and never before something was written:
     when no call fails, a run with an unresolved reference writes nothing exactly if a backend is missing.
     */
    method Sync(desired: seq<Entry>) returns (ok: bool)
      requires server.Valid()
      modifies server
      ensures server.Valid() && old(server.writes) <= server.writes
      ensures ok ==> Resolved(index, desired) && ExactlyWanted(index, desired, server.entries)
      ensures ok ==> (server.writes == old(server.writes) <==> ExactlyWanted(index, desired, old(server.entries)))
      ensures KeepsWanted(desired)
      ensures !Found(index, desired) ==>
                !ok && server.writes == old(server.writes) && server.entries == old(server.entries)
      ensures server.reliable && !Resolved(index, desired) ==>
                (server.writes == old(server.writes) <==> !Found(index, desired))
      ensures server.reliable && Known(index, server.metricIDs) ==> (ok <==> Resolved(index, desired))
      ensures server.reliable && Found(index, desired) ==> RunsReliably(desired, ok)
    {
      hide Select, Lacking, DistinctIDs, Known, Resolved, Wanted, Names, FindID, KeysOf;
      ResolvedFound(index, desired);
      var existing, undesired, fresh';
      ok, existing := server.List();
      if !ok { return; }
      ok, undesired := ComputeUndesired(existing, desired);
      if !ok { return; }
      ghost var keys := KeysOf(index, desired);
      NothingToDo(existing, keys);
      NewKeysMatter(existing, keys, server.metricIDs);
      SameKeysWanted(index, desired, existing);
      KeysMatter(index, desired, server.metricIDs);
      LackingMembers(keys, RemoteKeys(existing));
      forall k { KeysWanted(index, desired, k); }
      ok := DeleteAll(undesired, keys);
      if !ok { return; }
      ok, fresh' := ComputeDesired(desired, existing);
      if !ok { return; }
      assert |KeysOf(index, fresh')| == |fresh'|;
      ok := CreateAll(fresh');
      if ok {
        ResultHasDesiredKeys(existing, keys, server.entries);
        SameKeysWanted(index, desired, server.entries);
      }
    }
  }

  /** The keys left by a run in which no call fails. */
  function LeftBy(existing: seq<Remote>, keys: seq<Key>, metricIDs: set<int>): seq<Key> {
    RemoteKeys(Select(existing, keys, true)) + Creatable(Lacking(keys, RemoteKeys(existing)), metricIDs)
  }

  lemma {:induction false} ResolvedFound(index: Index, desired: seq<Entry>)
    ensures Resolved(index, desired) ==> Found(index, desired)
  {
    forall i | 0 <= i < |desired| && Resolves(index, desired[i].ref) ensures BackendFound(index, desired[i].ref) {}
  }

  /** All creations can succeed exactly if every reference is to a metric and all those metrics exist. */
  lemma {:induction false} KeysMatter(index: Index, desired: seq<Entry>, metricIDs: set<int>)
    requires Found(index, desired) && NO_METRIC !in metricIDs
    ensures (forall k :: k in KeysOf(index, desired) ==> k.metricID in metricIDs) <==>
            && Resolved(index, desired)
            && forall k :: Wanted(index, desired, k) ==> k.metricID in metricIDs
    ensures Known(index, metricIDs) ==>
              forall k :: Wanted(index, desired, k) ==> k.metricID in metricIDs
  {
    hide Resolved, KeysOf;
    if !Resolved(index, desired) { UnresolvedKey(index, desired); }
    forall k { KeysWanted(index, desired, k); }
  }

  // ---------- A missing metric is noticed too late ----------

  const DAILY := "day:10"
  const ONLY_HITS := Index(map["hits" := 7], map[])
  const REMOTE_LIMIT := Remote(1, Key(DAILY, 7))
  const DANGLING := Entry(MetricRef(None, "gone"), DAILY)

  /** The one remote limit is deleted for a desired one whose metric does not exist. */
  lemma {:induction false} NothingLeft()
    ensures Found(ONLY_HITS, [DANGLING]) && !Resolved(ONLY_HITS, [DANGLING])
    ensures LeftBy([REMOTE_LIMIT], KeysOf(ONLY_HITS, [DANGLING]), {7}) == []
  {
    assert FindID(ONLY_HITS, [DANGLING][0].ref) == Some(NO_METRIC);
    var keys := KeysOf(ONLY_HITS, [DANGLING]);
    assert keys[0] == Key(DAILY, NO_METRIC);
    SelectMembers([REMOTE_LIMIT], keys, true);
    LackingMembers(keys, RemoteKeys([REMOTE_LIMIT]));
    HasMember(Select([REMOTE_LIMIT], keys, true));
    var lacking := Lacking(keys, RemoteKeys([REMOTE_LIMIT]));
    assert lacking != [] ==> lacking[0] in lacking;
  }

  lemma {:induction false} HasMember<T>(s: seq<T>)
    ensures s != [] ==> exists x :: x in s
  {
    if s != [] { assert s[0] in s; }
  }

  /** The run that loses it, although no call fails for an outside reason. */
  method DeletedForNothing() returns (server: PlanServer, ok: bool)
    ensures fresh(server) && server.reliable && !ok && server.entries == [] && server.writes != []
  {
    server := new PlanServer([REMOTE_LIMIT], 2, {7}, true);
    var reconciler := new PlanReconciler(server, ONLY_HITS);
    NothingLeft();
    ok := reconciler.Sync([DANGLING]);
    assert |RemoteKeys(server.entries)| == |server.entries|;
  }

  /** Entries exist for existing metrics only, so a key without a metric is always lacking. */
  lemma {:induction false} NewKeysMatter(existing: seq<Remote>, keys: seq<Key>, metricIDs: set<int>)
    requires forall r :: r in existing ==> r.key.metricID in metricIDs
    ensures (forall k :: k in Lacking(keys, RemoteKeys(existing)) ==> k.metricID in metricIDs) <==>
            (forall k :: k in keys ==> k.metricID in metricIDs)
  {
    LackingMembers(keys, RemoteKeys(existing));
    RemoteKeysMembers(existing);
  }
}
