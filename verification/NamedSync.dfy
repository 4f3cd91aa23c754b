/**
 The synchronisation of collections whose items are known by system name. Methods and metrics are updated, created and
 deleted in this order; backend usages and application plans are deleted first. Maps are walked in any order.
 */
module NamedSync {
  import opened Options
  import opened StringSlices
  import opened NamedItems
  import opened Tasks

  type Items = map<string, Item>
  type Specs = map<string, Attributes>

  predicate Meets(item: Item, spec: Attributes) {
    forall f :: f in spec ==> f in item.attributes && item.attributes[f] == spec[f]
  }

  /** The attributes an update sends: those that differ. */
  function Changes(item: Item, spec: Attributes): Attributes {
    map f | f in spec && !(f in item.attributes && item.attributes[f] == spec[f]) :: spec[f]
  }

  /** The attributes a creation sends: an empty description is left out. */
  function CreationParams(spec: Attributes): Attributes {
    if DESCRIPTION in spec && spec[DESCRIPTION] == Text("") then spec - {DESCRIPTION} else spec
  }

  ghost predicate Settled(items: Items, desired: Specs, name: string) {
    && (name in items <==> name in desired)
    && (name in items ==> Meets(items[name], desired[name]))
  }

  ghost predicate Converged(items: Items, desired: Specs) {
    items.Keys == desired.Keys && forall name :: name in desired ==> Meets(items[name], desired[name])
  }

  lemma {:induction false} ConvergedIsSettled(items: Items, desired: Specs)
    ensures Converged(items, desired) <==> forall name :: name in items.Keys + desired.Keys ==>
            Settled(items, desired, name)
  {
    if items.Keys != desired.Keys {
      var name :| name in items.Keys + desired.Keys && (name in items) != (name in desired);
      assert !Settled(items, desired, name);
    } else if !Converged(items, desired) {
      var name :| name in desired && !Meets(items[name], desired[name]);
      assert !Settled(items, desired, name);
    }
  }

  /** What has become of one name: an item that was there and is desired is still the same item. */
  ghost predicate Handled(before: Items, now: Items, desired: Specs, name: string) {
    && Settled(now, desired, name)
    && (name in before && name in now ==> now[name].id == before[name].id)
  }

  ghost predicate Untouched(before: Items, now: Items, name: string) {
    (name in now <==> name in before) && (name in now ==> now[name] == before[name])
  }

  /** The names in done are as desired; nothing happened to the others. */
  ghost predicate Progress(before: Items, now: Items, desired: Specs, done: set<string>) {
    && (forall name :: name in done ==> Handled(before, now, desired, name))
    && (forall name :: name !in done ==> Untouched(before, now, name))
  }

  lemma {:induction false} ProgressStep(before: Items, now: Items, next: Items, desired: Specs, done: set<string>,
                                        name: string)
    requires Progress(before, now, desired, done) && name !in done
    requires forall other :: other != name ==> Untouched(now, next, other)
    requires Handled(before, next, desired, name)
    ensures Progress(before, next, desired, done + {name})
  {
    forall other | other in done ensures Handled(before, next, desired, other) {
      assert Untouched(now, next, other) && Handled(before, now, desired, other);
    }
    forall other | other !in done + {name} ensures Untouched(before, next, other) {
      assert Untouched(now, next, other) && Untouched(before, now, other);
    }
  }

  /** No name appears that is neither desired nor was there. */
  lemma {:induction false} ProgressWithin(before: Items, now: Items, desired: Specs, done: set<string>)
    requires Progress(before, now, desired, done)
    ensures now.Keys <= before.Keys + desired.Keys
  {
    forall name | name in now ensures name in before.Keys + desired.Keys {
      assert Handled(before, now, desired, name) || Untouched(before, now, name);
    }
  }

  lemma {:induction false} ProgressDone(before: Items, now: Items, desired: Specs, done: set<string>)
    requires Progress(before, now, desired, done) && before.Keys + desired.Keys <= done
    ensures Converged(now, desired)
    ensures forall name :: name in before && name in desired ==> now[name].id == before[name].id
  {
    forall name ensures name in now <==> name in desired {
      assert Untouched(before, now, name) || Handled(before, now, desired, name);
    }
    forall name | name in desired ensures Meets(now[name], desired[name]) {
      assert Handled(before, now, desired, name);
    }
    forall name | name in before && name in desired ensures now[name].id == before[name].id {
      assert Handled(before, now, desired, name);
    }
  }

  lemma {:induction false} ChangesMeet(item: Item, spec: Attributes)
    requires spec.Keys <= item.attributes.Keys
    ensures Meets(Item(item.id, Merged(item.attributes, Changes(item, spec))), spec)
    ensures Changes(item, spec) == map[] <==> Meets(item, spec)
  {
  }

  lemma {:induction false} CreationMeets(id: int, defaults: Attributes, spec: Attributes)
    requires spec.Keys <= defaults.Keys && (DESCRIPTION in defaults ==> defaults[DESCRIPTION] == Text(""))
    ensures Meets(Item(id, Initial(defaults, CreationParams(spec))), spec)
  {
  }

  /** Every write so far came from a name that was not settled, and every such name caused one. */
  ghost predicate WroteFor(quiet: bool, before: Items, desired: Specs, done: set<string>) {
    quiet <==> forall name :: name in done ==> Settled(before, desired, name)
  }

  lemma {:induction false} WroteForStep(quiet: bool, quiet': bool, before: Items, desired: Specs, done: set<string>,
                                        name: string)
    requires WroteFor(quiet, before, desired, done)
    requires quiet' <==> quiet && Settled(before, desired, name)
    ensures WroteFor(quiet', before, desired, done + {name})
  {
  }

  /** The step from world now to world next handles a name. */
  lemma {:induction false} StepAt(before: Items, now: Items, next: Items, desired: Specs,
                                  done: set<string>, name: string,
                                  quiet: bool, quiet': bool)
    requires Progress(before, now, desired, done) && WroteFor(quiet, before, desired, done) && name !in done
    requires forall other :: other != name ==> Untouched(now, next, other)
    requires Handled(before, next, desired, name)
    requires quiet' <==> quiet && Settled(before, desired, name)
    ensures Progress(before, next, desired, done + {name}) && WroteFor(quiet', before, desired, done + {name})
    ensures next.Keys <= before.Keys + desired.Keys
  {
    ProgressStep(before, now, next, desired, done, name);
    ProgressWithin(before, next, desired, done + {name});
    WroteForStep(quiet, quiet', before, desired, done, name);
  }

  lemma {:induction false} UpdateHandles(before: Items, now: Items, next: Items, desired: Specs, name: string)
    requires name in before && name in now && now[name] == before[name] && name in desired
    requires desired[name].Keys <= now[name].attributes.Keys
    requires var item, params := now[name], Changes(now[name], desired[name]);
             next == if params == map[] then now else now[name := Item(item.id, Merged(item.attributes, params))]
    ensures Handled(before, next, desired, name)
    ensures Changes(now[name], desired[name]) == map[] <==> Settled(before, desired, name)
    ensures forall other :: other != name ==> Untouched(now, next, other)
  {
    ChangesMeet(now[name], desired[name]);
  }

  function Members(keys: seq<string>): set<string> {
    set name | name in keys
  }

  /** Existing and desired names split into those on both sides, those to create and those to delete. */
  datatype Split = Split(matched: seq<string>, fresh': seq<string>, gone: seq<string>)

  ghost predicate Splits(s: Split, index: Items, desired: Specs) {
    && Distinct(s.matched) && (forall name :: name in s.matched <==> name in index && name in desired)
    && Distinct(s.fresh') && (forall name :: name in s.fresh' <==> name !in index && name in desired)
    && Distinct(s.gone) && (forall name :: name in s.gone <==> name in index && name !in desired)
  }

  lemma {:induction false} SplitCovers(s: Split, index: Items, desired: Specs)
    requires Splits(s, index, desired)
    ensures Members(s.matched) + Members(s.fresh') + Members(s.gone) == index.Keys + desired.Keys
    ensures Members(s.matched) !! Members(s.fresh') !! Members(s.gone)
    ensures Members(s.gone) == index.Keys - desired.Keys
  {
  }

  /** Once all existing and desired names are handled. */
  lemma {:induction false} AllHandled(before: Items, now: Items, desired: Specs, quiet: bool, done: set<string>)
    requires Progress(before, now, desired, done) && WroteFor(quiet, before, desired, done)
    requires done == before.Keys + desired.Keys
    ensures Converged(now, desired)
    ensures forall name :: name in before && name in desired ==> now[name].id == before[name].id
    ensures quiet <==> Converged(before, desired)
  {
    ProgressDone(before, now, desired, done);
    ConvergedIsSettled(before, desired);
  }

  /** Every desired item is there as desired, and is the one that was there if there was one. */
  ghost predicate AllMet(before: Items, now: Items, desired: Specs) {
    forall name :: name in desired ==>
      && name in now && Meets(now[name], desired[name])
      && (name in before ==> now[name].id == before[name].id)
  }

  lemma {:induction false} DesiredHandled(before: Items, now: Items, desired: Specs, done: set<string>)
    requires Progress(before, now, desired, done) && desired.Keys <= done
    ensures AllMet(before, now, desired)
  {
    forall name | name in desired ensures Handled(before, now, desired, name) {}
  }

  /** The names that are created or stay are all the desired ones. */
  lemma {:induction false} SplitDesired(s: Split, index: Items, desired: Specs)
    requires Splits(s, index, desired)
    ensures desired.Keys <= {} + Members(s.matched) + Members(s.fresh') && Members(s.matched) <= index.Keys
  {
  }

  lemma {:induction false} FreshDesired(s: Split, index: Items, desired: Specs)
    requires Splits(s, index, desired)
    ensures Members(s.fresh') <= desired.Keys
  {
  }

  lemma {:induction false} NotYetThere(before: Items, now: Items, desired: Specs, done: set<string>, name: string)
    requires Progress(before, now, desired, done) && name !in done && name !in before
    ensures name !in now
  {
  }

  lemma {:induction false} PlanHandled(before: Items, now: Items, created: Items, next: Items, desired: Specs,
                                       name: string)
    requires name !in before && name !in now && name in desired && name in created
    requires created == now[name := created[name]] && desired[name].Keys <= created[name].attributes.Keys
    requires var item, params := created[name], Changes(created[name], desired[name]);
             next == if params == map[] then created
                     else created[name := Item(item.id, Merged(item.attributes, params))]
    ensures Handled(before, next, desired, name) && !Settled(before, desired, name)
    ensures forall other :: other != name ==> Untouched(now, next, other)
  {
    ChangesMeet(created[name], desired[name]);
  }

  class NamedReconciler {
    const server: ItemServer
    const desired: Specs

    constructor (server: ItemServer, desired: Specs)
      ensures this.server == server && this.desired == desired
    {
      this.server, this.desired := server, desired;
    }

    ghost predicate Valid()
      reads server
    {
      server.Valid() && forall name :: name in desired ==> desired[name].Keys <= server.defaults.Keys
    }

    /** Whatever happens, only desired names are added. */
    ghost predicate Within(before: Items)
      reads server
    {
      Valid() && server.items.Keys <= before.Keys + desired.Keys
    }

    /** The names in done are handled, and writes were made exactly for those of them that needed it. */
    ghost predicate At(before: Items, start: nat, done: set<string>)
      reads server
    {
      && Within(before) && start <= |server.writes|
      && Progress(before, server.items, desired, done)
      && WroteFor(|server.writes| == start, before, desired, done)
    }

    method UpdateOne(name: string, item: Item, spec: Attributes, ghost before: Items, ghost start: nat,
                     ghost done: set<string>)
      returns (ok: bool)
      requires At(before, start, done) && name !in done
      requires name in before && item == before[name] && name in desired && spec == desired[name]
      modifies server
      ensures Within(before) && (server.reliable ==> ok)
      ensures ok ==> At(before, start, done + {name})
    {
      ghost var now, quiet := server.items, |server.writes| == start;
      assert now[name] == before[name] by { assert Untouched(before, now, name); }
      var params := Changes(item, spec);
      hide Progress, WroteFor, Changes, Merged, Meets, Handled, Settled, Untouched;
      ok := true;
      if params != map[] {
        ok := server.Update(item.id, params, name);
      }
      if ok {
        UpdateHandles(before, now, server.items, desired, name);
        StepAt(before, now, server.items, desired, done, name, quiet, |server.writes| == start);
      }
    }

    method CreateOne(name: string, spec: Attributes, ghost before: Items, ghost start: nat, ghost done: set<string>)
      returns (ok: bool)
      requires At(before, start, done) && name !in done
      requires name !in before && name in desired && spec == desired[name]
      modifies server
      ensures Within(before) && (server.reliable ==> ok)
      ensures ok ==> At(before, start, done + {name})
    {
      ghost var now, quiet := server.items, |server.writes| == start;
      assert Untouched(before, now, name);
      CreationMeets(server.nextID, server.defaults, spec);
      var item: Item;
      ok, item := server.Create(name, CreationParams(spec));
      if ok {
        assert Handled(before, server.items, desired, name);
        StepAt(before, now, server.items, desired, done, name, quiet, |server.writes| == start);
      }
    }

    method DeleteOne(name: string, item: Item, ghost before: Items, ghost start: nat, ghost done: set<string>)
      returns (outcome: TaskOutcome)
      requires At(before, start, done) && name !in done
      requires name in before && item == before[name] && name !in desired
      modifies server
      ensures Within(before) && (outcome.Succeeded? ==> At(before, start, done + {name}))
      ensures server.items == old(server.items) || server.items == old(server.items) - {name}
      ensures outcome.MethodInUse? ==> name in server.inUse && name in server.items
      ensures server.reliable ==> (outcome.Succeeded? <==> name !in server.inUse) && !outcome.Failed?
    {
      ghost var now, quiet := server.items, |server.writes| == start;
      assert Untouched(before, now, name);
      outcome := server.Delete(item.id, name);
      if outcome.Succeeded? {
        assert Handled(before, server.items, desired, name);
        StepAt(before, now, server.items, desired, done, name, quiet, |server.writes| == start);
      }
    }

    method ReadExisting() returns (ok: bool, keys: seq<string>, index: Items)
      ensures server.reliable ==> ok
      ensures ok ==> index == server.items && Distinct(keys) && forall name :: name in keys <==> name in index
    {
      var listed: seq<Item>;
      ok, keys, listed := server.List();
      index := map[];
      if !ok { return; }
      for i := 0 to |keys|
        invariant forall name :: name in index <==> name in keys[..i]
        invariant forall name :: name in index ==> name in server.items && index[name] == server.items[name]
      {
        assert keys[..i + 1] == keys[..i] + [keys[i]];
        index := index[keys[i] := listed[i]];
      }
      assert keys[..|keys|] == keys;
    }

    /** Updates the existing desired items that differ. */
    method ReconcileMatched(s: Split, index: Items, ghost start: nat, ghost done: set<string>) returns (ok: bool)
      requires At(index, start, done) && Splits(s, index, desired) && done !! Members(s.matched)
      modifies server
      ensures Within(index) && (server.reliable ==> ok)
      ensures ok ==> At(index, start, done + Members(s.matched))
    {
      hide Progress, WroteFor;
      var keys := s.matched;
      ok := true;
      ghost var all := done;
      for i := 0 to |keys|
        invariant ok && At(index, start, all)
        invariant forall name :: name in all <==> name in done || name in keys[..i]
      {
        ok := UpdateOne(keys[i], index[keys[i]], desired[keys[i]], index, start, all);
        if !ok { return; }
        all := all + {keys[i]};
      }
      assert all == done + Members(keys);
    }

    method CreateNew(s: Split, ghost index: Items, ghost start: nat, ghost done: set<string>) returns (ok: bool)
      requires At(index, start, done) && Splits(s, index, desired) && done !! Members(s.fresh')
      modifies server
      ensures Within(index) && (server.reliable ==> ok)
      ensures ok ==> At(index, start, done + Members(s.fresh'))
    {
      hide Progress, WroteFor;
      var keys := s.fresh';
      ok := true;
      ghost var all := done;
      for i := 0 to |keys|
        invariant ok && At(index, start, all)
        invariant forall name :: name in all <==> name in done || name in keys[..i]
      {
        ok := CreateOne(keys[i], desired[keys[i]], index, start, all);
        if !ok { return; }
        all := all + {keys[i]};
      }
      assert all == done + Members(keys);
    }

    /** Deletes up to the first item that is in use or cannot be deleted. */
    method ProcessNotDesired(s: Split, index: Items, ghost start: nat, ghost done: set<string>)
      returns (outcome: TaskOutcome)
      requires At(index, start, done) && Splits(s, index, desired) && done !! Members(s.gone)
      modifies server
      ensures Within(index) && (outcome.Succeeded? ==> At(index, start, done + Members(s.gone)))
      ensures old(AllMet(index, server.items, desired)) ==> AllMet(index, server.items, desired)
      ensures outcome.MethodInUse? ==> !(Members(s.gone) !! server.inUse) && !(Gone() !! server.inUse)
      ensures server.reliable ==> (outcome.Succeeded? <==> Members(s.gone) !! server.inUse) && !outcome.Failed?
    {
      hide Progress, WroteFor;
      var keys := s.gone;
      outcome := Succeeded;
      ghost var all := done;
      for i := 0 to |keys|
        invariant outcome.Succeeded? && At(index, start, all)
        invariant forall name :: name in all <==> name in done || name in keys[..i]
        invariant old(AllMet(index, server.items, desired)) ==> AllMet(index, server.items, desired)
        invariant server.reliable ==> forall j :: 0 <= j < i ==> keys[j] !in server.inUse
      {
        outcome := DeleteOne(keys[i], index[keys[i]], index, start, all);
        if !outcome.Succeeded? {
          assert keys[i] in Members(keys);
          return;
        }
        all := all + {keys[i]};
      }
      assert all == done + Members(keys);
    }

    lemma {:induction false} Finished(before: Items, start: nat, done: set<string>)
      requires At(before, start, done) && done == before.Keys + desired.Keys
      ensures Converged(server.items, desired)
      ensures forall name :: name in before && name in desired ==>
                               name in server.items && server.items[name].id == before[name].id
      ensures |server.writes| == start <==> Converged(before, desired)
    {
      AllHandled(before, server.items, desired, |server.writes| == start, done);
    }

    lemma {:induction false} DesiredMet(before: Items, start: nat, done: set<string>)
      requires At(before, start, done) && desired.Keys <= done
      ensures AllMet(before, server.items, desired)
    {
      DesiredHandled(before, server.items, desired, done);
    }

    /** What an error-free run achieves, from any remote state. */
    twostate predicate Synchronised()
      reads this, server
    {
      && Converged(server.items, desired)
      && (forall name :: name in old(server.items) && name in desired ==>
                           name in server.items && server.items[name].id == old(server.items)[name].id)
      && (|server.writes| == |old(server.writes)| <==> Converged(old(server.items), desired))
    }

    /** The remote items that are not desired. */
    ghost function Gone(): set<string>
      reads server
    {
      server.items.Keys - desired.Keys
    }

    /** Reads the remote names and compares them with the desired ones. */
    method Compare() returns (ok: bool, index: Items, s: Split)
      requires Valid()
      ensures server.reliable ==> ok
      ensures ok ==> index == server.items && Splits(s, index, desired) && At(index, |server.writes|, {})
    {
      s := Split([], [], []);
      var desiredKeys := KeysInAnyOrder(desired);
      var existingKeys;
      ok, existingKeys, index := ReadExisting();
      if !ok { return; }
      var matched := ArrayStringIntersection(existingKeys, desiredKeys);
      var fresh' := ArrayStringDifference(desiredKeys, existingKeys);
      var gone := ArrayStringDifference(existingKeys, desiredKeys);
      s := Split(matched, fresh', gone);
    }

    /**
     For methods and metrics. If a method in use stops the deletions, all desired items have been updated and created
     before, and the method is still there.
     */
    method SyncUpdatingFirst() returns (outcome: TaskOutcome, s: Split)
      requires Valid()
      modifies server
      ensures Within(old(server.items))
      ensures outcome.Succeeded? ==> Synchronised() && Splits(s, old(server.items), desired)
      ensures outcome.MethodInUse? ==> !(old(Gone()) !! server.inUse) && !(Gone() !! server.inUse)
      ensures outcome.MethodInUse? ==> AllMet(old(server.items), server.items, desired)
      ensures server.reliable ==> (outcome.Succeeded? <==> old(Gone()) !! server.inUse) && !outcome.Failed?
    {
      hide Splits, Progress, WroteFor, Converged, Members, At, Valid, Distinct, AllMet;
      ghost var start := |server.writes|;
      var ok, index;
      ok, index, s := Compare();
      if !ok { return Failed, s; }
      SplitCovers(s, index, desired);
      ok := ReconcileMatched(s, index, start, {});
      if !ok { return Failed, s; }
      ok := CreateNew(s, index, start, {} + Members(s.matched));
      if !ok { return Failed, s; }
      SplitDesired(s, index, desired);
      DesiredMet(index, start, {} + Members(s.matched) + Members(s.fresh'));
      outcome := ProcessNotDesired(s, index, start, {} + Members(s.matched) + Members(s.fresh'));
      if !outcome.Succeeded? { return; }
      Finished(index, start, {} + Members(s.matched) + Members(s.fresh') + Members(s.gone));
    }

    /** For backend usages; every backend met must be in the index of remote backends. */
    method SyncBackendUsage(backends: set<string>) returns (outcome: TaskOutcome)
      requires Valid()
      modifies server
      ensures Within(old(server.items))
      ensures outcome.Succeeded? ==> Synchronised() && old(server.items.Keys) + desired.Keys <= backends
      ensures !(old(server.items.Keys) <= backends) ==> outcome.Failed? && server.items == old(server.items)
      ensures server.reliable && old(server.items.Keys) + desired.Keys <= backends ==>
                (outcome.Succeeded? <==> old(Gone()) !! server.inUse)
    {
      hide Splits, Progress, WroteFor, Converged, At, Valid, Distinct, Members;
      ghost var start := |server.writes|;
      var ok, index, s;
      ok, index, s := Compare();
      if !ok { return Failed; }
      if !(index.Keys <= backends) { return Failed; }
      SplitCovers(s, index, desired);
      outcome := ProcessNotDesired(s, index, start, {});
      if !outcome.Succeeded? { return; }
      ok := ReconcileMatched(s, index, start, {} + Members(s.gone));
      if !ok { return Failed; }
      FreshDesired(s, index, desired);
      SplitDesired(s, index, desired);
      if !(Members(s.fresh') <= backends) { return Failed; }
      ok := CreateNew(s, index, start, {} + Members(s.gone) + Members(s.matched));
      if !ok { return Failed; }
      Finished(index, start, {} + Members(s.gone) + Members(s.matched) + Members(s.fresh'));
    }

    /** Creates a plan under its system name and then gives it the rest of its attributes. */
    method CreatePlan(name: string, spec: Attributes, ghost before: Items, ghost start: nat, ghost done: set<string>)
      returns (ok: bool)
      requires At(before, start, done) && name !in done
      requires name !in before && name in desired && spec == desired[name]
      modifies server
      ensures Within(before) && (server.reliable ==> ok)
      ensures ok ==> At(before, start, done + {name})
    {
      hide Progress, WroteFor, Changes, Merged, Meets, Handled, Untouched, Settled;
      ghost var now, quiet := server.items, |server.writes| == start;
      assert name !in now by { NotYetThere(before, now, desired, done, name); }
      var item: Item;
      ok, item := server.Create(name, map[NAME := Text(name)]);
      if !ok { return; }
      ghost var created := server.items;
      var params := Changes(item, spec);
      if params != map[] {
        ok := server.Update(item.id, params, name);
      }
      if ok {
        PlanHandled(before, now, created, server.items, desired, name);
        StepAt(before, now, server.items, desired, done, name, quiet, |server.writes| == start);
      }
    }

    method SyncApplicationPlans() returns (outcome: TaskOutcome)
      requires Valid()
      modifies server
      ensures Within(old(server.items))
      ensures outcome.Succeeded? ==> Synchronised()
      ensures server.reliable ==> (outcome.Succeeded? <==> old(Gone()) !! server.inUse)
    {
      hide Splits, Progress, WroteFor, Converged, At, Valid, Distinct, Members;
      ghost var start := |server.writes|;
      var ok, index, s;
      ok, index, s := Compare();
      if !ok { return Failed; }
      SplitCovers(s, index, desired);
      outcome := ProcessNotDesired(s, index, start, {});
      if !outcome.Succeeded? { return; }
      ok := ReconcileMatched(s, index, start, {} + Members(s.gone));
      if !ok { return Failed; }
      ok := CreatePlans(s, index, start, {} + Members(s.gone) + Members(s.matched));
      if !ok { return Failed; }
      Finished(index, start, {} + Members(s.gone) + Members(s.matched) + Members(s.fresh'));
    }

    method CreatePlans(s: Split, ghost index: Items, ghost start: nat, ghost done: set<string>) returns (ok: bool)
      requires At(index, start, done) && Splits(s, index, desired) && done !! Members(s.fresh')
      modifies server
      ensures Within(index) && (server.reliable ==> ok)
      ensures ok ==> At(index, start, done + Members(s.fresh'))
    {
      hide Progress, WroteFor;
      var keys := s.fresh';
      ok := true;
      ghost var all := done;
      for i := 0 to |keys|
        invariant ok && At(index, start, all)
        invariant forall name :: name in all <==> name in done || name in keys[..i]
      {
        ok := CreatePlan(keys[i], desired[keys[i]], index, start, all);
        if !ok { return; }
        all := all + {keys[i]};
      }
      assert all == done + Members(keys);
    }
  }
}
