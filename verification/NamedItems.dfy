/**
 A collection of the remote API whose items are known by a system name: the methods, metrics, backend usages or
 application plans of a product or backend.
 */
module NamedItems {
  import opened Calls
  import opened StringSlices
  import opened Tasks

  /** An attribute: a text, a fee, or whether a plan is published and so on. */
  datatype Value = Text(text: string) | Amount(amount: real) | Flag(on: bool)

  type Attributes = map<string, Value>

  const DESCRIPTION := "description"
  const NAME := "name"

  /** An item; fields hold every attribute the operator compares. */
  datatype Item = Item(id: int, attributes: Attributes)

  datatype Write =
    | CreateItem(systemName: string, params: Attributes)
    | UpdateItem(id: int, params: Attributes)
    | DeleteItem(id: int)

  predicate DistinctIDs(items: map<string, Item>) {
    forall a, b :: a in items && b in items && items[a].id == items[b].id ==> a == b
  }

  /** The attributes after an update that sends params. */
  function Merged(attributes: Attributes, params: Attributes): Attributes {
    map f | f in attributes :: if f in params then params[f] else attributes[f]
  }

  /** The attributes of a new item; what is not given is as the remote side has it by default. */
  function Initial(defaults: Attributes, params: Attributes): Attributes {
    map f | f in defaults :: if f in params then params[f] else defaults[f]
  }

  class ItemServer {
    var items: map<string, Item>
    var nextID: int
    /** The attributes of an item and what they are unless given; a description is empty. */
    const defaults: Attributes
    /** The items that cannot be deleted while the latest gateway configuration uses them. */
    const inUse: set<string>
    /** No call fails for a reason outside the program. */
    const reliable: bool
    ghost var writes: seq<Write>

    ghost predicate Valid()
      reads this
    {
      && DistinctIDs(items) && (DESCRIPTION in defaults ==> defaults[DESCRIPTION] == Text(""))
      && forall name :: name in items ==> items[name].id < nextID && items[name].attributes.Keys == defaults.Keys
    }

    constructor (items: map<string, Item>, nextID: int, defaults: Attributes, inUse: set<string>, reliable: bool)
      requires DistinctIDs(items) && (DESCRIPTION in defaults ==> defaults[DESCRIPTION] == Text(""))
      requires forall name :: name in items ==>
                 items[name].id < nextID && items[name].attributes.Keys == defaults.Keys
      ensures Valid() && this.items == items && this.defaults == defaults && this.inUse == inUse
      ensures this.reliable == reliable && writes == []
    {
      this.items, this.nextID, this.defaults, this.inUse, this.reliable := items, nextID, defaults, inUse, reliable;
      writes := [];
    }

    /** The items in the order of the remote list. */
    method List() returns (ok: bool, names: seq<string>, listed: seq<Item>)
      ensures reliable ==> ok
      ensures ok ==> |names| == |listed| && Distinct(names) && (forall name :: name in names <==> name in items)
      ensures ok ==> forall i :: 0 <= i < |names| ==> names[i] in items && items[names[i]] == listed[i]
    {
      var applied: bool;
      ok, applied := Fate(reliable);
      names, listed := [], [];
      var rest := items.Keys;
      while rest != {}
        invariant rest <= items.Keys && |names| == |listed| && Distinct(names)
        invariant forall name :: name in names <==> name in items.Keys - rest
        invariant forall i :: 0 <= i < |names| ==> names[i] in items && items[names[i]] == listed[i]
        decreases |rest|
      {
        var name :| name in rest;
        assert name !in names;
        rest := rest - {name};
        names, listed := names + [name], listed + [items[name]];
      }
    }

    /** Refuses a system name that is taken. */
    method Create(systemName: string, params: Attributes) returns (ok: bool, item: Item)
      requires Valid()
      modifies this`items, this`nextID, this`writes
      ensures Valid() && writes == old(writes) + [CreateItem(systemName, params)]
      ensures items == old(items) ||
              (systemName !in old(items) &&
               items == old(items)[systemName := Item(old(nextID), Initial(defaults, params))])
      ensures item == Item(old(nextID), Initial(defaults, params))
      ensures ok ==> systemName !in old(items) && items == old(items)[systemName := item]
      ensures reliable && systemName !in old(items) ==> ok
    {
      writes := writes + [CreateItem(systemName, params)];
      item := Item(nextID, Initial(defaults, params));
      if systemName in items { return false, item; }
      var applied: bool;
      ok, applied := Fate(reliable);
      if applied {
        items := items[systemName := item];
        nextID := nextID + 1;
      }
    }

    method Update(id: int, params: Attributes, ghost name: string) returns (ok: bool)
      requires Valid() && name in items && items[name].id == id
      modifies this`items, this`writes
      ensures Valid() && writes == old(writes) + [UpdateItem(id, params)]
      ensures items == old(items) ||
              items == old(items)[name := Item(id, Merged(old(items)[name].attributes, params))]
      ensures ok ==> items == old(items)[name := Item(id, Merged(old(items)[name].attributes, params))]
      ensures reliable ==> ok
    {
      writes := writes + [UpdateItem(id, params)];
      var applied: bool;
      ok, applied := Fate(reliable);
      var found :| found in items && items[found].id == id;
      if applied {
        items := items[found := Item(id, Merged(items[found].attributes, params))];
      }
    }

    /** Refuses for the time being what is in use. */
    method Delete(id: int, ghost name: string) returns (outcome: TaskOutcome)
      requires Valid() && name in items && items[name].id == id
      modifies this`items, this`writes
      ensures Valid() && writes == old(writes) + [DeleteItem(id)]
      ensures items == old(items) || items == old(items) - {name}
      ensures outcome.Succeeded? ==> items == old(items) - {name}
      ensures outcome.MethodInUse? ==> items == old(items) && name in inUse
      ensures reliable ==> (outcome.Succeeded? <==> name !in inUse) && !outcome.Failed?
    {
      writes := writes + [DeleteItem(id)];
      var ok, applied := Fate(reliable);
      var found :| found in items && items[found].id == id;
      if found in inUse {
        return if ok then MethodInUse else Failed;
      }
      if applied {
        items := items - {found};
      }
      return if ok then Succeeded else Failed;
    }
  }
}
