/**
 Synchronisation of an ordered list of mapping rules with the 3scale API.

 The remote list is a sequence: the rule at index i has position i + 1. Deleting a rule closes the gap,
 creating one at position p shifts the tail, and an omitted `last` attribute means false. Every call may fail,
 and a failed write may or may not have taken effect.
 */
module RemoteRules {
  import opened Calls
  import opened Options
  import opened MappingRuleKeys

  datatype RuleSpec = RuleSpec(httpMethod: string, pattern: string, metricMethodRef: string,
                               increment: int, last: Option<bool>)

  datatype Rule = Rule(id: int, httpMethod: string, pattern: string, metricID: int, delta: int, last: bool)

  /** A rule as the API lists it. */
  datatype Item = Item(rule: Rule, position: nat)

  /** Attributes sent with an update; None means the attribute is not sent. */
  datatype Params = Params(metricID: Option<int>, delta: Option<int>, last: Option<bool>, position: Option<nat>)

  /** A write request, with what is needed to judge it. */
  datatype Write =
    | DeleteRule(id: int)
    | CreateRule(position: nat, length: nat)
    | UpdateRule(id: int, params: Params)

  function Listing(rules: seq<Rule>): seq<Item> {
    seq(|rules|, i requires 0 <= i < |rules| => Item(rules[i], i + 1))
  }

  function Without(rules: seq<Rule>, ids: set<int>): (r: seq<Rule>)
    ensures forall x :: x in r <==> x in rules && x.id !in ids
  {
    if rules == [] then [] else
    (if rules[0].id in ids then [] else [rules[0]]) + Without(rules[1..], ids)
  }

  function InsertAt(rules: seq<Rule>, rule: Rule, position: nat): seq<Rule> {
    var k := if position == 0 then 0 else if position - 1 <= |rules| then position - 1 else |rules|;
    rules[..k] + [rule] + rules[k..]
  }

  function Patched(r: Rule, p: Params): Rule {
    r.(metricID := if p.metricID.Some? then p.metricID.value else r.metricID,
       delta := if p.delta.Some? then p.delta.value else r.delta,
       last := if p.last.Some? then p.last.value else r.last)
  }

  /** An update changes the attributes sent; sending a position also moves the rule. */
  function Updated(rules: seq<Rule>, k: nat, p: Params): seq<Rule>
    requires k < |rules|
  {
    if p.position.Some? then InsertAt(Without(rules, {rules[k].id}), Patched(rules[k], p), p.position.value)
    else rules[k := Patched(rules[k], p)]
  }

  predicate DistinctIDs(rules: seq<Rule>) {
    forall i, j :: 0 <= i < j < |rules| ==> rules[i].id != rules[j].id
  }

  lemma {:induction false} WithoutTwice(rules: seq<Rule>, s: set<int>, t: set<int>)
    ensures Without(Without(rules, s), t) == Without(rules, s + t)
  {
    if rules != [] {
      WithoutTwice(rules[1..], s, t);
      var w := Without(rules[1..], s);
      if rules[0].id !in s {
        assert Without(rules, s) == [rules[0]] + w;
        assert ([rules[0]] + w)[1..] == w;
      } else {
        assert Without(rules, s) == w;
      }
    }
  }

  lemma {:induction false} WithoutDistinct(rules: seq<Rule>, ids: set<int>)
    requires DistinctIDs(rules)
    ensures DistinctIDs(Without(rules, ids))
  {
    if rules != [] {
      WithoutDistinct(rules[1..], ids);
      var w := Without(rules[1..], ids);
      forall x | x in w ensures x.id != rules[0].id {
        assert x in rules[1..];
      }
    }
  }

  lemma {:induction false} InsertDistinct(rules: seq<Rule>, rule: Rule, position: nat)
    requires DistinctIDs(rules) && forall i :: 0 <= i < |rules| ==> rules[i].id != rule.id
    ensures DistinctIDs(InsertAt(rules, rule, position))
    ensures forall x :: x in InsertAt(rules, rule, position) ==> x == rule || x in rules
  {
  }

  /** The state of the API, kept across runs. */
  class RuleServer {
    var rules: seq<Rule>
    var nextID: int
    /** Metrics and methods by system name. */
    const metrics: map<string, nat>
    /** No call fails for a reason outside the program. */
    const reliable: bool
    ghost var writes: seq<Write>

    ghost predicate Valid()
      reads this
    {
      && DistinctIDs(rules)
      && (forall x :: x in rules ==> x.id < nextID)
      && (forall x :: x in rules ==> ':' !in x.httpMethod)
    }

    constructor (rules: seq<Rule>, nextID: int, metrics: map<string, nat>, reliable: bool)
      requires DistinctIDs(rules)
      requires forall x :: x in rules ==> x.id < nextID && ':' !in x.httpMethod
      ensures Valid() && this.rules == rules && this.metrics == metrics && this.reliable == reliable
      ensures writes == []
    {
      this.rules, this.nextID, this.metrics, this.reliable := rules, nextID, metrics, reliable;
      writes := [];
    }

    method List() returns (ok: bool, items: seq<Item>)
      ensures reliable ==> ok
      ensures ok ==> items == Listing(rules)
    {
      var applied: bool;
      ok, applied := Fate(reliable);
      items := Listing(rules);
    }

    method FindMetric(name: string) returns (ok: bool, id: int)
      ensures reliable ==> ok
      ensures ok ==> id == if name in metrics then metrics[name] else -1
    {
      var applied: bool;
      ok, applied := Fate(reliable);
      id := if name in metrics then metrics[name] else -1;
    }

    method Delete(id: int) returns (ok: bool)
      requires Valid()
      modifies this`rules, this`writes
      ensures Valid()
      ensures writes == old(writes) + [DeleteRule(id)]
      ensures rules == old(rules) || rules == Without(old(rules), {id})
      ensures ok ==> rules == Without(old(rules), {id})
      ensures reliable && (exists x :: x in old(rules) && x.id == id) ==> ok
    {
      writes := writes + [DeleteRule(id)];
      var applied: bool;
      ok, applied := Fate(reliable);
      var known := exists i :: 0 <= i < |rules| && rules[i].id == id;
      if applied {
        WithoutDistinct(rules, {id});
        rules := Without(rules, {id});
      }
      ok := ok && known;
    }

    method Create(httpMethod: string, pattern: string, metricID: int, delta: int, last: Option<bool>, position: nat)
      returns (ok: bool)
      requires Valid() && ':' !in httpMethod
      modifies this`rules, this`writes, this`nextID
      ensures Valid()
      ensures writes == old(writes) + [CreateRule(position, |old(rules)|)]
      ensures ok ==> rules == InsertAt(old(rules), Rule(old(nextID), httpMethod, pattern, metricID, delta,
                                       last.Some? && last.value), position)
      ensures rules == old(rules) || exists r :: rules == InsertAt(old(rules), r, position)
      ensures reliable ==> ok
    {
      writes := writes + [CreateRule(position, |rules|)];
      var applied: bool;
      ok, applied := Fate(reliable);
      if applied {
        var rule := Rule(nextID, httpMethod, pattern, metricID, delta, last.Some? && last.value);
        InsertDistinct(rules, rule, position);
        rules := InsertAt(rules, rule, position);
        nextID := nextID + 1;
      }
    }

    method Update(id: int, p: Params) returns (ok: bool)
      requires Valid()
      modifies this`rules, this`writes
      ensures Valid()
      ensures writes == old(writes) + [UpdateRule(id, p)]
      ensures ok ==> exists k :: 0 <= k < |old(rules)| && old(rules)[k].id == id && rules == Updated(old(rules), k, p)
      ensures rules == old(rules) || exists k :: 0 <= k < |old(rules)| && rules == Updated(old(rules), k, p)
      ensures reliable && (exists x :: x in old(rules) && x.id == id) ==> ok
    {
      writes := writes + [UpdateRule(id, p)];
      var applied: bool;
      ok, applied := Fate(reliable);
      if k :| 0 <= k < |rules| && rules[k].id == id {
        if applied {
          if p.position.Some? {
            WithoutDistinct(rules, {id});
            InsertDistinct(Without(rules, {id}), Patched(rules[k], p), p.position.value);
          }
          rules := Updated(rules, k, p);
        }
      } else {
        ok := false;
      }
    }
  }
}
