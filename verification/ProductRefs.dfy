/**
 References from the application plans of products to backend metrics and methods: how they are removed when the
 backend drops a metric, and how a product checks them.
 */
module ProductRefs {
  import opened Options
  import opened StringSlices

  /** A metric or method, of the product itself or of a backend. */
  datatype MetricRef = MetricRef(backend: Option<string>, systemName: string)

  /** A limit or pricing rule; the rest of it is kept as it is. */
  datatype Entry = Entry(ref: MetricRef, rest: string)

  datatype Plan = Plan(limits: seq<Entry>, pricingRules: seq<Entry>)

  datatype Product = Product(backendUsages: set<string>, plans: map<string, Plan>)

  type Products = map<string, Product>

  datatype Backend = Backend(systemName: string, metrics: set<string>, methods: set<string>) {
    predicate FindMetricOrMethod(ref: string) {
      ref in metrics || ref in methods
    }
  }

  // ---------- Removal ----------

  predicate Dropped(e: Entry, backend: string, gone: seq<string>) {
    e.ref.backend == Some(backend) && e.ref.systemName in gone
  }

  /** The entries that stay, in their order. */
  function Retained(entries: seq<Entry>, backend: string, gone: seq<string>): seq<Entry> {
    if entries == [] then [] else
    var last := entries[|entries| - 1];
    Retained(entries[..|entries| - 1], backend, gone) + (if Dropped(last, backend, gone) then [] else [last])
  }

  predicate Increasing(positions: seq<nat>, bound: nat) {
    && (forall i, j :: 0 <= i < j < |positions| ==> positions[i] < positions[j])
    && (forall i :: 0 <= i < |positions| ==> positions[i] < bound)
  }

  /** Where the retained entries were. */
  function Positions(entries: seq<Entry>, backend: string, gone: seq<string>): (positions: seq<nat>)
    ensures Increasing(positions, |entries|)
  {
    if entries == [] then [] else
    var n := |entries| - 1;
    Positions(entries[..n], backend, gone) + (if Dropped(entries[n], backend, gone) then [] else [n])
  }

  /** Retaining keeps the order: the result is picked from increasing positions of the list. */
  lemma {:induction false} RetainedInOrder(entries: seq<Entry>, backend: string, gone: seq<string>)
    ensures var positions := Positions(entries, backend, gone);
            && |positions| == |Retained(entries, backend, gone)|
            && forall i :: 0 <= i < |positions| ==> Retained(entries, backend, gone)[i] == entries[positions[i]]
  {
    if entries != [] {
      RetainedInOrder(entries[..|entries| - 1], backend, gone);
    }
  }

  lemma {:induction false} RetainedMembers(entries: seq<Entry>, backend: string, gone: seq<string>)
    ensures forall e :: e in Retained(entries, backend, gone) <==> e in entries && !Dropped(e, backend, gone)
    ensures |Retained(entries, backend, gone)| <= |entries|
    ensures |Retained(entries, backend, gone)| == |entries| <==> Retained(entries, backend, gone) == entries
  {
    if entries != [] {
      var front := entries[..|entries| - 1];
      assert entries == front + [entries[|entries| - 1]];
      RetainedMembers(front, backend, gone);
    }
  }

  function CleanedPlan(plan: Plan, backend: string, gone: seq<string>): Plan {
    Plan(Retained(plan.limits, backend, gone), Retained(plan.pricingRules, backend, gone))
  }

  function CleanedProduct(p: Product, backend: string, gone: seq<string>): Product {
    p.(plans := map name | name in p.plans :: CleanedPlan(p.plans[name], backend, gone))
  }

  /** Only products that use the backend are looked at. */
  function CleanedIfLinked(p: Product, backend: string, gone: seq<string>): Product {
    if backend in p.backendUsages then CleanedProduct(p, backend, gone) else p
  }

  function Cleaned(products: Products, backend: string, gone: seq<string>): Products {
    map name | name in products :: CleanedIfLinked(products[name], backend, gone)
  }

  method KeepEntries(entries: seq<Entry>, backend: string, gone: seq<string>) returns (kept: seq<Entry>)
    ensures kept == Retained(entries, backend, gone)
    ensures |kept| != |entries| <==> kept != entries
  {
    kept := [];
    for i := 0 to |entries|
      invariant kept == Retained(entries[..i], backend, gone)
    {
      assert entries[..i + 1][..i] == entries[..i];
      if entries[i].ref.backend.None? || entries[i].ref.backend.value != backend || entries[i].ref.systemName !in gone {
        kept := kept + [entries[i]];
      }
    }
    assert entries[..|entries|] == entries;
    RetainedMembers(entries, backend, gone);
  }

  method CleanPlan(plan: Plan, backend: string, gone: seq<string>) returns (updated: bool, cleaned: Plan)
    ensures cleaned == CleanedPlan(plan, backend, gone)
    ensures updated <==> cleaned != plan
  {
    updated, cleaned := false, plan;
    var limits := KeepEntries(plan.limits, backend, gone);
    if |limits| != |plan.limits| {
      updated, cleaned := true, cleaned.(limits := limits);
    }
    var rules := KeepEntries(plan.pricingRules, backend, gone);
    if |rules| != |plan.pricingRules| {
      updated, cleaned := true, cleaned.(pricingRules := rules);
    }
  }

  /** Rewrites the plans in place, in any order; reports whether anything was removed. */
  method RemoveReferences(p: Product, backend: string, gone: seq<string>) returns (updated: bool, cleaned: Product)
    ensures cleaned == CleanedProduct(p, backend, gone)
    ensures updated <==> cleaned != p
  {
    hide CleanedPlan;
    updated := false;
    var plans := p.plans;
    var names := KeysInAnyOrder(plans);
    for i := 0 to |names|
      invariant plans.Keys == p.plans.Keys
      invariant forall name :: name in plans ==>
                  plans[name] == if name in names[..i] then CleanedPlan(p.plans[name], backend, gone) else p.plans[name]
      invariant updated <==> plans != p.plans
    {
      var name := names[i];
      assert name !in names[..i] && names[..i + 1] == names[..i] + [name];
      var planUpdated, plan := CleanPlan(plans[name], backend, gone);
      if planUpdated {
        plans := plans[name := plan];
        updated := true;
        assert plans[name] != p.plans[name];
      }
    }
    assert names[..|names|] == names;
    cleaned := p.(plans := plans);
    assert plans == CleanedProduct(p, backend, gone).plans;
  }

  // ---------- The checks of a product ----------

  datatype Fault = Fault(plan: string, index: nat, kind: FaultKind)

  datatype FaultKind = InvalidBackend | InvalidMetric

  method FindBackendBySystemName(list: seq<Backend>, systemName: string) returns (index: int)
    ensures -1 <= index < |list|
    ensures index >= 0 ==> list[index].systemName == systemName && forall i :: 0 <= i < index ==>
            list[i].systemName != systemName
    ensures index < 0 ==> forall i :: 0 <= i < |list| ==> list[i].systemName != systemName
  {
    for i := 0 to |list|
      invariant forall j :: 0 <= j < i ==> list[j].systemName != systemName
    {
      if list[i].systemName == systemName { return i; }
    }
    return -1;
  }

  ghost predicate IsFirst(list: seq<Backend>, i: int, systemName: string) {
    0 <= i < |list| && list[i].systemName == systemName && forall j :: 0 <= j < i ==> list[j].systemName != systemName
  }

  /** What is wrong with a reference, given the backends the product uses. */
  ghost predicate Faulty(list: seq<Backend>, e: Entry, kind: FaultKind) {
    e.ref.backend.Some? &&
    match kind
    case InvalidBackend => forall i :: 0 <= i < |list| ==> list[i].systemName != e.ref.backend.value
    case InvalidMetric =>
      exists i :: IsFirst(list, i, e.ref.backend.value) && !list[i].FindMetricOrMethod(e.ref.systemName)
  }

  ghost predicate FaultOf(list: seq<Backend>, plan: string, entries: seq<Entry>, n: nat, f: Fault) {
    f.plan == plan && f.index < n && f.index < |entries| && Faulty(list, entries[f.index], f.kind)
  }

  method CheckEntry(list: seq<Backend>, e: Entry) returns (fault: Option<FaultKind>)
    ensures forall kind :: Faulty(list, e, kind) <==> fault == Some(kind)
  {
    if e.ref.backend.None? { return None; }
    var found := FindBackendBySystemName(list, e.ref.backend.value);
    if found < 0 {
      return Some(InvalidBackend);
    }
    assert IsFirst(list, found, e.ref.backend.value);
    return if list[found].FindMetricOrMethod(e.ref.systemName) then None else Some(InvalidMetric);
  }

  method CheckEntries(list: seq<Backend>, plan: string, entries: seq<Entry>) returns (faults: seq<Fault>)
    ensures forall f :: f in faults <==> FaultOf(list, plan, entries, |entries|, f)
  {
    hide Faulty;
    faults := [];
    for i := 0 to |entries|
      invariant forall f :: f in faults <==> FaultOf(list, plan, entries, i, f)
    {
      var fault := CheckEntry(list, entries[i]);
      if fault.Some? {
        faults := faults + [Fault(plan, i, fault.value)];
      }
    }
  }

  /** Shared by the checks of limits and of pricing rules. */
  method CheckRefs(list: seq<Backend>, entriesOf: map<string, seq<Entry>>) returns (faults: seq<Fault>)
    ensures forall f :: f in faults <==>
                        f.plan in entriesOf && FaultOf(list, f.plan, entriesOf[f.plan], |entriesOf[f.plan]|, f)
  {
    faults := [];
    var names := KeysInAnyOrder(entriesOf);
    for i := 0 to |names|
      invariant forall f :: f in faults <==>
                  f.plan in names[..i] && FaultOf(list, f.plan, entriesOf[f.plan], |entriesOf[f.plan]|, f)
    {
      assert names[..i + 1] == names[..i] + [names[i]];
      var more := CheckEntries(list, names[i], entriesOf[names[i]]);
      faults := faults + more;
    }
    assert names[..|names|] == names;
  }

  method CheckAppLimitsExternalRefs(p: Product, list: seq<Backend>) returns (faults: seq<Fault>)
    ensures forall f :: f in faults <==>
                        f.plan in p.plans && FaultOf(list, f.plan, p.plans[f.plan].limits, |p.plans[f.plan].limits|, f)
  {
    faults := CheckRefs(list, map name | name in p.plans :: p.plans[name].limits);
  }

  method CheckAppPricingRulesExternalRefs(p: Product, list: seq<Backend>) returns (faults: seq<Fault>)
    ensures forall f :: f in faults <==>
                        f.plan in p.plans &&
                        FaultOf(list, f.plan, p.plans[f.plan].pricingRules, |p.plans[f.plan].pricingRules|, f)
  {
    faults := CheckRefs(list, map name | name in p.plans :: p.plans[name].pricingRules);
  }

  /** The listed backends a product uses, in their order. */
  function UsedBackends(list: seq<Backend>, usages: set<string>): seq<Backend> {
    if list == [] then [] else
    var last := list[|list| - 1];
    UsedBackends(list[..|list| - 1], usages) + (if last.systemName in usages then [last] else [])
  }

  method ComputeBackendUsageList(list: seq<Backend>, usages: set<string>) returns (used: seq<Backend>)
    ensures used == UsedBackends(list, usages)
  {
    used := [];
    for i := 0 to |list|
      invariant used == UsedBackends(list[..i], usages)
    {
      assert list[..i + 1][..i] == list[..i];
      if list[i].systemName in usages { used := used + [list[i]]; }
    }
    assert list[..|list|] == list;
  }

  lemma {:induction false} UsedMembers(list: seq<Backend>, usages: set<string>)
    ensures forall b :: b in UsedBackends(list, usages) <==> b in list && b.systemName in usages
  {
    if list != [] {
      var front := list[..|list| - 1];
      assert list == front + [list[|list| - 1]];
      UsedMembers(front, usages);
    }
  }
}
