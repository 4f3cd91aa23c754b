/** The mapping-rule synchronisation of products and backends, and what it achieves from any remote list. */
module MappingRuleSync {
  import opened Options
  import opened StringSlices
  import opened MappingRuleKeys
  import opened RemoteRules

  // ---------- What a converged remote list is ----------

  predicate SameRoute(r: Rule, d: RuleSpec) {
    r.httpMethod == d.httpMethod && r.pattern == d.pattern
  }

  predicate Matches(r: Rule, d: RuleSpec, metrics: map<string, nat>) {
    && SameRoute(r, d)
    && d.metricMethodRef in metrics && r.metricID == metrics[d.metricMethodRef]
    && r.delta == d.increment
    && r.last == (d.last.Some? && d.last.value)
  }

  /** The remote list is the desired list, position by position and attribute by attribute. */
  predicate Converged(rules: seq<Rule>, desired: seq<RuleSpec>, metrics: map<string, nat>) {
    |rules| == |desired| && forall i :: 0 <= i < |rules| ==> Matches(rules[i], desired[i], metrics)
  }

  predicate Resolvable(desired: seq<RuleSpec>, metrics: map<string, nat>) {
    forall i :: 0 <= i < |desired| ==> desired[i].metricMethodRef in metrics
  }

  predicate ProperMethods(desired: seq<RuleSpec>) {
    forall i :: 0 <= i < |desired| ==> ':' !in desired[i].httpMethod
  }

  // ---------- Embedding: the remaining remote rules occur, in order, among the remaining desired ones ----------

  /** Strictly increasing indices at which the rules occur among the specs. */
  ghost predicate EmbedsAt(rules: seq<Rule>, specs: seq<RuleSpec>, at: seq<nat>) {
    && |at| == |rules|
    && (forall i, j :: 0 <= i < j < |at| ==> at[i] < at[j])
    && (forall i :: 0 <= i < |at| ==> at[i] < |specs| && SameRoute(rules[i], specs[at[i]]))
  }

  /** The same, decided greedily from the front, as the walk over the desired list does. */
  predicate Embeds(rules: seq<Rule>, specs: seq<RuleSpec>) {
    if rules == [] then true
    else if specs == [] then false
    else if SameRoute(rules[0], specs[0]) then Embeds(rules[1..], specs[1..])
    else Embeds(rules, specs[1..])
  }

  lemma {:induction false} EmbedsSound(rules: seq<Rule>, specs: seq<RuleSpec>)
    requires Embeds(rules, specs)
    ensures exists at :: EmbedsAt(rules, specs, at)
    decreases |specs|
  {
    if rules == [] {
      assert EmbedsAt(rules, specs, []);
    } else if SameRoute(rules[0], specs[0]) {
      EmbedsSound(rules[1..], specs[1..]);
      var at :| EmbedsAt(rules[1..], specs[1..], at);
      assert EmbedsAt(rules, specs, [0] + seq(|at|, i requires 0 <= i < |at| => at[i] + 1));
    } else {
      EmbedsSound(rules, specs[1..]);
      var at :| EmbedsAt(rules, specs[1..], at);
      assert EmbedsAt(rules, specs, seq(|at|, i requires 0 <= i < |at| => at[i] + 1));
    }
  }

  lemma {:induction false} EmbedsComplete(rules: seq<Rule>, specs: seq<RuleSpec>, at: seq<nat>)
    requires EmbedsAt(rules, specs, at)
    ensures Embeds(rules, specs)
    decreases |specs|
  {
    if rules != [] {
      assert at[0] < |specs|;
      var shifted := seq(|at|, i requires 0 <= i < |at| => if at[i] > 0 then at[i] - 1 else 0);
      if SameRoute(rules[0], specs[0]) {
        assert forall i :: 1 <= i < |at| ==> at[0] < at[i];
        assert EmbedsAt(rules[1..], specs[1..], shifted[1..]);
        EmbedsComplete(rules[1..], specs[1..], shifted[1..]);
      } else {
        assert at[0] > 0;
        assert forall i :: 0 <= i < |at| ==> at[i] > 0;
        assert EmbedsAt(rules, specs[1..], shifted);
        EmbedsComplete(rules, specs[1..], shifted);
      }
    }
  }

  lemma {:induction false} EmbedsSkip(rules: seq<Rule>, specs: seq<RuleSpec>)
    requires specs != [] && Embeds(rules, specs[1..])
    ensures Embeds(rules, specs)
  {
    EmbedsSound(rules, specs[1..]);
    var at :| EmbedsAt(rules, specs[1..], at);
    var shifted := seq(|at|, i requires 0 <= i < |at| => at[i] + 1);
    assert EmbedsAt(rules, specs, shifted);
    EmbedsComplete(rules, specs, shifted);
  }

  // ---------- The deletion phase ----------

  /** The rules that already stand at the position the custom resource gives to their method and pattern. */
  function Kept(rules: seq<Rule>, desired: seq<RuleSpec>): seq<Rule> {
    if rules == [] || desired == [] then [] else
    (if SameRoute(rules[0], desired[0]) then [rules[0]] else []) + Kept(rules[1..], desired[1..])
  }

  lemma {:induction false} KeptEmbeds(rules: seq<Rule>, desired: seq<RuleSpec>)
    ensures Embeds(Kept(rules, desired), desired)
  {
    if rules != [] && desired != [] {
      KeptEmbeds(rules[1..], desired[1..]);
      var rest := Kept(rules[1..], desired[1..]);
      if SameRoute(rules[0], desired[0]) {
        assert ([rules[0]] + rest)[1..] == rest;
      } else {
        assert Kept(rules, desired) == rest;
        EmbedsSkip(rest, desired);
      }
    }
  }

  lemma {:induction false} KeptMembers(rules: seq<Rule>, desired: seq<RuleSpec>)
    ensures forall x :: x in Kept(rules, desired) ==> x in rules
  {
    if rules != [] && desired != [] { KeptMembers(rules[1..], desired[1..]); }
  }

  /** Deleting by identifier exactly the rules that are out of place leaves the rules that are in place. */
  lemma {:induction false} WithoutIsKept(rules: seq<Rule>, desired: seq<RuleSpec>, gone: set<int>)
    requires forall i :: 0 <= i < |rules| ==>
               (rules[i].id in gone <==> !(i < |desired| && SameRoute(rules[i], desired[i])))
    ensures Without(rules, gone) == Kept(rules, desired)
    decreases |rules|
  {
    if rules != [] {
      WithoutIsKept(rules[1..], if desired == [] then [] else desired[1..], gone);
    }
  }

  lemma {:induction false} KeptAll(rules: seq<Rule>, desired: seq<RuleSpec>)
    requires |rules| <= |desired| && forall i :: 0 <= i < |rules| ==> SameRoute(rules[i], desired[i])
    ensures Kept(rules, desired) == rules
  {
    if rules != [] {
      KeptAll(rules[1..], desired[1..]);
    }
  }

  // ---------- Keys ----------

  function KeyAt(rules: seq<Rule>, i: nat): string
    requires i < |rules|
  {
    Key(rules[i].httpMethod, rules[i].pattern, i + 1)
  }

  function DesiredKey(desired: seq<RuleSpec>, i: nat): string
    requires i < |desired|
  {
    Key(desired[i].httpMethod, desired[i].pattern, i + 1)
  }

  ghost predicate IsDesiredKey(desired: seq<RuleSpec>, key: string) {
    exists j :: 0 <= j < |desired| && DesiredKey(desired, j) == key
  }

  ghost predicate IndexUpTo(index: map<string, Item>, rules: seq<Rule>, n: nat)
    requires n <= |rules|
  {
    && (forall i :: 0 <= i < n ==> KeyAt(rules, i) in index && index[KeyAt(rules, i)] == Item(rules[i], i + 1))
    && (forall k :: k in index ==> exists i :: 0 <= i < n && k == KeyAt(rules, i))
  }

  /** The map from keys to listed rules that the program builds from a listing. */
  ghost predicate IsIndex(index: map<string, Item>, rules: seq<Rule>) {
    IndexUpTo(index, rules, |rules|)
  }

  /** Rules at different positions have different keys, so no listed rule hides another. */
  lemma {:induction false} KeysApart(rules: seq<Rule>, i: nat, j: nat)
    requires i < j < |rules|
    ensures KeyAt(rules, i) != KeyAt(rules, j)
  {
    if KeyAt(rules, i) == KeyAt(rules, j) {
      KeyFixesPosition(rules[i].httpMethod, rules[i].pattern, i + 1, rules[j].httpMethod, rules[j].pattern, j + 1);
    }
  }

  lemma {:induction false} IndexStep(index: map<string, Item>, rules: seq<Rule>, n: nat)
    requires n < |rules| && IndexUpTo(index, rules, n)
    ensures IndexUpTo(index[KeyAt(rules, n) := Item(rules[n], n + 1)], rules, n + 1)
  {
    hide Key;
    var index' := index[KeyAt(rules, n) := Item(rules[n], n + 1)];
    forall i | 0 <= i < n + 1 ensures KeyAt(rules, i) in index' && index'[KeyAt(rules, i)] == Item(rules[i], i + 1) {
      if i < n { KeysApart(rules, i, n); }
    }
    forall k | k in index' ensures exists i :: 0 <= i < n + 1 && k == KeyAt(rules, i) {
      if k != KeyAt(rules, n) {
        assert k in index;
        var i :| 0 <= i < n && k == KeyAt(rules, i);
      }
    }
  }

  method IndexOf(items: seq<Item>, ghost rules: seq<Rule>) returns (index: map<string, Item>)
    requires items == Listing(rules)
    ensures IsIndex(index, rules)
  {
    index := map[];
    for n := 0 to |items|
      invariant IndexUpTo(index, rules, n)
    {
      var item := items[n];
      IndexStep(index, rules, n);
      index := index[Key(item.rule.httpMethod, item.rule.pattern, item.position) := item];
    }
  }

  /** Looking up the i-th desired key finds the rule at that very position, if its route is the desired one. */
  lemma {:induction false} LookupFixesPosition(index: map<string, Item>, rules: seq<Rule>, desired: seq<RuleSpec>,
                                               i: nat)
    requires IsIndex(index, rules) && i < |desired|
    requires ProperMethods(desired) && forall x :: x in rules ==> ':' !in x.httpMethod
    ensures DesiredKey(desired, i) in index <==> i < |rules| && SameRoute(rules[i], desired[i])
    ensures DesiredKey(desired, i) in index ==> index[DesiredKey(desired, i)] == Item(rules[i], i + 1)
  {
    var key := DesiredKey(desired, i);
    if key in index {
      var j :| 0 <= j < |rules| && key == KeyAt(rules, j);
      KeyInjective(desired[i].httpMethod, desired[i].pattern, i + 1, rules[j].httpMethod, rules[j].pattern, j + 1);
    }
    if i < |rules| && SameRoute(rules[i], desired[i]) {
      assert key == KeyAt(rules, i);
    }
  }

  /** A remote rule has a desired key exactly when it stands in place. */
  lemma {:induction false} DesiredIffInPlace(rules: seq<Rule>, desired: seq<RuleSpec>, i: nat)
    requires i < |rules| && ':' !in rules[i].httpMethod && ProperMethods(desired)
    ensures IsDesiredKey(desired, KeyAt(rules, i)) <==> i < |desired| && SameRoute(rules[i], desired[i])
  {
    if j :| 0 <= j < |desired| && DesiredKey(desired, j) == KeyAt(rules, i) {
      KeyInjective(desired[j].httpMethod, desired[j].pattern, j + 1, rules[i].httpMethod, rules[i].pattern, i + 1);
    }
    if i < |desired| && SameRoute(rules[i], desired[i]) {
      assert DesiredKey(desired, i) == KeyAt(rules, i);
    }
  }

  // ---------- The rules to delete ----------

  ghost predicate ListedAt(rules: seq<Rule>, key: string, item: Item, i: nat) {
    i < |rules| && key == KeyAt(rules, i) && item == Item(rules[i], i + 1)
  }

  /** Identifiers of the first n items. */
  ghost function IDs(items: seq<Item>, n: nat): set<int>
    requires n <= |items|
  {
    if n == 0 then {} else IDs(items, n - 1) + {items[n - 1].rule.id}
  }

  lemma {:induction false} IDsMembers(items: seq<Item>, n: nat, id: int)
    requires n <= |items|
    ensures id in IDs(items, n) <==> exists i :: 0 <= i < n && items[i].rule.id == id
  {
    if n > 0 {
      IDsMembers(items, n - 1, id);
    }
  }

  ghost predicate Deletable(items: seq<Item>, rules: seq<Rule>) {
    && (forall i :: 0 <= i < |items| ==> items[i].rule in rules)
    && (forall i, j :: 0 <= i < j < |items| ==> items[i].rule.id != items[j].rule.id)
  }

  /** The listed rules whose key is not desired: in any order, each once, and exactly those out of place. */
  ghost predicate OutOfPlace(items: seq<Item>, rules: seq<Rule>, desired: seq<RuleSpec>) {
    && Deletable(items, rules)
    && Without(rules, IDs(items, |items|)) == Kept(rules, desired)
    && (items == [] <==> Kept(rules, desired) == rules)
  }

  /** The listed items whose keys are selected because no desired rule has them. */
  ghost predicate Selected(rules: seq<Rule>, desired: seq<RuleSpec>, index: map<string, Item>, keys: seq<string>,
                           items: seq<Item>) {
    && IsIndex(index, rules) && Distinct(keys) && |items| == |keys|
    && (forall n :: 0 <= n < |keys| ==> keys[n] in index && items[n] == index[keys[n]])
    && (forall k :: k in keys <==> k in index && !IsDesiredKey(desired, k))
  }

  ghost predicate ProperRules(rules: seq<Rule>) {
    DistinctIDs(rules) && forall x :: x in rules ==> ':' !in x.httpMethod
  }

  lemma {:induction false} ListedItem(rules: seq<Rule>, desired: seq<RuleSpec>, index: map<string, Item>,
                                      keys: seq<string>, items: seq<Item>, n: nat) returns (i: nat)
    requires Selected(rules, desired, index, keys, items) && n < |keys|
    ensures ListedAt(rules, keys[n], items[n], i)
    ensures items[n].rule in rules
  {
    hide Key;
    assert keys[n] in index;
    i :| 0 <= i < |rules| && keys[n] == KeyAt(rules, i);
  }

  lemma {:induction false} SelectedDeletable(rules: seq<Rule>, desired: seq<RuleSpec>, index: map<string, Item>,
                                             keys: seq<string>, items: seq<Item>)
    requires Selected(rules, desired, index, keys, items) && ProperRules(rules)
    ensures Deletable(items, rules)
  {
  }

  lemma {:induction false} GoneIffOutOfPlace(rules: seq<Rule>, desired: seq<RuleSpec>, index: map<string, Item>,
                                             keys: seq<string>, items: seq<Item>, i: nat)
    requires Selected(rules, desired, index, keys, items) && ProperRules(rules) && ProperMethods(desired)
    requires i < |rules|
    ensures rules[i].id in IDs(items, |items|) <==> !(i < |desired| && SameRoute(rules[i], desired[i]))
  {
    hide Key;
    DesiredIffInPlace(rules, desired, i);
    IDsMembers(items, |items|, rules[i].id);
    var key := KeyAt(rules, i);
    if key in keys {
      var n :| 0 <= n < |keys| && keys[n] == key;
      assert items[n] == Item(rules[i], i + 1);
    }
    if n :| 0 <= n < |items| && items[n].rule.id == rules[i].id {
      var a := ListedItem(rules, desired, index, keys, items, n);
      assert a == i;
      assert keys[n] in keys;
    }
  }

  lemma {:induction false} NotDesiredMeans(rules: seq<Rule>, desired: seq<RuleSpec>, index: map<string, Item>,
                                           keys: seq<string>, items: seq<Item>)
    requires Selected(rules, desired, index, keys, items) && ProperRules(rules) && ProperMethods(desired)
    ensures OutOfPlace(items, rules, desired)
  {
    hide Key, Selected, ProperRules, ProperMethods;
    SelectedDeletable(rules, desired, index, keys, items);
    forall i | 0 <= i < |rules|
      ensures rules[i].id in IDs(items, |items|) <==> !(i < |desired| && SameRoute(rules[i], desired[i]))
    {
      GoneIffOutOfPlace(rules, desired, index, keys, items, i);
    }
    DeletionLeavesKept(rules, desired, items);
  }

  lemma {:induction false} DeletionLeavesKept(rules: seq<Rule>, desired: seq<RuleSpec>, items: seq<Item>)
    requires forall n :: 0 <= n < |items| ==> items[n].rule in rules
    requires forall i :: 0 <= i < |rules| ==>
               (rules[i].id in IDs(items, |items|) <==> !(i < |desired| && SameRoute(rules[i], desired[i])))
    ensures Without(rules, IDs(items, |items|)) == Kept(rules, desired)
    ensures items == [] <==> Kept(rules, desired) == rules
  {
    var gone := IDs(items, |items|);
    WithoutIsKept(rules, desired, gone);
    if items == [] {
      WithoutNothing(rules);
    } else {
      IDsMembers(items, |items|, items[0].rule.id);
      assert items[0].rule in rules && items[0].rule !in Without(rules, gone);
    }
  }

  lemma {:induction false} DeleteStep(rules: seq<Rule>, items: seq<Item>, n: nat)
    requires n < |items| && Deletable(items, rules)
    ensures items[n].rule in Without(rules, IDs(items, n))
    ensures Without(Without(rules, IDs(items, n)), {items[n].rule.id}) == Without(rules, IDs(items, n + 1))
  {
    IDsMembers(items, n, items[n].rule.id);
    WithoutTwice(rules, IDs(items, n), {items[n].rule.id});
  }

  /** The keys of the desired rules in order, and the desired rule under each key. */
  ghost predicate IsDesiredIndex(desired: seq<RuleSpec>, keys: seq<string>, specs: map<string, RuleSpec>) {
    && |keys| == |desired|
    && (forall i :: 0 <= i < |desired| ==> keys[i] == DesiredKey(desired, i))
    && (forall i :: 0 <= i < |desired| ==> keys[i] in specs && specs[keys[i]] == desired[i])
  }

  method DesiredIndex(desired: seq<RuleSpec>) returns (keys: seq<string>, specs: map<string, RuleSpec>)
    requires ProperMethods(desired)
    ensures IsDesiredIndex(desired, keys, specs)
    ensures forall k :: k in keys <==> IsDesiredKey(desired, k)
  {
    hide Key;
    keys, specs := [], map[];
    for n := 0 to |desired|
      invariant |keys| == n && forall i :: 0 <= i < n ==> keys[i] == DesiredKey(desired, i)
      invariant forall i :: 0 <= i < n ==> keys[i] in specs && specs[keys[i]] == desired[i]
    {
      var key := Key(desired[n].httpMethod, desired[n].pattern, n + 1);
      forall i | 0 <= i < n ensures keys[i] != key {
        KeyInjective(desired[i].httpMethod, desired[i].pattern, i + 1,
                     desired[n].httpMethod, desired[n].pattern, n + 1);
      }
      keys := keys + [key];
      specs := specs[key := desired[n]];
    }
  }

  /** Collects the rules to delete; the program reads the existing keys off a map, in any order. */
  method NotDesired(desired: seq<RuleSpec>, desiredKeys: seq<string>, index: map<string, Item>, ghost rules: seq<Rule>)
    returns (notDesired: seq<Item>)
    requires IsIndex(index, rules) && ProperRules(rules) && ProperMethods(desired)
    requires forall k :: k in desiredKeys <==> IsDesiredKey(desired, k)
    ensures OutOfPlace(notDesired, rules, desired)
  {
    hide Key;
    var existingKeys := KeysInAnyOrder(index);
    var keys := ArrayStringDifference(existingKeys, desiredKeys);
    notDesired := [];
    for n := 0 to |keys|
      invariant |notDesired| == n
      invariant forall i :: 0 <= i < n ==> keys[i] in index && notDesired[i] == index[keys[i]]
    {
      assert keys[n] in keys;
      notDesired := notDesired + [index[keys[n]]];
    }
    NotDesiredMeans(rules, desired, index, keys, notDesired);
  }

  // ---------- The walk ----------

  /** Before step i the first i positions are as desired and the rest embeds in the rest of the desired list. */
  ghost predicate Walked(rules: seq<Rule>, desired: seq<RuleSpec>, metrics: map<string, nat>, i: nat) {
    && i <= |rules| && i <= |desired|
    && (forall j :: 0 <= j < i ==> Matches(rules[j], desired[j], metrics))
    && Embeds(rules[i..], desired[i..])
  }

  lemma {:induction false} WalkedUpdate(before: seq<Rule>, after: seq<Rule>, desired: seq<RuleSpec>,
                                        metrics: map<string, nat>, i: nat)
    requires Walked(before, desired, metrics, i) && i < |desired|
    requires i < |before| == |after| && SameRoute(before[i], desired[i])
    requires Matches(after[i], desired[i], metrics)
    requires forall j :: 0 <= j < |before| && j != i ==> after[j] == before[j]
    ensures Walked(after, desired, metrics, i + 1)
  {
    assert before[i..][1..] == before[i + 1..] == after[i + 1..];
    assert desired[i..][1..] == desired[i + 1..];
  }

  lemma {:induction false} WalkedCreate(before: seq<Rule>, rule: Rule, desired: seq<RuleSpec>,
                                        metrics: map<string, nat>, i: nat)
    requires Walked(before, desired, metrics, i) && i < |desired|
    requires !(i < |before| && SameRoute(before[i], desired[i]))
    requires Matches(rule, desired[i], metrics)
    ensures Walked(InsertAt(before, rule, i + 1), desired, metrics, i + 1)
  {
  }

  /** After the last step nothing is left over. */
  lemma {:induction false} WalkedAll(rules: seq<Rule>, desired: seq<RuleSpec>, metrics: map<string, nat>)
    requires Walked(rules, desired, metrics, |desired|)
    ensures Converged(rules, desired, metrics)
  {
  }

  // ---------- Rules that stay ----------

  /** A rule keeps its identifier, method and pattern, wherever it stands and whatever else changes. */
  ghost predicate Holds(rules: seq<Rule>, r: Rule) {
    exists j :: 0 <= j < |rules| && rules[j].id == r.id && rules[j].httpMethod == r.httpMethod
                && rules[j].pattern == r.pattern
  }

  ghost predicate HoldsAll(after: seq<Rule>, before: seq<Rule>) {
    forall i :: 0 <= i < |before| ==> Holds(after, before[i])
  }

  lemma {:induction false} HoldsAllTwice(a: seq<Rule>, b: seq<Rule>, c: seq<Rule>)
    requires HoldsAll(b, a) && HoldsAll(c, b)
    ensures HoldsAll(c, a)
  {
    forall i | 0 <= i < |a| ensures Holds(c, a[i]) {
      assert Holds(b, a[i]);
      var j :| 0 <= j < |b| && b[j].id == a[i].id && b[j].httpMethod == a[i].httpMethod && b[j].pattern == a[i].pattern;
      assert Holds(c, b[j]);
    }
  }

  lemma {:induction false} PartHeld(after: seq<Rule>, before: seq<Rule>)
    requires forall x :: x in before ==> x in after
    ensures HoldsAll(after, before)
  {
    forall i | 0 <= i < |before| ensures Holds(after, before[i]) {
      assert before[i] in before;
      var j :| 0 <= j < |after| && after[j] == before[i];
    }
  }

  /** Neither a creation nor an update that sends no position takes a rule away. */
  lemma {:induction false} InsertionHolds(rules: seq<Rule>, r: Rule, position: nat)
    ensures HoldsAll(InsertAt(rules, r, position), rules)
  {
    PartHeld(InsertAt(rules, r, position), rules);
  }

  lemma {:induction false} UpdateHolds(rules: seq<Rule>, k: nat, p: Params)
    requires k < |rules| && p.position.None?
    ensures HoldsAll(Updated(rules, k, p), rules)
  {
    forall i | 0 <= i < |rules| ensures Holds(Updated(rules, k, p), rules[i]) {
      assert Updated(rules, k, p)[i].id == rules[i].id;
    }
  }

  lemma {:induction false} InPlaceKept(rules: seq<Rule>, desired: seq<RuleSpec>, i: nat)
    requires i < |rules| && i < |desired| && SameRoute(rules[i], desired[i])
    ensures rules[i] in Kept(rules, desired)
  {
    if i > 0 { InPlaceKept(rules[1..], desired[1..], i - 1); }
  }

  lemma {:induction false} KeptHolds(before: seq<Rule>, desired: seq<RuleSpec>, after: seq<Rule>)
    requires HoldsAll(after, Kept(before, desired))
    ensures InPlaceStay(before, desired, after)
  {
    forall i | 0 <= i < |before| && i < |desired| && SameRoute(before[i], desired[i])
      ensures Holds(after, before[i])
    {
      InPlaceKept(before, desired, i);
      var n :| 0 <= n < |Kept(before, desired)| && Kept(before, desired)[n] == before[i];
      assert Holds(after, Kept(before, desired)[n]);
    }
  }

  /** The rules in place are still there, under the identifiers they had. */
  ghost predicate InPlaceStay(before: seq<Rule>, desired: seq<RuleSpec>, after: seq<Rule>) {
    forall i :: 0 <= i < |before| && i < |desired| && SameRoute(before[i], desired[i]) ==> Holds(after, before[i])
  }

  lemma {:induction false} StillAhead(rules: seq<Rule>, items: seq<Item>, n: nat)
    requires n <= |items|
    ensures forall x :: x in Without(rules, IDs(items, |items|)) ==> x in Without(rules, IDs(items, n))
  {
    forall x | x in Without(rules, IDs(items, |items|)) ensures x.id !in IDs(items, n) {
      IDsMembers(items, n, x.id);
      IDsMembers(items, |items|, x.id);
    }
  }

  // ---------- Writes the program may issue ----------

  /** A create never leaves a hole, and an update never sends a position, so it never moves a rule. */
  predicate SoundWrite(w: Write) {
    match w
    case DeleteRule(_) => true
    case CreateRule(position, length) => 1 <= position <= length + 1
    case UpdateRule(_, p) => p.position.None? && (p.metricID.Some? || p.delta.Some? || p.last.Some?)
  }

  ghost predicate SoundSince(before: seq<Write>, after: seq<Write>) {
    before <= after && forall i :: |before| <= i < |after| ==> SoundWrite(after[i])
  }

  lemma {:induction false} ConvergedKept(rules: seq<Rule>, desired: seq<RuleSpec>, metrics: map<string, nat>)
    ensures Converged(rules, desired, metrics) ==> Kept(rules, desired) == rules
  {
    if Converged(rules, desired, metrics) {
      KeptAll(rules, desired);
    }
  }

  lemma {:induction false} WalkStarts(rules: seq<Rule>, desired: seq<RuleSpec>, metrics: map<string, nat>)
    requires Embeds(rules, desired)
    ensures Walked(rules, desired, metrics, 0)
  {
  }

  lemma {:induction false} ConvergedResolvable(rules: seq<Rule>, desired: seq<RuleSpec>, metrics: map<string, nat>)
    requires Converged(rules, desired, metrics)
    ensures Resolvable(desired, metrics)
  {
  }

  // ---------- The remote entity, with its cached listing ----------

  class RuleEntity {
    const server: RuleServer
    var listing: Option<seq<Item>>

    ghost predicate Fresh()
      reads this, server
    {
      server.Valid() && (listing.Some? ==> listing.value == Listing(server.rules))
    }

    constructor (server: RuleServer)
      ensures this.server == server && listing == None
    {
      this.server := server;
      listing := None;
    }

    method MappingRules() returns (ok: bool, items: seq<Item>)
      requires Fresh()
      modifies this
      ensures Fresh()
      ensures ok ==> items == Listing(server.rules) && listing == Some(items)
      ensures server.reliable ==> ok
    {
      if listing.None? {
        ok, items := server.List();
        if ok { listing := Some(items); }
      } else {
        ok, items := true, listing.value;
      }
    }

    method Delete(id: int) returns (ok: bool)
      requires Fresh()
      modifies this, server`rules, server`writes
      ensures server.Valid() && (ok ==> Fresh())
      ensures server.writes == old(server.writes) + [DeleteRule(id)]
      ensures server.rules == old(server.rules) || server.rules == Without(old(server.rules), {id})
      ensures ok ==> server.rules == Without(old(server.rules), {id})
      ensures server.reliable && (exists x :: x in old(server.rules) && x.id == id) ==> ok
    {
      ok := server.Delete(id);
      if ok { listing := None; }
    }

    method Create(httpMethod: string, pattern: string, metricID: int, delta: int, last: Option<bool>, position: nat)
      returns (ok: bool)
      requires Fresh() && ':' !in httpMethod
      modifies this, server`rules, server`writes, server`nextID
      ensures server.Valid() && (ok ==> Fresh())
      ensures server.writes == old(server.writes) + [CreateRule(position, |old(server.rules)|)]
      ensures ok ==> server.rules == InsertAt(old(server.rules), Rule(old(server.nextID), httpMethod, pattern, metricID,
                                              delta, last.Some? && last.value), position)
      ensures HoldsAll(server.rules, old(server.rules))
      ensures server.reliable ==> ok
    {
      ghost var before := server.rules;
      ok := server.Create(httpMethod, pattern, metricID, delta, last, position);
      PartHeld(before, before);
      if r :| server.rules == InsertAt(before, r, position) { InsertionHolds(before, r, position); }
      if ok { listing := None; }
    }

    method Update(id: int, p: Params) returns (ok: bool)
      requires Fresh()
      modifies this, server`rules, server`writes
      ensures server.Valid() && (ok ==> Fresh())
      ensures server.writes == old(server.writes) + [UpdateRule(id, p)]
      ensures ok ==> exists k :: 0 <= k < |old(server.rules)| && old(server.rules)[k].id == id
                                 && server.rules == Updated(old(server.rules), k, p)
      ensures p.position.None? ==> HoldsAll(server.rules, old(server.rules))
      ensures server.reliable && (exists x :: x in old(server.rules) && x.id == id) ==> ok
    {
      ghost var before := server.rules;
      ok := server.Update(id, p);
      PartHeld(before, before);
      if p.position.None? && server.rules != before {
        ghost var k :| 0 <= k < |before| && server.rules == Updated(before, k, p);
        UpdateHolds(before, k, p);
      }
      if ok { listing := None; }
    }
  }

  // ---------- The reconciler ----------

  class RuleReconciler {
    const entity: RuleEntity
    const desired: seq<RuleSpec>

    /** A reconciler is built with a new entity, whose listing is not yet fetched. */
    constructor (server: RuleServer, desired: seq<RuleSpec>)
      ensures fresh(entity) && entity.server == server && entity.listing == None && this.desired == desired
    {
      var e := new RuleEntity(server);
      entity, this.desired := e, desired;
    }

    method GetExistingMappingRules() returns (ok: bool, index: map<string, Item>)
      requires entity.Fresh()
      modifies entity
      ensures entity.Fresh()
      ensures ok ==> IsIndex(index, entity.server.rules)
      ensures entity.server.reliable ==> ok
    {
      index := map[];
      var items: seq<Item>;
      ok, items := entity.MappingRules();
      if ok {
        index := IndexOf(items, entity.server.rules);
      }
    }

    method ProcessNotDesired(notDesired: seq<Item>) returns (ok: bool)
      requires entity.Fresh()
      requires Deletable(notDesired, entity.server.rules)
      modifies entity, entity.server`rules, entity.server`writes
      ensures entity.server.Valid() && (ok ==> entity.Fresh())
      ensures SoundSince(old(entity.server.writes), entity.server.writes)
      ensures notDesired == [] ==> entity.server.rules == old(entity.server.rules)
                                   && entity.server.writes == old(entity.server.writes)
      ensures ok ==> entity.server.rules == Without(old(entity.server.rules), IDs(notDesired, |notDesired|))
      ensures forall x :: x in Without(old(entity.server.rules), IDs(notDesired, |notDesired|)) ==>
                x in entity.server.rules
      ensures entity.server.reliable ==> ok
    {
      hide Without, Deletable;
      ok := true;
      WithoutNothing(entity.server.rules);
      for n := 0 to |notDesired|
        invariant entity.Fresh() && ok
        invariant SoundSince(old(entity.server.writes), entity.server.writes)
        invariant n == 0 ==> entity.server.writes == old(entity.server.writes)
        invariant entity.server.rules == Without(old(entity.server.rules), IDs(notDesired, n))
      {
        DeleteStep(old(entity.server.rules), notDesired, n);
        StillAhead(old(entity.server.rules), notDesired, n);
        StillAhead(old(entity.server.rules), notDesired, n + 1);
        ok := entity.Delete(notDesired[n].rule.id);
        if !ok { return; }
      }
    }

    /** Brings the attributes of the rule that stands in place in line; the code also compares the position. */
    method ReconcileMappingRuleWithPosition(d: RuleSpec, position: nat, existing: Item) returns (ok: bool)
      requires entity.Fresh()
      requires 1 <= position <= |entity.server.rules|
      requires existing == Item(entity.server.rules[position - 1], position) && SameRoute(existing.rule, d)
      modifies entity, entity.server`rules, entity.server`writes
      ensures entity.server.Valid() && (ok ==> entity.Fresh())
      ensures SoundSince(old(entity.server.writes), entity.server.writes)
      ensures ok ==> |entity.server.rules| == |old(entity.server.rules)|
                     && Matches(entity.server.rules[position - 1], d, entity.server.metrics)
      ensures ok ==> forall i :: 0 <= i < |entity.server.rules| && i != position - 1
                                 ==> entity.server.rules[i] == old(entity.server.rules)[i]
      ensures HoldsAll(entity.server.rules, old(entity.server.rules))
      ensures Matches(existing.rule, d, entity.server.metrics)
              ==> entity.server.rules == old(entity.server.rules) && entity.server.writes == old(entity.server.writes)
      ensures entity.server.reliable ==> (ok <==> d.metricMethodRef in entity.server.metrics)
    {
      hide Listing, InsertAt, Without, HoldsAll;
      PartHeld(entity.server.rules, entity.server.rules);
      var metricID: int;
      ok, metricID := entity.server.FindMetric(d.metricMethodRef);
      if !ok { return; }
      if metricID < 0 { return false; }
      var params := Params(None, None, None, None);
      if metricID != existing.rule.metricID {
        params := params.(metricID := Some(metricID));
      }
      if d.increment != existing.rule.delta {
        params := params.(delta := Some(d.increment));
      }
      var desiredLast := false;
      if d.last.Some? {
        desiredLast := d.last.value;
      }
      if desiredLast != existing.rule.last {
        params := params.(last := Some(desiredLast));
      }
      if position != existing.position {
        params := params.(position := Some(position));
      }
      if params != Params(None, None, None, None) {
        ok := entity.Update(existing.rule.id, params);
      }
    }

    method CreateNewMappingRuleWithPosition(d: RuleSpec, position: nat) returns (ok: bool)
      requires entity.Fresh() && ':' !in d.httpMethod
      requires 1 <= position <= |entity.server.rules| + 1
      modifies entity, entity.server`rules, entity.server`writes, entity.server`nextID
      ensures entity.server.Valid() && (ok ==> entity.Fresh())
      ensures SoundSince(old(entity.server.writes), entity.server.writes)
      ensures ok ==> exists r :: Matches(r, d, entity.server.metrics)
                                 && entity.server.rules == InsertAt(old(entity.server.rules), r, position)
      ensures HoldsAll(entity.server.rules, old(entity.server.rules))
      ensures entity.server.reliable ==> (ok <==> d.metricMethodRef in entity.server.metrics)
    {
      hide HoldsAll;
      PartHeld(entity.server.rules, entity.server.rules);
      var metricID: int;
      ok, metricID := entity.server.FindMetric(d.metricMethodRef);
      if !ok { return; }
      if metricID < 0 { return false; }
      ghost var id := entity.server.nextID;
      ok := entity.Create(d.httpMethod, d.pattern, metricID, d.increment, d.last, position);
      ghost var r := Rule(id, d.httpMethod, d.pattern, metricID, d.increment, d.last.Some? && d.last.value);
      assert Matches(r, d, entity.server.metrics);
    }

    /**
     One run. Without error it leaves the remote list equal to the custom resource's list, whatever the list was.
     Every write on the way is sound, a converged list is not written to, and a run that fails leaves a list
     from which the next run starts over. Failed or not, no run takes away a rule that was in place: it stays under its
     identifier.
     */
    method SyncMappingRules() returns (ok: bool)
      requires entity.Fresh() && ProperMethods(desired)
      modifies entity, entity.server`rules, entity.server`writes, entity.server`nextID
      ensures entity.server.Valid()
      ensures ok ==> Converged(entity.server.rules, desired, entity.server.metrics)
      ensures InPlaceStay(old(entity.server.rules), desired, entity.server.rules)
      ensures SoundSince(old(entity.server.writes), entity.server.writes)
      ensures old(Converged(entity.server.rules, desired, entity.server.metrics))
              ==> entity.server.writes == old(entity.server.writes) && entity.server.rules == old(entity.server.rules)
      ensures entity.server.reliable ==> (ok <==> Resolvable(desired, entity.server.metrics))
    {
      hide HoldsAll, InPlaceStay;
      ghost var before := entity.server.rules;
      var desiredKeys, desiredMap := DesiredIndex(desired);
      var index: map<string, Item>;
      ok, index := DeleteNotDesired(desiredKeys);
      if ok {
        ghost var between := entity.server.rules;
        ok := Walk(desiredKeys, desiredMap, index);
        HoldsAllTwice(Kept(before, desired), between, entity.server.rules);
      }
      KeptHolds(before, desired, entity.server.rules);
    }

    /** Deletes what is out of place, and fetches the list again if there was something to delete. */
    method DeleteNotDesired(desiredKeys: seq<string>) returns (ok: bool, index: map<string, Item>)
      requires entity.Fresh() && ProperMethods(desired)
      requires forall k :: k in desiredKeys <==> IsDesiredKey(desired, k)
      modifies entity, entity.server`rules, entity.server`writes
      ensures entity.server.Valid() && (ok ==> entity.Fresh())
      ensures ok ==> IsIndex(index, entity.server.rules)
      ensures ok ==> entity.server.rules == Kept(old(entity.server.rules), desired)
      ensures ok ==> Embeds(entity.server.rules, desired)
      ensures HoldsAll(entity.server.rules, Kept(old(entity.server.rules), desired))
      ensures SoundSince(old(entity.server.writes), entity.server.writes)
      ensures old(Converged(entity.server.rules, desired, entity.server.metrics))
              ==> entity.server.writes == old(entity.server.writes) && entity.server.rules == old(entity.server.rules)
      ensures entity.server.reliable ==> ok
    {
      hide Without, Kept, IsIndex, IsDesiredKey, ProperMethods, Matches, SoundWrite, Embeds, Listing, HoldsAll;
      KeptMembers(entity.server.rules, desired);
      PartHeld(entity.server.rules, Kept(entity.server.rules, desired));
      ok, index := GetExistingMappingRules();
      if !ok { return; }
      var notDesired := NotDesired(desired, desiredKeys, index, entity.server.rules);
      ConvergedKept(entity.server.rules, desired, entity.server.metrics);
      KeptEmbeds(entity.server.rules, desired);
      ok := ProcessNotDesired(notDesired);
      PartHeld(entity.server.rules, Kept(old(entity.server.rules), desired));
      if !ok { return; }
      if |notDesired| > 0 {
        ok, index := GetExistingMappingRules();
      }
    }

    /** The walk over the desired list, from a remote list that embeds in it. */
    method Walk(desiredKeys: seq<string>, desiredMap: map<string, RuleSpec>, start: map<string, Item>)
      returns (ok: bool)
      requires entity.Fresh() && ProperMethods(desired)
      requires IsDesiredIndex(desired, desiredKeys, desiredMap)
      requires IsIndex(start, entity.server.rules)
      requires Embeds(entity.server.rules, desired)
      modifies entity, entity.server`rules, entity.server`writes, entity.server`nextID
      ensures entity.server.Valid()
      ensures ok ==> Converged(entity.server.rules, desired, entity.server.metrics)
      ensures HoldsAll(entity.server.rules, old(entity.server.rules))
      ensures SoundSince(old(entity.server.writes), entity.server.writes)
      ensures old(Converged(entity.server.rules, desired, entity.server.metrics))
              ==> entity.server.writes == old(entity.server.writes) && entity.server.rules == old(entity.server.rules)
      ensures entity.server.reliable ==> (ok <==> Resolvable(desired, entity.server.metrics))
    {
      hide Embeds, Walked, IsIndex, Matches, ProperMethods, SoundWrite, HoldsAll;
      PartHeld(entity.server.rules, entity.server.rules);
      ok := true;
      var index := start;
      WalkStarts(entity.server.rules, desired, entity.server.metrics);
      for i := 0 to |desiredKeys|
        invariant ok && entity.Fresh() && IsIndex(index, entity.server.rules)
        invariant Walked(entity.server.rules, desired, entity.server.metrics, i)
        invariant HoldsAll(entity.server.rules, old(entity.server.rules))
        invariant SoundSince(old(entity.server.writes), entity.server.writes)
        invariant old(Converged(entity.server.rules, desired, entity.server.metrics))
                  ==> entity.server.writes == old(entity.server.writes) &&
                      entity.server.rules == old(entity.server.rules)
      {
        ghost var before := entity.server.rules;
        ok := WalkStep(desiredKeys[i], desiredMap[desiredKeys[i]], i, index);
        HoldsAllTwice(old(entity.server.rules), before, entity.server.rules);
        if !ok { return; }
        ok, index := GetExistingMappingRules();
        if !ok { return; }
      }
      WalkedAll(entity.server.rules, desired, entity.server.metrics);
      ConvergedResolvable(entity.server.rules, desired, entity.server.metrics);
    }

    /** Creates or updates the i-th desired rule. */
    method WalkStep(key: string, rule: RuleSpec, i: nat, index: map<string, Item>) returns (ok: bool)
      requires entity.Fresh() && ProperMethods(desired)
      requires i < |desired| && key == DesiredKey(desired, i) && rule == desired[i]
      requires IsIndex(index, entity.server.rules)
      requires Walked(entity.server.rules, desired, entity.server.metrics, i)
      modifies entity, entity.server`rules, entity.server`writes, entity.server`nextID
      ensures entity.server.Valid() && (ok ==> entity.Fresh())
      ensures ok ==> Walked(entity.server.rules, desired, entity.server.metrics, i + 1)
      ensures HoldsAll(entity.server.rules, old(entity.server.rules))
      ensures SoundSince(old(entity.server.writes), entity.server.writes)
      ensures old(i < |entity.server.rules| && Matches(entity.server.rules[i], rule, entity.server.metrics))
              ==> entity.server.writes == old(entity.server.writes) && entity.server.rules == old(entity.server.rules)
      ensures entity.server.reliable ==> (ok <==> rule.metricMethodRef in entity.server.metrics)
    {
      hide Embeds, IsIndex, Key, SoundWrite, HoldsAll;
      ghost var before, metrics := entity.server.rules, entity.server.metrics;
      LookupFixesPosition(index, before, desired, i);
      if key in index {
        ok := ReconcileMappingRuleWithPosition(rule, i + 1, index[key]);
        if ok {
          WalkedUpdate(before, entity.server.rules, desired, metrics, i);
        }
      } else {
        ok := CreateNewMappingRuleWithPosition(rule, i + 1);
        if ok {
          ghost var r :| Matches(r, rule, metrics) && entity.server.rules == InsertAt(before, r, i + 1);
          WalkedCreate(before, r, desired, metrics, i);
        }
      }
    }
  }

  /**
     Successive runs against the same server, each with a new reconciler. However earlier runs failed, the first
     run that succeeds converges, and from then on no run writes anything, whether it succeeds or not.
   */
  method SyncRepeatedly(server: RuleServer, desired: seq<RuleSpec>, runs: nat)
    returns (converged: bool, ghost settled: seq<Write>)
    requires server.Valid() && ProperMethods(desired)
    modifies server`rules, server`writes, server`nextID
    ensures server.Valid() && SoundSince(old(server.writes), server.writes)
    ensures converged ==> Converged(server.rules, desired, server.metrics) && server.writes == settled
    ensures server.reliable && runs > 0 && Resolvable(desired, server.metrics) ==> converged
  {
    converged, settled := false, server.writes;
    for n := 0 to runs
      invariant server.Valid() && SoundSince(old(server.writes), server.writes)
      invariant converged ==> Converged(server.rules, desired, server.metrics) && server.writes == settled
      invariant server.reliable && n > 0 && Resolvable(desired, server.metrics) ==> converged
    {
      var reconciler := new RuleReconciler(server, desired);
      var ok := reconciler.SyncMappingRules();
      if ok && !converged {
        converged, settled := true, server.writes;
      }
    }
  }

  lemma {:induction false} WithoutNothing(rules: seq<Rule>)
    ensures Without(rules, {}) == rules
  {
    if rules != [] {
      WithoutNothing(rules[1..]);
    }
  }
}
