/**
 The protocol between the subscription controller and the APIManager controller, as a history of events.
 The controllers share the requirements config map, the annotations of the APIManagers and the operator conditions.
 Reads are answered from a cache that may be out of date; writes carry the version they are based on and are refused
 when it is not the stored one. The position of a write in the history is the resource version it gives, so resource
 versions are never reused.
 */
module UpgradeGate {
  import opened Options
  import opened Preflights

  datatype ConfigMap = ConfigMap(version: nat, owner: string, data: Requirements)

  /** The Upgradeable statuses among the conditions and the overrides of an operator condition. */
  datatype OperatorCondition =
    OperatorCondition(name: string, version: nat, conditions: seq<string>, overrides: seq<string>)

  type APIManagers = map<string, APIManager>

  datatype World =
    World(configMap: Option<ConfigMap>, apiManagers: APIManagers, conditions: seq<OperatorCondition>)

  datatype Pass = SubscriptionPass(id: nat) | InstancePass(id: nat)

  datatype Event =
      // made by users, the lifecycle manager and the garbage collector
    | APIManagerCreated(name: string, release: Option<string>, spec: Spec)
    | APIManagerEdited(name: string, release: Option<string>, spec: Spec)
    | APIManagerDeleted(name: string)
    | ConfigMapCollected
    | ConditionsChanged(conditions: seq<OperatorCondition>)
      // reads, and checks of the databases
    | ConfigMapSeen(pass: Pass, configMap: ConfigMap)
    | APIManagersListed(pass: Pass, listed: APIManagers)
    | ConditionsListed(pass: Pass, conditions: seq<OperatorCondition>)
    | InstanceSeen(pass: Pass, name: string, instance: APIManager)
    | DatabaseChecked(pass: Pass, name: string, database: Database, data: Requirements, holds: bool)
      // writes of the controllers
    | ConfigMapWritten(pass: Pass, replaced: Option<nat>, owner: string, data: Requirements)
    | ConditionWritten(pass: Pass, configMap: ConfigMap, listed: APIManagers, conditions: seq<OperatorCondition>,
                       base: OperatorCondition)
    | StatusWritten(pass: Pass, name: string, instance: APIManager)
    | Confirmed(pass: Pass, name: string, instance: APIManager, configMap: ConfigMap, running: Release,
        verified: Verified)
    | DefaultsWritten(pass: Pass, name: string, instance: APIManager, running: Release, bypassed: bool)
    | ComponentsReconciled(pass: Pass, name: string, instance: APIManager, running: Release, bypassed: bool,
                           finished: bool)

  type History = seq<Event>

  // ---------- What events do to the world ----------

  predicate AllConfirmed(listed: APIManagers, version: nat) {
    forall name :: name in listed ==> listed[name].confirmed == Some(version)
  }

  /** The condition as the subscription controller rewrites it. */
  function Ruled(confirmed: bool, approved: bool, base: OperatorCondition): OperatorCondition {
    if confirmed && approved then base.(overrides := ["True"])
    else base.(conditions := ["False"], overrides := [])
  }

  function Rewritten(e: Event): OperatorCondition
    requires e.ConditionWritten?
  {
    Ruled(AllConfirmed(e.listed, e.configMap.version), |e.conditions| > 1, e.base)
  }

  function Replace(s: seq<OperatorCondition>, c: OperatorCondition): seq<OperatorCondition> {
    seq(|s|, i requires 0 <= i < |s| => if s[i].name == c.name then c else s[i])
  }

  /** The world after event e, given the version n for what it writes. */
  function Next(w: World, n: nat, e: Event): World {
    match e
    case APIManagerCreated(name, release, spec) =>
      w.(apiManagers := w.apiManagers[name := APIManager(n, None, None, release, spec)])
    case APIManagerEdited(name, release, spec) =>
      if name !in w.apiManagers then w else
      w.(apiManagers := w.apiManagers[name := w.apiManagers[name].(version := n, release := release, spec := spec)])
    case APIManagerDeleted(name) => w.(apiManagers := w.apiManagers - {name})
    case ConfigMapCollected => w.(configMap := None)
    case ConditionsChanged(conditions) => w.(conditions := conditions)
    case ConfigMapWritten(_, _, owner, data) => w.(configMap := Some(ConfigMap(n, owner, data)))
    case ConditionWritten(_, _, _, _, _) =>
      w.(conditions := Replace(w.conditions, Rewritten(e).(version := n)))
    case StatusWritten(_, name, instance) => w.(apiManagers := w.apiManagers[name := instance])
    case Confirmed(_, name, instance, configMap, _, _) =>
      w.(apiManagers := w.apiManagers[name := instance.(version := n, confirmed := Some(configMap.version))])
    case DefaultsWritten(_, name, instance, r, _) =>
      w.(apiManagers := w.apiManagers[name := Defaulted(r, instance).(version := n)])
    case _ => w
  }

  const START := World(None, map[], [])

  function After(h: History): World {
    if h == [] then START else
    var front := h[..|h| - 1];
    Next(After(front), |front|, h[|h| - 1])
  }

  // ---------- Which events may come ----------

  predicate Stored(w: World, name: string, version: nat) {
    name in w.apiManagers && w.apiManagers[name].version == version
  }

  /** What the API server and its caches allow next. */
  predicate Possible(h: History, e: Event) {
    var w := After(h);
    match e
    case APIManagerCreated(name, _, _) => name !in w.apiManagers
    case ConfigMapSeen(_, c) => exists m :: 0 <= m <= |h| && After(h[..m]).configMap == Some(c)
    case APIManagersListed(_, listed) => exists m :: 0 <= m <= |h| && After(h[..m]).apiManagers == listed
    case ConditionsListed(_, conditions) =>
      conditions == [] || exists m :: 0 <= m <= |h| && After(h[..m]).conditions == conditions
    case InstanceSeen(_, name, a) =>
      exists m :: 0 <= m <= |h| && name in After(h[..m]).apiManagers && After(h[..m]).apiManagers[name] == a
    case ConfigMapWritten(_, replaced, _, _) =>
      if replaced.None? then w.configMap.None?
      else w.configMap.Some? && w.configMap.value.version == replaced.value
    case ConditionWritten(_, _, _, _, base) =>
      exists i :: 0 <= i < |w.conditions| && w.conditions[i].name == base.name &&
          w.conditions[i].version == base.version
    case StatusWritten(_, name, a) => name in w.apiManagers && a == w.apiManagers[name].(version := |h|)
    case Confirmed(_, name, a, _, _, _) => Stored(w, name, a.version)
    case DefaultsWritten(_, name, a, _, _) => Stored(w, name, a.version)
    case _ => true
  }

  /** The pass got this object from the API server, as the answer to a read or to a status update. */
  predicate Knows(h: History, p: Pass, name: string, a: APIManager) {
    InstanceSeen(p, name, a) in h || StatusWritten(p, name, a) in h
  }

  predicate Cleared(h: History, p: Pass, a: APIManager, r: Release) {
    exists i :: 0 <= i < |h| && h[i].ConfigMapSeen? && h[i].pass == p && MayProceed(r, a, h[i].configMap.version)
  }

  /** Every stated requirement was checked against the database, with this answer; one not stated holds unasked. */
  predicate Backed(h: History, p: Pass, name: string, q: Requirements, v: Verified) {
    forall d: Database :: if Stated(q, d) then DatabaseChecked(p, name, d, q, v.Of(d)) in h else v.Of(d)
  }

  predicate BySubscription(e: Event) {
    (e.ConfigMapSeen? || e.APIManagersListed? || e.ConditionsListed? || e.ConfigMapWritten? || e.ConditionWritten?) &&
    e.pass.SubscriptionPass?
  }

  /** No event of a later pass of the subscription controller. */
  predicate UpTo(h: History, id: nat) {
    forall i :: 0 <= i < |h| && BySubscription(h[i]) ==> h[i].pass.id <= id
  }

  predicate Before(h: History, id: nat) {
    forall i :: 0 <= i < |h| && BySubscription(h[i]) ==> h[i].pass.id < id
  }

  /** A condition of that name holds the upgrade back. */
  predicate Blocks(conditions: seq<OperatorCondition>, name: string) {
    exists i :: 0 <= i < |conditions| && conditions[i].name == name && "False" in conditions[i].conditions
  }

  /** What the programs of the two controllers do only after the events of h. */
  predicate Justified(h: History, e: Event) {
    match e
    case ConfigMapSeen(p, _) => p.SubscriptionPass? ==> UpTo(h, p.id)
    case APIManagersListed(p, _) => p.SubscriptionPass? && UpTo(h, p.id)
    case ConditionsListed(p, _) => p.SubscriptionPass? && UpTo(h, p.id)
    case InstanceSeen(p, _, _) => p.InstancePass?
    case DatabaseChecked(p, _, _, _, _) => p.InstancePass?
    case ConfigMapWritten(p, _, _, _) => p.SubscriptionPass? && Before(h, p.id)
    case ConditionWritten(p, configMap, listed, conditions, base) =>
      && p.SubscriptionPass? && UpTo(h, p.id)
      && ConfigMapSeen(p, configMap) in h && APIManagersListed(p, listed) in h && ConditionsListed(p, conditions) in h
      && |listed| > 0
      && (if |conditions| > 1 then Blocks(conditions, base.name) else conditions == [base])
    case StatusWritten(p, _, _) => p.InstancePass?
    case Confirmed(p, name, a, configMap, r, verified) =>
      && p.InstancePass?
      && Knows(h, p, name, a) && ConfigMapSeen(p, configMap) in h
      && Backed(h, p, name, configMap.data, verified) && Judge(r, a, configMap.data, verified) == Confirm
    case DefaultsWritten(p, name, a, r, bypassed) =>
      p.InstancePass? && Knows(h, p, name, a) && (bypassed || Cleared(h, p, a, r))
    case ComponentsReconciled(p, name, a, r, bypassed, _) =>
      p.InstancePass? && Knows(h, p, name, a) && (bypassed || Cleared(h, p, a, r)) && Defaulted(r, a) == a
    case _ => true
  }

  predicate Allowed(h: History, e: Event) {
    Possible(h, e) && Justified(h, e)
  }

  predicate Legal(h: History) {
    h == [] || (Legal(h[..|h| - 1]) && Allowed(h[..|h| - 1], h[|h| - 1]))
  }

  lemma {:induction false} LegalStep(h: History, e: Event)
    requires Legal(h) && Allowed(h, e)
    ensures Legal(h + [e])
    ensures After(h + [e]) == Next(After(h), |h|, e)
  {
  }

  lemma {:induction false} LegalAt(h: History, n: nat)
    requires Legal(h) && n <= |h|
    ensures Legal(h[..n])
    ensures n < |h| ==> Allowed(h[..n], h[n])
    decreases |h|
  {
    if n == |h| {
      assert h[..n] == h;
    } else {
      var front := h[..|h| - 1];
      LegalAt(front, n);
      assert front[..n] == h[..n];
    }
  }

  // ---------- Versions identify objects ----------

  /** A stored config map was written at the position that is its version. */
  lemma {:induction false} ConfigMapOrigin(h: History, m: nat)
    requires m <= |h| && After(h[..m]).configMap.Some?
    ensures var c := After(h[..m]).configMap.value;
            c.version < m && h[c.version].ConfigMapWritten? && h[c.version].owner == c.owner &&
                h[c.version].data == c.data
  {
    assert m > 0;
    var front := h[..m - 1];
    assert h[..m][..m - 1] == front;
    if !h[m - 1].ConfigMapWritten? {
      ConfigMapOrigin(h, m - 1);
    }
  }

  lemma {:induction false} SeenConfigMapOrigin(h: History, n: nat)
    requires Legal(h) && n < |h| && h[n].ConfigMapSeen?
    ensures var c := h[n].configMap;
            c.version < n && h[c.version].ConfigMapWritten? && h[c.version].owner == c.owner &&
                h[c.version].data == c.data
  {
    LegalAt(h, n);
    var m :| 0 <= m <= n && After(h[..n][..m]).configMap == Some(h[n].configMap);
    assert h[..n][..m] == h[..m];
    ConfigMapOrigin(h, m);
  }

  /** Two passes that read the same version read the same requirements. */
  lemma {:induction false} SameVersionSameConfigMap(h: History, i: nat, j: nat)
    requires Legal(h) && i < |h| && j < |h| && h[i].ConfigMapSeen? && h[j].ConfigMapSeen?
    requires h[i].configMap.version == h[j].configMap.version
    ensures h[i].configMap == h[j].configMap
  {
    SeenConfigMapOrigin(h, i);
    SeenConfigMapOrigin(h, j);
  }

  /** An event gives an APIManager the position as its version, or leaves it alone. */
  lemma {:induction false} NextInstance(h: History, e: Event, name: string)
    requires Possible(h, e)
    ensures var w, w' := After(h), Next(After(h), |h|, e);
            name in w'.apiManagers ==>
              || w'.apiManagers[name].version == |h|
              || (name in w.apiManagers && w'.apiManagers[name] == w.apiManagers[name])
  {
  }

  lemma {:induction false} AfterStep(h: History, m: nat, name: string)
    requires Legal(h) && m < |h|
    ensures After(h[..m + 1]) == Next(After(h[..m]), m, h[m])
    ensures var w, w' := After(h[..m]), After(h[..m + 1]);
            name in w'.apiManagers ==>
              || w'.apiManagers[name].version == m
              || (name in w.apiManagers && w'.apiManagers[name] == w.apiManagers[name])
  {
    hide Next, Justified, Possible;
    LegalAt(h, m);
    LegalStep(h[..m], h[m]);
    assert h[..m] + [h[m]] == h[..m + 1];
    NextInstance(h[..m], h[m], name);
  }

  lemma {:induction false} VersionsPast(h: History, m: nat, name: string)
    requires Legal(h) && m <= |h| && name in After(h[..m]).apiManagers
    ensures After(h[..m]).apiManagers[name].version < m
  {
    if m > 0 {
      AfterStep(h, m - 1, name);
      hide Next, After, Legal;
      if After(h[..m]).apiManagers[name].version != m - 1 {
        VersionsPast(h, m - 1, name);
      }
    }
  }

  /** An APIManager that has kept its version has not changed. */
  lemma {:induction false} SameVersionSameInstance(h: History, a: nat, b: nat, name: string)
    requires Legal(h) && a <= b <= |h|
    requires name in After(h[..a]).apiManagers && Stored(After(h[..b]), name, After(h[..a]).apiManagers[name].version)
    ensures After(h[..b]).apiManagers[name] == After(h[..a]).apiManagers[name]
    decreases b
  {
    hide Next, After, Legal;
    if a < b {
      AfterStep(h, b - 1, name);
      VersionsPast(h, a, name);
      SameVersionSameInstance(h, a, b - 1, name);
    }
  }

  // ---------- Where confirmations come from ----------

  lemma {:induction false} KnownInstance(h: History, n: nat, p: Pass, name: string, a: APIManager)
    requires Legal(h) && n <= |h| && Knows(h[..n], p, name, a)
    ensures exists j :: 0 <= j <= n && name in After(h[..j]).apiManagers && After(h[..j]).apiManagers[name] == a
  {
    hide After, Next, Legal;
    if InstanceSeen(p, name, a) in h[..n] {
      var i :| 0 <= i < n && h[i] == InstanceSeen(p, name, a);
      LegalAt(h, i);
      var j :| 0 <= j <= i && name in After(h[..i][..j]).apiManagers && After(h[..i][..j]).apiManagers[name] == a;
      assert h[..i][..j] == h[..j];
    } else {
      var i :| 0 <= i < n && h[i] == StatusWritten(p, name, a);
      AfterStep(h, i, name);
      assert After(h[..i + 1]).apiManagers[name] == a by { StatusResult(After(h[..i]), i, h[i]); }
    }
  }

  lemma {:induction false} StatusResult(w: World, n: nat, e: Event)
    requires e.StatusWritten?
    ensures Next(w, n, e).apiManagers == w.apiManagers[e.name := e.instance]
  {
  }

  ghost predicate ConfirmedBy(h: History, k: nat, name: string, version: nat)
    requires k < |h|
  {
    h[k].Confirmed? && h[k].name == name && h[k].configMap.version == version
  }

  /** What an event makes of the confirmation of an APIManager. */
  lemma {:induction false} ConfirmationStep(w: World, n: nat, e: Event, name: string)
    requires name in Next(w, n, e).apiManagers
    ensures var a := Next(w, n, e).apiManagers[name];
            || a.confirmed == None
            || (name in w.apiManagers && a.confirmed == w.apiManagers[name].confirmed)
            || (e.Confirmed? && e.name == name && a.confirmed == Some(e.configMap.version))
            || (e.StatusWritten? && e.name == name && a == e.instance)
            || (e.DefaultsWritten? && e.name == name && a.confirmed == e.instance.confirmed)
  {
  }

  /** Every confirmation on an APIManager was put there by a preflight pass. */
  lemma {:induction false} ConfirmationOrigin(h: History, m: nat, name: string, v: nat)
    requires Legal(h) && m <= |h|
    requires name in After(h[..m]).apiManagers && After(h[..m]).apiManagers[name].confirmed == Some(v)
    ensures exists k :: 0 <= k < m && ConfirmedBy(h, k, name, v)
  {
    if m > 0 {
      var e := h[m - 1];
      AfterStep(h, m - 1, name);
      LegalAt(h, m - 1);
      ConfirmationStep(After(h[..m - 1]), m - 1, e, name);
      hide Next, After, Legal, Knows;
      if e.Confirmed? && e.name == name && e.configMap.version == v {
        assert ConfirmedBy(h, m - 1, name, v);
      } else if e.DefaultsWritten? && e.name == name && e.instance.confirmed == Some(v) {
        KnownInstance(h, m - 1, e.pass, name, e.instance);
        var j :| 0 <= j <= m - 1 && name in After(h[..j]).apiManagers && After(h[..j]).apiManagers[name] == e.instance;
        ConfirmationOrigin(h, j, name, v);
      } else {
        ConfirmationOrigin(h, m - 1, name, v);
      }
    }
  }

  /** At position k a preflight pass that had read config map c, and had checked the databases, confirmed it. */
  ghost predicate PreflightConfirmed(h: History, k: nat, name: string, c: ConfigMap)
    requires k < |h|
  {
    && h[k].Confirmed? && h[k].name == name && h[k].configMap == c
    && ConfigMapSeen(h[k].pass, c) in h[..k]
    && Backed(h[..k], h[k].pass, name, c.data, h[k].verified)
    && Judge(h[k].running, h[k].instance, c.data, h[k].verified) == Confirm
  }

  /** A confirmation of a version a pass has read is a confirmation of exactly the requirements it read. */
  lemma {:induction false} ConfirmationCovers(h: History, n: nat, m: nat, name: string, p: Pass, c: ConfigMap)
    requires Legal(h) && m <= n <= |h| && ConfigMapSeen(p, c) in h[..n]
    requires name in After(h[..m]).apiManagers && After(h[..m]).apiManagers[name].confirmed == Some(c.version)
    ensures exists k :: 0 <= k < m && PreflightConfirmed(h, k, name, c)
  {
    ConfirmationOrigin(h, m, name, c.version);
    var k :| 0 <= k < m && ConfirmedBy(h, k, name, c.version);
    LegalAt(h, k);
    var i :| 0 <= i < n && h[i] == ConfigMapSeen(p, c);
    var j :| 0 <= j < k && h[j] == ConfigMapSeen(h[k].pass, h[k].configMap);
    SameVersionSameConfigMap(h, i, j);
    assert PreflightConfirmed(h, k, name, c);
  }

  // ---------- The upgrade gate ----------

  /** Requirements have been published at some time, under this owner if one is given. */
  ghost predicate Published(h: History, owner: Option<string>, data: Requirements) {
    exists v :: 0 <= v < |h| && h[v].ConfigMapWritten? && h[v].data == data &&
                (owner.Some? ==> h[v].owner == owner.value)
  }

  /** Pass p rewrote an operator condition, having found all APIManagers confirmed or not. */
  ghost predicate RuledIn(h: History, p: Pass, confirmed: bool) {
    exists i :: 0 <= i < |h| && h[i].ConditionWritten? && h[i].pass == p &&
                AllConfirmed(h[i].listed, h[i].configMap.version) == confirmed
  }

  ghost predicate Overrides(e: Event) {
    e.ConditionWritten? && "True" in Rewritten(e).overrides
  }

  /**
   In every interleaving, an upgrade is let through only by a pass that saw more than one operator condition, one of
   them holding the upgrade back, and at least one APIManager, all of them annotated with the version of the config map
   it had read; and each annotation stems from a preflight pass that had read the very same requirements.
   */
  lemma {:induction false} OverrideAuthorised(h: History, n: nat)
    requires Legal(h) && n < |h| && Overrides(h[n])
    ensures var e := h[n];
            && |e.conditions| > 1 && Blocks(e.conditions, e.base.name) &&
                ConditionsListed(e.pass, e.conditions) in h[..n]
            && e.listed != map[] && APIManagersListed(e.pass, e.listed) in h[..n]
            && ConfigMapSeen(e.pass, e.configMap) in h[..n]
            && forall name :: name in e.listed ==>
                                && e.listed[name].confirmed == Some(e.configMap.version)
                                && exists k :: 0 <= k < n && PreflightConfirmed(h, k, name, e.configMap)
  {
    var e := h[n];
    LegalAt(h, n);
    var i :| 0 <= i < n && h[i] == APIManagersListed(e.pass, e.listed);
    LegalAt(h, i);
    var m :| 0 <= m <= i && After(h[..i][..m]).apiManagers == e.listed;
    assert h[..i][..m] == h[..m];
    forall name | name in e.listed
      ensures exists k :: 0 <= k < n && PreflightConfirmed(h, k, name, e.configMap)
    {
      ConfirmationCovers(h, n, m, name, e.pass, e.configMap);
    }
  }

  /** The condition c holds its upgrade back, and nothing overrides it. */
  predicate HoldsBack(c: OperatorCondition) {
    "False" in c.conditions && c.overrides == []
  }

  /**
   A ruling overrides exactly if it was made with a choice of conditions and all APIManagers confirmed. After every
   other ruling the condition ruled on holds the upgrade back. No other condition changes.
   */
  lemma {:induction false} RulingStored(h: History, n: nat)
    requires Legal(h) && n < |h| && h[n].ConditionWritten?
    ensures Overrides(h[n]) <==>
            |h[n].conditions| > 1 && forall name :: name in h[n].listed ==>
                                                      h[n].listed[name].confirmed == Some(h[n].configMap.version)
    ensures var e, before, after := h[n], After(h[..n]).conditions, After(h[..n + 1]).conditions;
            && |after| == |before|
            && (exists i :: 0 <= i < |after| && after[i].name == e.base.name)
            && (!Overrides(e) ==> Blocks(after, e.base.name))
            && forall i :: 0 <= i < |after| ==>
                             if before[i].name != e.base.name then after[i] == before[i]
                             else if Overrides(e) then
                               after[i] == OperatorCondition(e.base.name, n, e.base.conditions, ["True"])
                             else after[i].name == e.base.name && HoldsBack(after[i])
  {
    hide After, Legal, Next, Justified;
    LegalAt(h, n);
    LegalStep(h[..n], h[n]);
    assert h[..n] + [h[n]] == h[..n + 1];
    RulingResult(After(h[..n]), n, h[n]);
    RulingMatches(h[..n], h[n]);
  }

  /** The condition ruled on exists. */
  lemma {:induction false} RulingMatches(h: History, e: Event)
    requires Possible(h, e) && e.ConditionWritten?
    ensures exists i :: 0 <= i < |After(h).conditions| && After(h).conditions[i].name == e.base.name
  {
  }

  lemma {:induction false} RulingResult(w: World, n: nat, e: Event)
    requires e.ConditionWritten?
    ensures var before, after := w.conditions, Next(w, n, e).conditions;
            && |after| == |before|
            && forall i :: 0 <= i < |after| ==>
                             if before[i].name != e.base.name then after[i] == before[i]
                             else if Overrides(e) then
                               after[i] == OperatorCondition(e.base.name, n, e.base.conditions, ["True"])
                             else after[i].name == e.base.name && HoldsBack(after[i])
  {
  }

  /** While a pass is between its read of the config map and its ruling, nobody publishes other requirements. */
  lemma {:induction false} NothingPublishedMeanwhile(h: History, i: nat, k: nat, n: nat)
    requires Legal(h) && i < k < n < |h|
    requires h[i].ConfigMapSeen? && h[n].ConditionWritten? && h[i].pass == h[n].pass
    ensures !h[k].ConfigMapWritten?
  {
    LegalAt(h, n);
    LegalAt(h, k);
    assert BySubscription(h[..k][i]) && h[..n][k] == h[k];
  }

  /** If the config map read was the stored one, it still is when the ruling is written, or it has been collected. */
  lemma {:induction false} RuledOnCurrentConfigMap(h: History, i: nat, m: nat, n: nat)
    requires Legal(h) && i <= m <= n < |h|
    requires h[i].ConfigMapSeen? && h[n].ConditionWritten? && h[i].pass == h[n].pass
    requires After(h[..i]).configMap == Some(h[i].configMap)
    ensures After(h[..m]).configMap == None || After(h[..m]).configMap == Some(h[i].configMap)
    decreases m
  {
    if i < m {
      RuledOnCurrentConfigMap(h, i, m - 1, n);
      assert h[..m][..m - 1] == h[..m - 1];
      if i < m - 1 { NothingPublishedMeanwhile(h, i, m - 1, n); }
    }
  }

  ghost predicate TouchesComponents(e: Event) {
    (e.DefaultsWritten? || e.ComponentsReconciled?) && !e.bypassed
  }

  /**
   A pass that does not bypass the preflights goes on to defaults and components only if the release, where one is
   installed, is at most one minor version away, the three databases are external, and the requirements it read are
   confirmed or the instance is already at the release of the operator.
   */
  lemma {:induction false} GateHolds(h: History, n: nat)
    requires Legal(h) && n < |h| && TouchesComponents(h[n])
    ensures var e := h[n];
            && MultiMinorHop(e.running, e.instance) == Some(false) && DatabasesExternal(e.instance.spec)
            && (forall i: nat, j: nat :: HasMinor(Installed(e.instance), i) && HasMinor(e.running.threescale, j) ==>
                                 i <= j + 1 && j <= i + 1)
            && (|| Installed(e.instance) == e.running.threescale
                || exists k, c :: 0 <= k < n && ConfigMapSeen(e.pass, c) in h[..n] &&
                    PreflightConfirmed(h, k, e.name, c))
  {
    var e := h[n];
    LegalAt(h, n);
    var i :| 0 <= i < n && h[i].ConfigMapSeen? && h[i].pass == e.pass
             && MayProceed(e.running, e.instance, h[i].configMap.version);
    var c := h[i].configMap;
    HopCompared(e.running, e.instance);
    if Installed(e.instance) != e.running.threescale {
      assert ConfigMapSeen(e.pass, c) in h[..n] by { assert h[..n][i] == h[i]; }
      KnownInstance(h, n, e.pass, e.name, e.instance);
      var j :| 0 <= j <= n && e.name in After(h[..j]).apiManagers && After(h[..j]).apiManagers[e.name] == e.instance;
      ConfirmationCovers(h, n, j, e.name, e.pass, c);
    }
  }

  /**
   No step of an operator moves the version annotation of an APIManager to a new release before the requirements were
   confirmed for it: the stored object still is the one the pass judged.
   */
  lemma {:induction false} ReleaseMovesAfterConfirmation(h: History, n: nat, name: string)
    requires Legal(h) && n < |h| && !h[n].APIManagerEdited? && !(h[n].DefaultsWritten? && h[n].bypassed)
    requires name in After(h[..n]).apiManagers && name in After(h[..n + 1]).apiManagers
    requires var before, after := After(h[..n]).apiManagers[name], After(h[..n + 1]).apiManagers[name];
             Installed(before) != Installed(after)
    ensures h[n].DefaultsWritten? && h[n].name == name && h[n].instance == After(h[..n]).apiManagers[name]
    ensures Installed(After(h[..n + 1]).apiManagers[name]) == h[n].running.threescale
    ensures exists k, c :: 0 <= k < n && ConfigMapSeen(h[n].pass, c) in h[..n] && PreflightConfirmed(h, k, name, c)
  {
    var e := h[n];
    AfterStep(h, n, name);
    LegalAt(h, n);
    assert e.Confirmed? || e.DefaultsWritten?;
    KnownInstance(h, n, e.pass, e.name, e.instance);
    var j :| 0 <= j <= n && e.name in After(h[..j]).apiManagers && After(h[..j]).apiManagers[e.name] == e.instance;
    SameVersionSameInstance(h, j, n, name);
    GateHolds(h, n);
  }

  // ---------- The gate does open ----------

  const HOLDING := OperatorCondition("old", 0, ["False"], [])
  const CONDITIONS := [HOLDING, OperatorCondition("new", 0, [], [])]
  const EXTERNAL := Spec(Some(ExternalComponents(true, true, true, false)), None, true)
  const PUBLISHED := ConfigMap(2, "", Requirements("2.16", "", "", "", ""))
  const INSTANCE := APIManager(1, None, None, None, EXTERNAL)
  const READY: APIManager := INSTANCE.(version := 5, confirmed := Some(2))

  /** One more event of a known history. */
  lemma {:induction false} Then(h: History, e: Event, w: World) returns (h': History)
    requires Legal(h) && Allowed(h, e) && Next(After(h), |h|, e) == w
    ensures h' == h + [e] && Legal(h') && After(h') == w
  {
    h' := h + [e];
    LegalStep(h, e);
  }

  /** A read of the present state goes into the history and changes nothing. */
  lemma {:induction false} ThenRead(h: History, e: Event) returns (h': History)
    requires Legal(h) && UpTo(h, 0)
    requires e.ConfigMapSeen? || e.APIManagersListed? || e.ConditionsListed? || e.InstanceSeen?
    requires e.InstanceSeen? ==> e.pass.InstancePass?
    requires e.APIManagersListed? || e.ConditionsListed? ==> e.pass.SubscriptionPass?
    requires e.pass.SubscriptionPass? ==> e.pass.id == 0
    requires match e
             case ConfigMapSeen(_, c) => After(h).configMap == Some(c)
             case APIManagersListed(_, listed) => After(h).apiManagers == listed
             case ConditionsListed(_, conditions) => After(h).conditions == conditions
             case InstanceSeen(_, name, a) => name in After(h).apiManagers && After(h).apiManagers[name] == a
    ensures h' == h + [e] && Legal(h') && UpTo(h', 0) && After(h') == After(h)
  {
    assert Possible(h, e) by { assert h[..|h|] == h; }
    h' := h + [e];
    LegalStep(h, e);
  }

  lemma {:induction false} RequirementsPublished() returns (h: History)
    ensures Legal(h) && UpTo(h, 0) && |h| == 3
    ensures After(h) == World(Some(PUBLISHED), map["a" := INSTANCE], CONDITIONS)
  {
    h := Then([], ConditionsChanged(CONDITIONS), World(None, map[], CONDITIONS));
    h := Then(h, APIManagerCreated("a", None, EXTERNAL), World(None, map["a" := INSTANCE], CONDITIONS));
    h := Then(h, ConfigMapWritten(SubscriptionPass(0), None, "", PUBLISHED.data),
              World(Some(PUBLISHED), map["a" := INSTANCE], CONDITIONS));
  }

  lemma {:induction false} RequirementsConfirmed(h0: History) returns (h: History)
    requires Legal(h0) && UpTo(h0, 0) && |h0| == 3
    requires After(h0) == World(Some(PUBLISHED), map["a" := INSTANCE], CONDITIONS)
    ensures Legal(h) && UpTo(h, 0) && After(h) == World(Some(PUBLISHED), map["a" := READY], CONDITIONS)
  {
    hide After, Legal;
    var q := InstancePass(0);
    var h1 := ThenRead(h0, InstanceSeen(q, "a", INSTANCE));
    var h2 := ThenRead(h1, ConfigMapSeen(q, PUBLISHED));
    assert forall d: Database :: !Stated(PUBLISHED.data, d);
    var e := Confirmed(q, "a", INSTANCE, PUBLISHED, Release("0.13.0", "2.15.0"), Verified(true, true, true));
    assert h2[3] == InstanceSeen(q, "a", INSTANCE) && h2[4] == ConfigMapSeen(q, PUBLISHED);
    h := Then(h2, e, World(Some(PUBLISHED), map["a" := READY], CONDITIONS));
  }

  lemma {:induction false} UpgradeLetThrough(h: History, listed: APIManagers) returns (h': History)
    requires Legal(h) && UpTo(h, 0) && After(h).conditions == CONDITIONS && |listed| > 0
    requires AllConfirmed(listed, PUBLISHED.version)
    requires ConfigMapSeen(SubscriptionPass(0), PUBLISHED) in h && APIManagersListed(SubscriptionPass(0), listed) in h
    requires ConditionsListed(SubscriptionPass(0), CONDITIONS) in h
    ensures h' != [] && Legal(h') && Overrides(h'[|h'| - 1])
  {
    hide Next, After, Legal, UpTo;
    var e := ConditionWritten(SubscriptionPass(0), PUBLISHED, listed, CONDITIONS, HOLDING);
    assert CONDITIONS[0] == HOLDING;
    assert Blocks(CONDITIONS, "old");
    h' := Then(h, e, Next(After(h), |h|, e));
  }

  /** There are histories in which an upgrade is let through. */
  lemma {:induction false} GateOpens() returns (h: History)
    ensures h != [] && Legal(h) && Overrides(h[|h| - 1])
  {
    hide After, Legal, Next, UpTo, Possible, Justified, Overrides;
    var p, listed := SubscriptionPass(0), map["a" := READY];
    var h0 := RequirementsPublished();
    var h1 := RequirementsConfirmed(h0);
    var h2 := ThenRead(h1, ConfigMapSeen(p, PUBLISHED));
    var h3 := ThenRead(h2, APIManagersListed(p, listed));
    var h4 := ThenRead(h3, ConditionsListed(p, CONDITIONS));
    assert h4 == h1 + [ConfigMapSeen(p, PUBLISHED), APIManagersListed(p, listed), ConditionsListed(p, CONDITIONS)];
    h := UpgradeLetThrough(h4, listed);
  }
}
