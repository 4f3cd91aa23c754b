/** The subscription controller: it publishes the requirements of the incoming release and rules on the upgrade. */
module Subscription {
  import opened Options
  import opened Preflights
  import opened UpgradeGate
  import opened UpgradeStore

  datatype Outcome = Finished | Requeue | RequeueAfter | Error | Fault

  datatype SubscriptionObject = SubscriptionObject(namespace: string, package: string, uid: string)

  /** The annotations of the cluster service version, and the labels of its deployments. */
  datatype CSV = CSV(annotations: map<string, string>, deploymentLabels: seq<map<string, string>>)

  const MYSQL := "rht_mysql_requirements"
  const POSTGRES := "rht_postgres_requirements"
  const SYSTEM_REDIS := "rht_system_redis_requirements"
  const BACKEND_REDIS := "rht_backend_redis_requirements"
  const COMPONENT_VERSION := "rht.comp_ver"

  predicate OccursAt(s: string, t: string, i: nat) {
    i + |t| <= |s| && s[i..i + |t|] == t
  }

  predicate Contains(s: string, t: string) {
    exists i :: 0 <= i <= |s| && OccursAt(s, t, i)
  }

  function Lookup(m: map<string, string>, key: string, otherwise: string): string {
    if key in m then m[key] else otherwise
  }

  /** The requirements that annotations leave behind; what they do not mention keeps its last value. */
  function Annotated(annotations: map<string, string>, last: Requirements): Requirements {
    Requirements(last.version,
                 Lookup(annotations, MYSQL, last.mysql),
                 Lookup(annotations, POSTGRES, last.postgres),
                 Lookup(annotations, SYSTEM_REDIS, last.systemRedis),
                 Lookup(annotations, BACKEND_REDIS, last.backendRedis))
  }

  /** The requirements a service version leaves behind. */
  function Mentioned(csv: CSV, last: Requirements): Requirements
    requires csv.deploymentLabels != []
  {
    Annotated(csv.annotations, last).(version := Lookup(csv.deploymentLabels[0], COMPONENT_VERSION, last.version))
  }

  /** Nothing published depends on earlier service versions exactly when all five values are mentioned. */
  lemma {:induction false} NoLeftovers(csv: CSV)
    requires csv.deploymentLabels != []
    ensures (forall a, b :: Mentioned(csv, a) == Mentioned(csv, b)) <==>
            && COMPONENT_VERSION in csv.deploymentLabels[0]
            && MYSQL in csv.annotations && POSTGRES in csv.annotations
            && SYSTEM_REDIS in csv.annotations && BACKEND_REDIS in csv.annotations
  {
    var a, b := Requirements("", "", "", "", ""), Requirements("-", "-", "-", "-", "-");
    if Mentioned(csv, a) == Mentioned(csv, b) {
      assert forall key :: Lookup(csv.annotations, key, "") == Lookup(csv.annotations, key, "-") ==>
             key in csv.annotations;
    }
  }

  /** Some listed condition holds the upgrade back. */
  ghost predicate SomeBlocks(conditions: seq<OperatorCondition>) {
    exists name :: Blocks(conditions, name)
  }

  /** What the conditions call for when all goes well: a fault, an error, or a ruling. */
  ghost function Ruling(listed: APIManagers, version: nat, conditions: seq<OperatorCondition>): Outcome {
    if conditions == [] then Fault
    else if |conditions| > 1 && !SomeBlocks(conditions) then Error
    else if forall name :: name in listed ==> listed[name].confirmed == Some(version) then Finished
    else RequeueAfter
  }

  /** The owner of the config map: the given one, or the one it has. */
  function OwnerOf(owner: Option<string>, configMap: Option<ConfigMap>): string {
    if owner.Some? then owner.value else if configMap.Some? then configMap.value.owner else ""
  }

  /** The config map is there but differs from what has to be published. */
  predicate Outdated(owner: Option<string>, configMap: Option<ConfigMap>, data: Requirements) {
    configMap.Some? && (configMap.value.owner != OwnerOf(owner, configMap) || configMap.value.data != data)
  }

  lemma {:induction false} NothingListedBefore(h: History, id: nat)
    requires Before(h, id)
    ensures NoEmptyList(h, SubscriptionPass(id))
  {
    forall i | 0 <= i < |h| ensures h[i] != ConditionsListed(SubscriptionPass(id), []) {
      assert BySubscription(h[i]) ==> h[i].pass.id < id;
    }
  }

  class SubscriptionReconciler {
    const store: Store
    const operatorNamespace: string
    const inCluster: bool
    /** The requirements last read; they outlive a pass. */
    var requirements: Requirements

    constructor (store: Store, operatorNamespace: string, inCluster: bool)
      ensures this.store == store && this.operatorNamespace == operatorNamespace && this.inCluster == inCluster
      ensures requirements == Requirements("", "", "", "", "")
    {
      this.store, this.operatorNamespace, this.inCluster := store, operatorNamespace, inCluster;
      requirements := Requirements("", "", "", "", "");
    }

    predicate ShouldReconcile(subscription: SubscriptionObject) {
      subscription.namespace == operatorNamespace && Contains(subscription.package, "3scale")
    }

    /**
     When all goes well the requirements are published as they should be. A pass that had to update them asks to come
     back without ruling, as does one that finds no APIManager; otherwise the outcome is what the conditions call for.
     */
    ghost predicate SmoothPass(owner: Option<string>, before: UpgradeGate.World, outcome: Outcome)
      reads this, store
    {
      && store.World().configMap.Some? && store.World().configMap.value.data == requirements
      && store.World().configMap.value.owner == OwnerOf(owner, before.configMap)
      && store.World().apiManagers == before.apiManagers
      && if Outdated(owner, before.configMap, requirements) || before.apiManagers == map[] then
           outcome.Requeue? && store.World().conditions == before.conditions
         else outcome == Ruling(before.apiManagers, store.World().configMap.value.version, before.conditions)
    }

    /** One pass: the subscription and the service version its install plan leads to, if they could be read. */
    method Reconcile(id: nat, subscription: Answer<SubscriptionObject>, csv: Answer<CSV>) returns (outcome: Outcome)
      requires Legal(store.history) && Before(store.history, id)
      modifies this, store
      ensures store.At(SubscriptionPass(id)) && old(store.history) <= store.history
      ensures subscription.Found? && !ShouldReconcile(subscription.value) ==> store.history == old(store.history)
      ensures subscription.Found? && ShouldReconcile(subscription.value) && csv.Found? ==>
                if csv.value.deploymentLabels == []
                then outcome.Fault? && requirements == Annotated(csv.value.annotations, old(requirements))
                else requirements == Mentioned(csv.value, old(requirements))
      ensures outcome.Fault? <==>
                || (subscription.Found? && ShouldReconcile(subscription.value) && csv.Found? &&
                    csv.value.deploymentLabels == [])
                || ConditionsListed(SubscriptionPass(id), []) in store.history
      ensures outcome.RequeueAfter? ==> RuledIn(store.history, SubscriptionPass(id), false)
      ensures outcome.Finished? && subscription.Found? && ShouldReconcile(subscription.value) ==>
                && RuledIn(store.history, SubscriptionPass(id), true)
                && Published(store.history, if inCluster then Some(subscription.value.uid) else None, requirements)
      ensures store.smooth && subscription.Found? && ShouldReconcile(subscription.value) && csv.Found? &&
              csv.value.deploymentLabels != [] ==>
                var owner := if inCluster then Some(subscription.value.uid) else None;
                SmoothPass(owner, old(store.World()), outcome)
    {
      hide Ruling;
      NothingListedBefore(store.history, id);
      if subscription.Failed? { return Error; }
      if subscription.NotFound? || !ShouldReconcile(subscription.value) { return Finished; }
      if !csv.Found? { return Error; }
      if csv.value.deploymentLabels == [] {
        ReadAnnotations(csv.value.annotations);
        return Fault;
      }
      ReadAnnotations(csv.value.annotations);
      if COMPONENT_VERSION in csv.value.deploymentLabels[0] {
        requirements := requirements.(version := csv.value.deploymentLabels[0][COMPONENT_VERSION]);
      }
      var updated, err := Publish(id, if inCluster then Some(subscription.value.uid) else None);
      if err { return Error; }
      if updated { return Requeue; }
      ghost var before := store.history;
      outcome := ReconcileOperatorConditions(id);
      assert forall i :: 0 <= i < |before| ==> store.history[i] == before[i];
    }

    method ReadAnnotations(annotations: map<string, string>)
      modifies this
      ensures requirements == Annotated(annotations, old(requirements))
    {
      if BACKEND_REDIS in annotations { requirements := requirements.(backendRedis := annotations[BACKEND_REDIS]); }
      if SYSTEM_REDIS in annotations { requirements := requirements.(systemRedis := annotations[SYSTEM_REDIS]); }
      if MYSQL in annotations { requirements := requirements.(mysql := annotations[MYSQL]); }
      if POSTGRES in annotations { requirements := requirements.(postgres := annotations[POSTGRES]); }
    }

    /** Creates the config map, or updates it where it differs; only an update is reported. */
    method Publish(id: nat, owner: Option<string>) returns (updated: bool, err: bool)
      requires store.At(SubscriptionPass(id)) && Before(store.history, id)
      modifies store
      ensures store.At(SubscriptionPass(id)) && old(store.history) <= store.history
      ensures !err ==> Published(store.history, owner, requirements)
      ensures updated ==>
                exists v, o :: ConfigMapWritten(SubscriptionPass(id), Some(v), o, requirements) in store.history
      ensures NoEmptyList(old(store.history), SubscriptionPass(id)) ==> NoEmptyList(store.history, SubscriptionPass(id))
      ensures store.smooth ==> !err && (updated <==> Outdated(owner, old(store.World()).configMap, requirements))
      ensures store.smooth ==>
                && store.World() == old(store.World()).(configMap := store.World().configMap)
                && store.World().configMap.Some? && store.World().configMap.value.data == requirements
                && store.World().configMap.value.owner == OwnerOf(owner, old(store.World()).configMap)
    {
      hide Legal, After, Before, Running, Next;
      var p := SubscriptionPass(id);
      var answer := store.PeekConfigMap(p);
      if answer.Failed? { return false, true; }
      if answer.NotFound? {
        var newOwner := if owner.Some? then owner.value else "";
        var r := store.WriteConfigMap(p, None, newOwner, requirements);
        return false, !r.Done?;
      }
      var newOwner := if owner.Some? then owner.value else answer.value.owner;
      if answer.value.owner == newOwner && answer.value.data == requirements { return false, false; }
      var r := store.WriteConfigMap(p, Some(answer.value.version), newOwner, requirements);
      return r.Done?, !r.Done?;
    }

    method ReconcileOperatorConditions(id: nat) returns (outcome: Outcome)
      requires store.At(SubscriptionPass(id))
      modifies store
      ensures store.At(SubscriptionPass(id)) && old(store.history) <= store.history
      ensures outcome.Finished? ==> RuledIn(store.history, SubscriptionPass(id), true)
      ensures outcome.RequeueAfter? ==> RuledIn(store.history, SubscriptionPass(id), false)
      ensures outcome.Requeue? ==> APIManagersListed(SubscriptionPass(id), map[]) in store.history
      ensures NoEmptyList(old(store.history), SubscriptionPass(id)) ==>
                (outcome.Fault? <==> ConditionsListed(SubscriptionPass(id), []) in store.history)
      ensures store.smooth && old(store.World()).configMap.Some? ==>
                && store.World().configMap == old(store.World()).configMap
                && store.World().apiManagers == old(store.World()).apiManagers
                && if store.World().apiManagers == map[] then
                     outcome.Requeue? && store.World().conditions == old(store.World()).conditions
                   else outcome == Ruling(old(store.World()).apiManagers, old(store.World()).configMap.value.version,
                                          old(store.World()).conditions)
    {
      hide Legal, After, Running, Next, Ruling;
      var p := SubscriptionPass(id);
      var answer := store.GetConfigMap(p);
      if !answer.Found? { return Error; }
      var configMap := answer.value;
      var ok, listed := store.ListAPIManagers(p);
      if !ok { return Error; }
      if |listed| == 0 { return Requeue; }
      var known, conditions := store.ListConditions(p);
      if !known { return Error; }
      outcome := Rule(p, configMap, listed, conditions);
    }

    /** Rewrites the operator condition that decides about the upgrade. */
    method Rule(p: Pass, configMap: ConfigMap, listed: APIManagers, conditions: seq<OperatorCondition>)
      returns (outcome: Outcome)
      requires store.At(p) && p.SubscriptionPass? && |listed| > 0
      requires ConfigMapSeen(p, configMap) in store.history && APIManagersListed(p, listed) in store.history
      requires ConditionsListed(p, conditions) in store.history
      modifies store
      ensures store.At(p) && old(store.history) <= store.history
      ensures outcome.Fault? <==> conditions == []
      ensures outcome.Finished? ==> AllConfirmed(listed, configMap.version) && RuledIn(store.history, p, true)
      ensures outcome.RequeueAfter? ==> !AllConfirmed(listed, configMap.version) && RuledIn(store.history, p, false)
      ensures !outcome.Requeue?
      ensures store.smooth && conditions == old(store.World()).conditions ==>
                && outcome == Ruling(listed, configMap.version, conditions)
                && store.World().configMap == old(store.World()).configMap
                && store.World().apiManagers == old(store.World()).apiManagers
      ensures NoEmptyList(old(store.history), p) ==> NoEmptyList(store.history, p)
    {
      hide Legal, After, Blocks;
      var confirmed := AreConfirmed(listed, configMap.version);
      var base: OperatorCondition;
      if |conditions| > 1 {
        var ok: bool;
        ok, base := FindBlocking(p, conditions);
        if !ok { return Error; }
      } else {
        if conditions == [] { return Fault; }
        base := conditions[0];
        assert conditions == [base];
      }
      var r := store.UpdateCondition(p, configMap, listed, conditions, base);
      if !r.Done? { return Error; }
      ghost var i :| 0 <= i < |store.history| && store.history[i] == ConditionWritten(p, configMap, listed,
                conditions, base);
      return if confirmed then Finished else RequeueAfter;
    }

    method AreConfirmed(listed: APIManagers, version: nat) returns (confirmed: bool)
      ensures confirmed == AllConfirmed(listed, version)
    {
      confirmed := true;
      var rest := listed.Keys;
      while rest != {}
        invariant rest <= listed.Keys
        invariant confirmed <==> forall name :: name in listed.Keys - rest ==> listed[name].confirmed == Some(version)
        decreases |rest|
      {
        var name :| name in rest;
        if listed[name].confirmed != Some(version) { confirmed := false; }
        rest := rest - {name};
      }
    }

    /** Reads the last listed condition that holds the upgrade back; without one the later update cannot succeed. */
    method FindBlocking(p: Pass, conditions: seq<OperatorCondition>) returns (ok: bool, found: OperatorCondition)
      requires store.At(p)
      modifies store
      ensures store.At(p) && old(store.history) <= store.history
      ensures ok ==> Blocks(conditions, found.name)
      ensures NoEmptyList(old(store.history), p) ==> NoEmptyList(store.history, p)
      ensures store.smooth ==> store.history == old(store.history)
      ensures store.smooth && conditions == store.World().conditions ==>
                (ok <==> SomeBlocks(conditions)) && (ok ==> found in store.World().conditions)
    {
      hide After, Legal, Running;
      ok, found := false, OperatorCondition("", 0, [], []);
      for i := 0 to |conditions|
        invariant store.At(p) && old(store.history) <= store.history
        invariant NoEmptyList(old(store.history), p) ==> NoEmptyList(store.history, p)
        invariant ok ==> Blocks(conditions, found.name)
        invariant store.smooth ==> store.history == old(store.history)
        invariant store.smooth && conditions == store.World().conditions && ok ==> found in conditions
        invariant !ok ==> forall k :: 0 <= k < i ==> "False" !in conditions[k].conditions
      {
        for j := 0 to |conditions[i].conditions|
          invariant store.At(p) && old(store.history) <= store.history
          invariant NoEmptyList(old(store.history), p) ==> NoEmptyList(store.history, p)
          invariant ok ==> Blocks(conditions, found.name)
          invariant store.smooth ==> store.history == old(store.history)
          invariant store.smooth && conditions == store.World().conditions && ok ==> found in conditions
          invariant !ok ==> forall k :: 0 <= k < i ==> "False" !in conditions[k].conditions
          invariant !ok ==> "False" !in conditions[i].conditions[..j]
        {
          if conditions[i].conditions[j] == "False" {
            var answer := store.GetCondition(p, conditions[i].name);
            if !answer.Found? { return false, conditions[i]; }
            ok, found := true, answer.value;
          }
        }
        assert conditions[i].conditions[..|conditions[i].conditions|] == conditions[i].conditions;
      }
    }
  }
}
