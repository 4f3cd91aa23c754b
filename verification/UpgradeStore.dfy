/**
 The API server as a pass of either controller sees it. Around every call other passes, users, the lifecycle manager
 and the garbage collector may act; other passes act as their own contracts say, which is what Legal demands of their
 events. One pass of the subscription controller runs at a time.
 */
module UpgradeStore {
  import opened Calls
  import opened Options
  import opened Preflights
  import opened UpgradeGate

  datatype Answer<T> = Found(value: T) | NotFound | Failed

  datatype Written = Done | Conflict | Lost

  /** What may happen while pass p runs. */
  predicate Foreign(p: Pass, e: Event) {
    if p.SubscriptionPass? then !BySubscription(e) else PassOf(e) != Some(p)
  }

  function PassOf(e: Event): Option<Pass> {
    match e
    case APIManagerCreated(_, _, _) => None
    case APIManagerEdited(_, _, _) => None
    case APIManagerDeleted(_) => None
    case ConfigMapCollected => None
    case ConditionsChanged(_) => None
    case _ => Some(e.pass)
  }

  predicate AllForeign(p: Pass, more: History) {
    forall i :: 0 <= i < |more| ==> Foreign(p, more[i])
  }

  /** No event of a later pass of the same controller, so pass p may act. */
  predicate Running(h: History, p: Pass) {
    p.SubscriptionPass? ==> UpTo(h, p.id)
  }

  lemma {:induction false} ForeignKeeps(h: History, more: History, p: Pass)
    requires AllForeign(p, more)
    ensures Running(h, p) ==> Running(h + more, p)
    ensures p.SubscriptionPass? && Before(h, p.id) ==> Before(h + more, p.id)
  {
  }

  /** The pass has not been shown an empty list of conditions. */
  predicate NoEmptyList(h: History, p: Pass) {
    ConditionsListed(p, []) !in h
  }

  lemma {:induction false} ForeignListsNothing(h: History, more: History, p: Pass)
    requires AllForeign(p, more) && NoEmptyList(h, p)
    ensures NoEmptyList(h + more, p)
  {
    forall i | 0 <= i < |more| ensures more[i] != ConditionsListed(p, []) {
      assert Foreign(p, more[i]);
    }
  }

  function AnswerOf<T>(value: Option<T>): Answer<T> {
    match value
    case Some(v) => Found(v)
    case None => NotFound
  }

  function VersionOf(configMap: Option<ConfigMap>): Option<nat> {
    match configMap
    case Some(c) => Some(c.version)
    case None => None
  }

  /** A read is allowed if some earlier or present world is as the answer says. */
  lemma {:induction false} ReadAllowed(p: Pass, h: History, e: Event, w: World)
    requires exists m :: 0 <= m <= |h| && After(h[..m]) == w
    requires Running(h, p) && PassOf(e) == Some(p)
    requires match e
             case ConfigMapSeen(_, c) => w.configMap == Some(c)
             case APIManagersListed(_, listed) => p.SubscriptionPass? && listed == w.apiManagers
             case InstanceSeen(_, name, a) => p.InstancePass? && name in w.apiManagers && w.apiManagers[name] == a
             case _ => false
    ensures Allowed(h, e)
    ensures forall v: World, n: nat :: Next(v, n, e) == v
  {
  }

  lemma {:induction false} ListingAllowed(p: Pass, h: History, conditions: seq<OperatorCondition>, w: World)
    requires exists m :: 0 <= m <= |h| && After(h[..m]) == w
    requires Running(h, p) && p.SubscriptionPass? && (conditions == [] || conditions == w.conditions)
    ensures Allowed(h, ConditionsListed(p, conditions))
  {
  }

  /** The pass has not confirmed anything. */
  predicate Unconfirmed(h: History, p: Pass) {
    forall i :: 0 <= i < |h| && h[i].Confirmed? ==> h[i].pass != p
  }

  class Store {
    var history: History
    /** While a pass runs nobody else acts, what is read is current, and no call fails. */
    const smooth: bool

    ghost predicate At(p: Pass)
      reads this
    {
      Legal(history) && Running(history, p)
    }

    ghost function World(): UpgradeGate.World
      reads this
    {
      After(history)
    }

    constructor (history: History, smooth: bool)
      requires Legal(history)
      ensures this.history == history && this.smooth == smooth
    {
      this.history, this.smooth := history, smooth;
    }

    /** Anything that other parties may do. */
    method Interfere(p: Pass)
      requires At(p)
      modifies this
      ensures At(p) && old(history) <= history
      ensures p.SubscriptionPass? && Before(old(history), p.id) ==> Before(history, p.id)
      ensures NoEmptyList(old(history), p) ==> NoEmptyList(history, p)
      ensures p.InstancePass? && Unconfirmed(old(history), p) ==> Unconfirmed(history, p)
      ensures smooth ==> history == old(history)
    {
      if smooth { return; }
      var more: History := *;
      if Legal(history + more) && AllForeign(p, more) {
        ForeignKeeps(history, more, p);
        if NoEmptyList(history, p) { ForeignListsNothing(history, more, p); }
        history := history + more;
      }
    }

    /** The state a cached read is answered from. */
    method Cached() returns (w: World)
      ensures exists m :: 0 <= m <= |history| && After(history[..m]) == w
      ensures smooth ==> w == World()
    {
      var m :| 0 <= m <= |history|;
      if smooth { m := |history|; }
      assert history[..|history|] == history;
      w := After(history[..m]);
    }

    method Append(p: Pass, e: Event)
      requires At(p) && Allowed(history, e) && PassOf(e) == Some(p)
      modifies this
      ensures At(p) && history == old(history) + [e]
      ensures World() == Next(old(World()), |old(history)|, e)
    {
      hide Allowed;
      LegalStep(history, e);
      assert Running(history + [e], p) by {
        assert forall i :: 0 <= i < |history| ==> (history + [e])[i] == history[i];
      }
      history := history + [e];
    }

    /** Writes if the write is possible and its fate allows; justified whatever the others did meanwhile. */
    method Write(p: Pass, e: Event) returns (r: Written)
      requires At(p) && PassOf(e) == Some(p) && Justified(history, e)
      modifies this
      ensures At(p) && old(history) <= history
      ensures history == old(history) || history == old(history) + [e]
      ensures r.Done? ==> history == old(history) + [e] && World() == Next(old(World()), |old(history)|, e)
      ensures smooth && Possible(old(history), e) ==> r.Done?
    {
      hide Next, After, Legal, Possible, Justified;
      var ok, applied := Fate(smooth);
      if !Possible(history, e) { return Conflict; }
      if applied { Append(p, e); }
      r := if ok then Done else Lost;
    }

    method GetConfigMap(p: Pass) returns (answer: Answer<ConfigMap>)
      requires At(p)
      modifies this
      ensures At(p) && old(history) <= history
      ensures answer.Found? ==> ConfigMapSeen(p, answer.value) in history
      ensures smooth ==> World() == old(World()) && answer == AnswerOf(World().configMap)
      ensures p.InstancePass? && Unconfirmed(old(history), p) ==> Unconfirmed(history, p)
      ensures NoEmptyList(old(history), p) ==> NoEmptyList(history, p)
    {
      hide Legal, Possible, Justified, Before;
      Interfere(p);
      var ok := *;
      if !ok && !smooth { return Failed; }
      var w := Cached();
      if w.configMap.None? { return NotFound; }
      ReadAllowed(p, history, ConfigMapSeen(p, w.configMap.value), w);
      Append(p, ConfigMapSeen(p, w.configMap.value));
      return Found(w.configMap.value);
    }

    // ---------- For the subscription controller ----------

    /** The look at the config map that precedes writing it. */
    method PeekConfigMap(p: Pass) returns (answer: Answer<ConfigMap>)
      requires At(p) && p.SubscriptionPass? && Before(history, p.id)
      modifies this
      ensures At(p) && Before(history, p.id) && old(history) <= history
      ensures answer.Found? ==> Published(history, Some(answer.value.owner), answer.value.data)
      ensures smooth ==> history == old(history) && answer == AnswerOf(World().configMap)
      ensures NoEmptyList(old(history), p) ==> NoEmptyList(history, p)
    {
      Interfere(p);
      var ok := *;
      if !ok && !smooth { return Failed; }
      var w := Cached();
      if w.configMap.None? { return NotFound; }
      ghost var m :| 0 <= m <= |history| && After(history[..m]) == w;
      ConfigMapOrigin(history, m);
      return Found(w.configMap.value);
    }

    method WriteConfigMap(p: Pass, replaced: Option<nat>, owner: string, data: Requirements) returns (r: Written)
      requires At(p) && p.SubscriptionPass? && Before(history, p.id)
      modifies this
      ensures At(p) && old(history) <= history
      ensures r.Done? ==> ConfigMapWritten(p, replaced, owner, data) in history
      ensures smooth && replaced == VersionOf(old(World()).configMap) ==>
                && r.Done? && history == old(history) + [ConfigMapWritten(p, replaced, owner, data)]
                && World() == old(World()).(configMap := Some(ConfigMap(|old(history)|, owner, data)))
      ensures NoEmptyList(old(history), p) ==> NoEmptyList(history, p)
    {
      Interfere(p);
      r := Write(p, ConfigMapWritten(p, replaced, owner, data));
    }

    method ListAPIManagers(p: Pass) returns (ok: bool, listed: APIManagers)
      requires At(p) && p.SubscriptionPass?
      modifies this
      ensures At(p) && old(history) <= history
      ensures ok ==> APIManagersListed(p, listed) in history
      ensures smooth ==> ok && World() == old(World()) && listed == World().apiManagers
      ensures NoEmptyList(old(history), p) ==> NoEmptyList(history, p)
    {
      hide Legal, Possible, Justified, Before;
      listed := map[];
      Interfere(p);
      ok := *;
      ok := ok || smooth;
      if ok {
        var w := Cached();
        listed := w.apiManagers;
        ReadAllowed(p, history, APIManagersListed(p, listed), w);
        Append(p, APIManagersListed(p, listed));
      }
    }

    /** A missing resource kind is answered with no conditions. */
    method ListConditions(p: Pass) returns (ok: bool, conditions: seq<OperatorCondition>)
      requires At(p) && p.SubscriptionPass?
      modifies this
      ensures At(p) && old(history) <= history
      ensures ok ==> ConditionsListed(p, conditions) in history
      ensures smooth ==> ok && World() == old(World()) && conditions == World().conditions
      ensures !ok || conditions != [] ==> (NoEmptyList(old(history), p) ==> NoEmptyList(history, p))
    {
      hide Legal, Possible, Justified, Before;
      conditions := [];
      Interfere(p);
      ok := *;
      ok := ok || smooth;
      if ok {
        var kindKnown := *;
        var w := Cached();
        if kindKnown || smooth { conditions := w.conditions; }
        ListingAllowed(p, history, conditions, w);
        Append(p, ConditionsListed(p, conditions));
      }
    }

    method GetCondition(p: Pass, name: string) returns (answer: Answer<OperatorCondition>)
      requires At(p)
      modifies this
      ensures At(p) && old(history) <= history
      ensures answer.Found? ==> answer.value.name == name
      ensures smooth ==> history == old(history)
      ensures smooth && (exists c :: c in World().conditions && c.name == name) ==>
                answer.Found? && answer.value in World().conditions
      ensures NoEmptyList(old(history), p) ==> NoEmptyList(history, p)
    {
      Interfere(p);
      var ok := *;
      if !ok && !smooth { return Failed; }
      var w := Cached();
      if i :| 0 <= i < |w.conditions| && w.conditions[i].name == name {
        return Found(w.conditions[i]);
      }
      return NotFound;
    }

    method UpdateCondition(p: Pass, configMap: ConfigMap, listed: APIManagers, conditions: seq<OperatorCondition>,
                           base: OperatorCondition)
      returns (r: Written)
      requires At(p) && Justified(history, ConditionWritten(p, configMap, listed, conditions, base))
      modifies this
      ensures At(p) && old(history) <= history
      ensures r.Done? ==> ConditionWritten(p, configMap, listed, conditions, base) in history
      ensures smooth && base in old(World()).conditions ==>
                && r.Done? && history == old(history) + [ConditionWritten(p, configMap, listed, conditions, base)]
                && World() == old(World()).(conditions := World().conditions)
      ensures NoEmptyList(old(history), p) ==> NoEmptyList(history, p)
    {
      Interfere(p);
      r := Write(p, ConditionWritten(p, configMap, listed, conditions, base));
    }

    // ---------- For the APIManager controller ----------

    method GetInstance(p: Pass, name: string) returns (answer: Answer<APIManager>)
      requires At(p) && p.InstancePass?
      modifies this
      ensures At(p) && old(history) <= history
      ensures answer.Found? ==> Knows(history, p, name, answer.value)
      ensures p.InstancePass? && Unconfirmed(old(history), p) ==> Unconfirmed(history, p)
      ensures smooth ==>
                && World() == old(World())
                && answer == if name in World().apiManagers then Found(World().apiManagers[name]) else NotFound
    {
      hide Legal, Possible, Justified;
      Interfere(p);
      var ok := *;
      if !ok && !smooth { return Failed; }
      var w := Cached();
      if name !in w.apiManagers { return NotFound; }
      ReadAllowed(p, history, InstanceSeen(p, name, w.apiManagers[name]), w);
      Append(p, InstanceSeen(p, name, w.apiManagers[name]));
      return Found(w.apiManagers[name]);
    }

    /** Writes the status; the answer brings the object under its new version. */
    method UpdateStatus(p: Pass, name: string, instance: APIManager) returns (r: Written, updated: APIManager)
      requires At(p) && p.InstancePass? && Knows(history, p, name, instance)
      modifies this
      ensures At(p) && old(history) <= history
      ensures r.Done? ==> Knows(history, p, name, updated) && updated == instance.(version := updated.version)
      ensures r.Done? ==> history[|history| - 1] == StatusWritten(p, name, updated)
      ensures p.InstancePass? && Unconfirmed(old(history), p) ==> Unconfirmed(history, p)
      ensures smooth && Stored(old(World()), name, instance.version) ==>
                && r.Done? && World() == old(World()).(apiManagers := old(World()).apiManagers[name := updated])
                && history == old(history) + [StatusWritten(p, name, updated)]
    {
      Interfere(p);
      updated := instance.(version := |history|);
      var w := After(history);
      if !Stored(w, name, instance.version) { return Conflict, updated; }
      StillStored(history, p, name, instance);
      r := Write(p, StatusWritten(p, name, updated));
    }

    method Update(p: Pass, e: Event) returns (r: Written)
      requires At(p) && p.InstancePass? && PassOf(e) == Some(p) && Justified(history, e)
      requires e.Confirmed? || e.DefaultsWritten?
      modifies this
      ensures At(p) && old(history) <= history
      ensures r.Done? ==> e in history
      ensures !e.Confirmed? && Unconfirmed(old(history), p) ==> Unconfirmed(history, p)
      ensures smooth && Possible(old(history), e) ==>
                && r.Done? && history == old(history) + [e]
                && World() == Next(old(World()), |old(history)|, e)
    {
      Interfere(p);
      r := Write(p, e);
    }

    /** Asks a database of the instance whether it meets what is required of it. */
    method CheckDatabase(p: Pass, name: string, d: Database, q: Requirements) returns (ok: bool, holds: bool)
      requires At(p) && p.InstancePass?
      modifies this
      ensures At(p) && old(history) <= history
      ensures ok ==> DatabaseChecked(p, name, d, q, holds) in history
      ensures p.InstancePass? && Unconfirmed(old(history), p) ==> Unconfirmed(history, p)
      ensures smooth ==> ok && World() == old(World())
      ensures smooth ==> history == old(history) + [DatabaseChecked(p, name, d, q, holds)]
    {
      hide Legal, After;
      Interfere(p);
      ok, holds := *, *;
      ok := ok || smooth;
      if ok { Append(p, DatabaseChecked(p, name, d, q, holds)); }
    }
  }

  /** An object whose known version is the stored one is the stored one. */
  lemma {:induction false} StillStored(h: History, p: Pass, name: string, a: APIManager)
    requires Legal(h) && Knows(h, p, name, a) && Stored(After(h), name, a.version)
    ensures After(h).apiManagers[name] == a
  {
    assert h[..|h|] == h;
    KnownInstance(h, |h|, p, name, a);
    var j :| 0 <= j <= |h| && name in After(h[..j]).apiManagers && After(h[..j]).apiManagers[name] == a;
    SameVersionSameInstance(h, j, |h|, name);
  }
}
