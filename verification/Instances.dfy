/** The APIManager controller up to and including its gate: preflight checks, confirmation, defaults, components. */
module Instances {
  import opened Options
  import opened Preflights
  import opened UpgradeGate
  import opened UpgradeStore

  /** How a pass ends; the first four are not repeated until something changes. */
  datatype Outcome =
    Ignored | Stopped | RequirementsConfirmed | Completed | CompletedUnmet | Requeue | RequeueAfter | Error

  /** The status as it was computed: whether the instance is available, and whether that is what it says already. */
  datatype ComputedStatus = NotComputed | Computed(available: bool, equal: bool)

  datatype Need = Unknown | Impossible | Required | NotRequired

  datatype Checked = Unreadable | Unverifiable | Judged(verdict: Verdict)

  /** The components were reconciled, without an error or a need to come back if finished is asked for. */
  ghost predicate Touched(h: History, p: Pass, name: string, r: Release, bypassed: bool, finished: bool) {
    exists i :: 0 <= i < |h| && h[i].ComponentsReconciled? && h[i].pass == p && h[i].name == name
                && h[i].running == r && h[i].bypassed == bypassed && (finished ==> h[i].finished)
  }

  lemma {:induction false} TouchedStays(h: History, h': History, p: Pass, name: string, r: Release, bypassed: bool,
                                        finished: bool)
    requires h <= h' && Touched(h, p, name, r, bypassed, finished)
    ensures Touched(h', p, name, r, bypassed, finished)
  {
  }

  lemma {:induction false} ClearedStays(h: History, h': History, p: Pass, a: APIManager, b: APIManager, r: Release)
    requires h <= h' && Cleared(h, p, a, r) && b == a.(version := b.version)
    ensures Cleared(h', p, b, r)
  {
  }

  lemma {:induction false} MayTouchStays(h: History, h': History, p: Pass, name: string, a: APIManager, r: Release)
    requires h <= h'
    ensures Knows(h, p, name, a) ==> Knows(h', p, name, a)
    ensures Cleared(h, p, a, r) ==> Cleared(h', p, a, r)
  {
  }

  ghost predicate ConfirmedIn(h: History, p: Pass, name: string) {
    exists i :: 0 <= i < |h| && h[i].Confirmed? && h[i].pass == p && h[i].name == name
  }

  /** The verdict is the one on requirements the pass has read, for some answers of the databases. */
  ghost predicate JudgedIn(h: History, p: Pass, name: string, r: Release, a: APIManager, verdict: Verdict) {
    exists c, v :: ConfigMapSeen(p, c) in h && JudgedOn(h, p, name, r, a, c.data, v, verdict)
  }

  /** The verdict on these requirements; only if the databases are external are they checked. */
  ghost predicate JudgedOn(h: History, p: Pass, name: string, r: Release, a: APIManager, q: Requirements, v: Verified,
                           verdict: Verdict) {
    Judge(r, a, q, v) == verdict && (!verdict.NotExternal? ==> Backed(h, p, name, q, v))
  }

  lemma {:induction false} JudgedStays(h: History, h': History, p: Pass, name: string, r: Release, a: APIManager,
                                       verdict: Verdict)
    requires h <= h' && JudgedIn(h, p, name, r, a, verdict)
    ensures JudgedIn(h', p, name, r, a, verdict)
  {
    var c, v :| ConfigMapSeen(p, c) in h && JudgedOn(h, p, name, r, a, c.data, v, verdict);
    BackedStays(h, h', p, name, c.data, v);
    assert ConfigMapSeen(p, c) in h' && JudgedOn(h', p, name, r, a, c.data, v, verdict);
  }

  lemma {:induction false} BackedStays(h: History, h': History, p: Pass, name: string, q: Requirements, v: Verified)
    requires h <= h'
    ensures Backed(h, p, name, q, v) ==> Backed(h', p, name, q, v)
  {
  }

  /** Only the one APIManager changes, and it is as given but for its version. */
  ghost function Renewed(before: World, after: World, name: string, a: APIManager): World {
    if name !in after.apiManagers then before else
    before.(apiManagers := before.apiManagers[name := a.(version := after.apiManagers[name].version)])
  }

  /** What a pass that goes past the gate does when all goes well: defaults first, then the components. */
  ghost predicate Proceeds(h: History, p: Pass, name: string, r: Release, bypassed: bool, a: APIManager, before: World,
                           after: World, outcome: Outcome) {
    && outcome in {Completed, CompletedUnmet, Requeue, RequeueAfter}
    && name in after.apiManagers && after == Renewed(before, after, name, Defaulted(r, a))
    && (Defaulted(r, a) == a ==> Touched(h, p, name, r, bypassed, false))
    && (Defaulted(r, a) != a ==> outcome.Requeue?)
  }

  /** What the controller makes of a valid instance when all goes well. */
  ghost predicate SmoothPass(h: History, p: Pass, name: string, r: Release, bypassed: bool, before: World, after: World,
                             outcome: Outcome)
    requires name in before.apiManagers
  {
    var a, c := before.apiManagers[name], before.configMap;
    if bypassed then Proceeds(h, p, name, r, bypassed, a, before, after, outcome)
    else if c.None? || MultiMinorHop(r, a).None? then outcome.Error? && after == before
    else if MultiMinorHop(r, a).value || !DatabasesExternal(a.spec) then
      outcome in {Stopped, Requeue} && after == Renewed(before, after, name, a)
    else if a.confirmed == Some(c.value.version) then Proceeds(h, p, name, r, bypassed, a, before, after, outcome)
    else exists v :: Backed(h, p, name, c.value.data, v) &&
                     AfterVerdict(h, p, name, r, before, after, Judge(r, a, c.value.data, v), outcome)
  }

  ghost predicate AfterVerdict(h: History, p: Pass, name: string, r: Release, before: World, after: World,
                               verdict: Verdict, outcome: Outcome)
    requires name in before.apiManagers && before.configMap.Some?
  {
    var a := before.apiManagers[name];
    match verdict
    case Confirm =>
      && outcome.RequirementsConfirmed?
      && after == Renewed(before, after, name, a.(confirmed := Some(before.configMap.value.version)))
    case IncomingRefused =>
      || (outcome.Requeue? && after == Renewed(before, after, name, a))
      || (!outcome.Completed? && Proceeds(h, p, name, r, false, a, before, after, outcome))
    case _ => outcome.RequeueAfter? && after == Renewed(before, after, name, a)
  }

  /** The instance is confirmed for a config map that the pass has read. */
  ghost predicate ConfirmedForRead(h: History, p: Pass, a: APIManager) {
    exists c :: ConfigMapSeen(p, c) in h && a.confirmed == Some(c.version)
  }

  lemma {:induction false} ConfirmedForReadStays(h: History, h': History, p: Pass, a: APIManager)
    requires h <= h' && ConfirmedForRead(h, p, a)
    ensures ConfirmedForRead(h', p, a)
  {
  }

  lemma {:induction false} KnowsStays(h: History, h': History, p: Pass, name: string, a: APIManager)
    requires h <= h' && Knows(h, p, name, a)
    ensures Knows(h', p, name, a)
  {
  }

  lemma {:induction false} NotExternalJudged(r: Release, a: APIManager, q: Requirements, v: Verified)
    requires !DatabasesExternal(a.spec)
    ensures Judge(r, a, q, v) == NotExternal
  {
  }

  lemma {:induction false} JudgedExternal(r: Release, a: APIManager, q: Requirements, v: Verified)
    requires DatabasesExternal(a.spec)
    ensures Judge(r, a, q, v) != NotExternal
    ensures Judge(r, a, q, v) == IncomingRefused ==> Installed(a) == r.threescale
  {
  }

  /** A new version of an instance makes no difference to what its defaults are. */
  lemma {:induction false} ProceedsRenewed(h: History, p: Pass, name: string, r: Release, bypassed: bool, a: APIManager,
                                           b: APIManager, before: World, between: World, after: World,
                                           outcome: Outcome)
    requires b == a.(version := b.version) && between == Renewed(before, between, name, a)
    requires Proceeds(h, p, name, r, bypassed, b, between, after, outcome)
    ensures Proceeds(h, p, name, r, bypassed, a, before, after, outcome)
  {
  }

  class APIManagerReconciler {
    const store: Store
    const running: Release
    const bypassed: bool

    constructor (store: Store, running: Release, bypassed: bool)
      ensures this.store == store && this.running == running && this.bypassed == bypassed
    {
      this.store, this.running, this.bypassed := store, running, bypassed;
    }

    /** What a pass knows once it need not stop at the gate. */
    ghost predicate MayTouch(p: Pass, name: string, a: APIManager)
      reads store
    {
      Knows(store.history, p, name, a) && (bypassed || Cleared(store.history, p, a, running))
    }

    /** The stored instance is the one known. */
    ghost predicate Current(name: string, a: APIManager)
      reads store
    {
      name in store.World().apiManagers && store.World().apiManagers[name] == a
    }

    /**
     A pass that confirms requirements ends with that. It completes only by reconciling the components to the end, past
     the gate: with the requirements it read confirmed; or, though they do not hold, because they are those of the next
     release and the instance is at its own.
     */
    ghost predicate Ended(p: Pass, name: string, outcome: Outcome)
      reads store
    {
      var h := store.history;
      && (outcome.Completed? || outcome.CompletedUnmet? ==> Touched(h, p, name, running, bypassed, true))
      && (outcome.RequirementsConfirmed? ==> ConfirmedIn(h, p, name))
      && (!outcome.RequirementsConfirmed? && !outcome.Error? ==> Unconfirmed(h, p))
      && (outcome.Stopped? || outcome.RequirementsConfirmed? || outcome.CompletedUnmet? ==> !bypassed)
      && (outcome.Completed? && !bypassed ==> exists a :: Knows(h, p, name, a) && ConfirmedForRead(h, p, a))
      && (outcome.CompletedUnmet? ==> exists a :: JudgedIn(h, p, name, running, a, IncomingRefused))
    }

    /** One pass, given whether the instance passes its validation. */
    method Reconcile(p: Pass, name: string, valid: bool) returns (outcome: Outcome)
      requires p.InstancePass? && Legal(store.history) && Unconfirmed(store.history, p)
      modifies store
      ensures store.At(p) && old(store.history) <= store.history
      ensures Ended(p, name, outcome)
      ensures store.smooth && name !in old(store.World()).apiManagers ==>
                outcome.Ignored? && store.World() == old(store.World())
      ensures store.smooth && name in old(store.World()).apiManagers ==>
                if valid then SmoothPass(store.history, p, name, running, bypassed, old(store.World()), store.World(),
                                         outcome)
                else outcome.Error? && store.World() == old(store.World())
    {
      hide After, Next, Legal, Knows, Touched, Unconfirmed, SmoothPass;
      var answer := store.GetInstance(p, name);
      if answer.Failed? { return Error; }
      if answer.NotFound? { return Ignored; }
      if !valid { return Error; }
      outcome := ReconcileInstance(p, name, answer.value);
    }

    /** The pass from the instance that was read. */
    method ReconcileInstance(p: Pass, name: string, a: APIManager) returns (outcome: Outcome)
      requires store.At(p) && p.InstancePass? && Knows(store.history, p, name, a) && Unconfirmed(store.history, p)
      requires store.smooth ==> Current(name, a)
      modifies store
      ensures store.At(p) && old(store.history) <= store.history
      ensures Ended(p, name, outcome)
      ensures store.smooth ==>
                SmoothPass(store.history, p, name, running, bypassed, old(store.World()), store.World(), outcome)
    {
      hide After, Next, Legal, Knows, Cleared, JudgedIn, Judge, ConfirmedIn, Touched, Unconfirmed, Defaulted;
      hide MultiMinorHop, DatabasesExternal, AfterVerdict, Backed, Proceeds, ConfirmedForRead;
      outcome := Error;
      var need := InstanceRequiresPreflights(p, name, a);
      match need {
        case Unknown =>
        case Impossible =>
          var s := ComputeStatus();
          var err, requeue, _ := ReconcileStatus(p, name, a, s);
          outcome := if err then Error else if requeue then Requeue else Stopped;
        case NotRequired =>
          ghost var before := store.history;
          ghost var s;
          outcome, s := ReconcileComponents(p, name, a, false);
          if !bypassed { ConfirmedForReadStays(before, store.history, p, a); }
        case Required =>
          outcome := ReconcileChecked(p, name, a);
      }
    }

    /** The pass from the preflight checks on. */
    method ReconcileChecked(p: Pass, name: string, a: APIManager) returns (outcome: Outcome)
      requires store.At(p) && p.InstancePass? && Knows(store.history, p, name, a) && Unconfirmed(store.history, p)
      requires !bypassed && DatabasesExternal(a.spec)
      requires Installed(a) == running.threescale ==> MayTouch(p, name, a)
      requires store.smooth ==> Current(name, a) && store.World().configMap.Some?
      modifies store
      ensures store.At(p) && old(store.history) <= store.history
      ensures Ended(p, name, outcome) && !outcome.Completed?
      ensures store.smooth ==>
                exists v :: Backed(store.history, p, name, old(store.World()).configMap.value.data, v) &&
                            AfterVerdict(store.history, p, name, running, old(store.World()), store.World(),
                                         Judge(running, a, old(store.World()).configMap.value.data, v), outcome)
    {
      hide After, Next, Legal, Knows, Cleared, JudgedIn, Judge, ConfirmedIn, Touched, Unconfirmed, Defaulted;
      hide DatabasesExternal, Backed, Proceeds, ConfirmedForRead, Installed;
      var checked;
      ghost var verified;
      checked, verified := PreflightChecks(p, name, a);
      if checked.Unreadable? { return Error; }
      if checked == Judged(Confirm) { return RequirementsConfirmed; }
      ghost var h := store.history;
      var s := ComputeStatus();
      var err, requeue, updated := ReconcileStatus(p, name, a, s);
      if store.smooth { BackedStays(h, store.history, p, name, old(store.World()).configMap.value.data, verified); }
      if err { return Error; }
      if checked != Judged(IncomingRefused) { return RequeueAfter; }
      if requeue { return Requeue; }
      ghost var between, world := store.history, store.World();
      ghost var last;
      outcome, last := ReconcileComponents(p, name, updated, true);
      JudgedStays(h, store.history, p, name, running, a, IncomingRefused);
      if store.smooth {
        BackedStays(between, store.history, p, name, old(store.World()).configMap.value.data, verified);
        ProceedsRenewed(store.history, p, name, running, bypassed, a, updated, old(store.World()), world, store.World(),
                        outcome);
      }
    }

    /** Whether the preflight checks have to run; they do not when the requirements read are confirmed already. */
    method InstanceRequiresPreflights(p: Pass, name: string, a: APIManager) returns (need: Need)
      requires store.At(p) && p.InstancePass? && Knows(store.history, p, name, a)
      modifies store
      ensures store.At(p) && old(store.history) <= store.history
      ensures Unconfirmed(old(store.history), p) ==> Unconfirmed(store.history, p)
      ensures Knows(store.history, p, name, a) && (need.NotRequired? ==> MayTouch(p, name, a))
      ensures bypassed ==> need.NotRequired? && store.history == old(store.history)
      ensures need.Required? ==>
                !bypassed && (Installed(a) == running.threescale ==> MayTouch(p, name, a))
      ensures !bypassed && MultiMinorHop(running, a).None? ==> need.Unknown?
      ensures !need.Unknown? ==>
                (need.Impossible? <==>
                 !bypassed && (MultiMinorHop(running, a) == Some(true) || !DatabasesExternal(a.spec)))
      ensures !need.Unknown? && !bypassed ==>
                forall i: nat, j: nat :: HasMinor(Installed(a), i) && HasMinor(running.threescale, j) ==>
                                 (need.Impossible? <==> i > j + 1 || j > i + 1 || !DatabasesExternal(a.spec))
      ensures need.NotRequired? && !bypassed ==> ConfirmedForRead(store.history, p, a)
      ensures store.smooth && !bypassed ==>
                && (need.Unknown? <==> store.World().configMap.None? || MultiMinorHop(running, a).None?)
                && (need.NotRequired? ==> a.confirmed == Some(store.World().configMap.value.version))
                && (need.Required? ==> a.confirmed != Some(store.World().configMap.value.version))
      ensures store.smooth ==> store.World() == old(store.World())
    {
      hide HasMinor, MultiMinorHop, DatabasesExternal, After, Next, Legal, Possible, Unconfirmed;
      if bypassed { return NotRequired; }
      var answer := store.GetConfigMap(p);
      if !answer.Found? { return Unknown; }
      var hop := MultiMinorHop(running, a);
      if hop.None? { return Unknown; }
      HopCompared(running, a);
      if hop.value { return Impossible; }
      if !DatabasesExternal(a.spec) { return Impossible; }
      assert MayProceed(running, a, answer.value.version) ==> Cleared(store.history, p, a, running) by {
        var i :| 0 <= i < |store.history| && store.history[i] == ConfigMapSeen(p, answer.value);
      }
      if a.confirmed == Some(answer.value.version) { return NotRequired; }
      return Required;
    }

    /** Runs the checks against the requirements read now, and confirms exactly that version if they let it pass. */
    method PreflightChecks(p: Pass, name: string, a: APIManager) returns (checked: Checked, ghost verified: Verified)
      requires store.At(p) && p.InstancePass? && Knows(store.history, p, name, a)
      modifies store
      ensures store.At(p) && old(store.history) <= store.history && Knows(store.history, p, name, a)
      ensures old(MayTouch(p, name, a)) ==> MayTouch(p, name, a)
      ensures checked.Judged? ==> JudgedIn(store.history, p, name, running, a, checked.verdict)
      ensures checked == Judged(Confirm) ==> ConfirmedIn(store.history, p, name)
      ensures checked != Judged(Confirm) && !checked.Unreadable? ==>
                Unconfirmed(old(store.history), p) ==> Unconfirmed(store.history, p)
      ensures checked == Judged(IncomingRefused) ==> Installed(a) == running.threescale
      ensures checked == Judged(NotExternal) <==> !checked.Unreadable? && !DatabasesExternal(a.spec)
      ensures store.smooth && old(store.World()).configMap.Some? && old(Current(name, a)) &&
              DatabasesExternal(a.spec) ==>
                var c := old(store.World()).configMap.value;
                && Backed(store.history, p, name, c.data, verified)
                && checked == Judged(Judge(running, a, c.data, verified))
                && store.World() ==
                   if checked == Judged(Confirm)
                   then Renewed(old(store.World()), store.World(), name, a.(confirmed := Some(c.version)))
                   else old(store.World())
    {
      hide After, Next, Legal, Possible, Unconfirmed, Cleared, Judge, DatabasesExternal, Backed;
      ghost var before := store.history;
      verified := Verified(true, true, true);
      var answer := store.GetConfigMap(p);
      MayTouchStays(before, store.history, p, name, a, running);
      if !answer.Found? { return Unreadable, verified; }
      var q := answer.value.data;
      if !DatabasesExternal(a.spec) {
        NotExternalJudged(running, a, q, verified);
        assert JudgedOn(store.history, p, name, running, a, q, verified, NotExternal);
        return Judged(NotExternal), verified;
      }
      var ok, v := VerifyRequirements(p, name, q);
      verified := v;
      MayTouchStays(before, store.history, p, name, a, running);
      if !ok { return Unverifiable, verified; }
      JudgedExternal(running, a, q, v);
      var verdict := Judge(running, a, q, v);
      ghost var seen := store.history;
      assert ConfigMapSeen(p, answer.value) in seen && JudgedOn(seen, p, name, running, a, q, v, verdict);
      if verdict.Confirm? {
        ok := SetRequirementsAnnotation(p, name, a, answer.value, v);
        MayTouchStays(before, store.history, p, name, a, running);
        BackedStays(seen, store.history, p, name, q, v);
        if !ok { return Unreadable, verified; }
        JudgedStays(seen, store.history, p, name, running, a, verdict);
      }
      return Judged(verdict), verified;
    }

    /** Puts the version of the requirements on the instance. */
    method SetRequirementsAnnotation(p: Pass, name: string, a: APIManager, c: ConfigMap, v: Verified) returns (ok: bool)
      requires store.At(p) && p.InstancePass? && Knows(store.history, p, name, a)
      requires ConfigMapSeen(p, c) in store.history && Backed(store.history, p, name, c.data, v)
      requires Judge(running, a, c.data, v) == Confirm
      modifies store
      ensures store.At(p) && old(store.history) <= store.history
      ensures ok ==> ConfirmedIn(store.history, p, name)
      ensures store.smooth && old(Current(name, a)) ==>
                && ok
                && store.World() ==
                   Renewed(old(store.World()), store.World(), name, a.(confirmed := Some(c.version)))
    {
      hide After, Legal, Backed, Judge;
      var e := Confirmed(p, name, a, c, running, v);
      assert store.smooth && Current(name, a) ==> Possible(store.history, e);
      var r := store.Update(p, e);
      if r.Done? { assert exists i :: 0 <= i < |store.history| && store.history[i] == e; }
      return r.Done?;
    }

    /** Asks every database of which something is required; fails when one cannot be asked. */
    method VerifyRequirements(p: Pass, name: string, q: Requirements) returns (ok: bool, verified: Verified)
      requires store.At(p) && p.InstancePass?
      modifies store
      ensures store.At(p) && old(store.history) <= store.history
      ensures Unconfirmed(old(store.history), p) ==> Unconfirmed(store.history, p)
      ensures ok ==> Backed(store.history, p, name, q, verified)
      ensures store.smooth ==> ok && store.World() == old(store.World())
    {
      hide After, Next, Legal, Unconfirmed;
      verified := Verified(q.mysql == "" && q.postgres == "", q.backendRedis == "", q.systemRedis == "");
      ok := true;
      if !verified.systemRedis {
        var holds;
        ok, holds := store.CheckDatabase(p, name, SystemRedis, q);
        if !ok { return; }
        verified := verified.(systemRedis := holds);
      }
      ghost var first := store.history;
      if !verified.backendRedis {
        var holds;
        ok, holds := store.CheckDatabase(p, name, BackendRedis, q);
        if !ok { return; }
        verified := verified.(backendRedis := holds);
      }
      ghost var second := store.history;
      if !verified.systemDatabase {
        var holds;
        ok, holds := store.CheckDatabase(p, name, SystemDatabase, q);
        if !ok { return; }
        verified := verified.(systemDatabase := holds);
      }
      assert forall e :: e in first || e in second ==> e in store.history;
    }

    /** Stands for the computation of the status. */
    method ComputeStatus() returns (s: ComputedStatus)
      ensures store.smooth ==> s.Computed?
    {
      var computed, available, equal := *, *, *;
      s := if computed || store.smooth then Computed(available, equal) else NotComputed;
    }

    /** Writes the status unless it is steady; the object may come back under a new version. */
    method ReconcileStatus(p: Pass, name: string, a: APIManager, s: ComputedStatus)
      returns (err: bool, requeue: bool, updated: APIManager)
      requires store.At(p) && p.InstancePass? && Knows(store.history, p, name, a)
      requires store.smooth ==> s.Computed?
      modifies store
      ensures store.At(p) && old(store.history) <= store.history
      ensures Unconfirmed(old(store.history), p) ==> Unconfirmed(store.history, p)
      ensures !err && !requeue ==> Knows(store.history, p, name, updated)
      ensures !err && !requeue && (bypassed || Cleared(old(store.history), p, a, running)) ==>
                MayTouch(p, name, updated)
      ensures updated == a.(version := updated.version)
      ensures !err && !requeue ==> s.Computed? && s.available
      ensures !err && !requeue && !s.equal ==> store.history[|store.history| - 1] == StatusWritten(p, name, updated)
      ensures s == Computed(true, true) ==> !err && !requeue && store.history == old(store.history)
      ensures store.smooth && old(Current(name, a)) ==> (requeue <==> !s.available)
      ensures store.smooth && old(Current(name, a)) ==>
                && !err && Current(name, updated)
                && store.World() == Renewed(old(store.World()), store.World(), name, a)
    {
      hide After, Next, Legal, Unconfirmed, Cleared;
      updated := a;
      ghost var before := store.history;
      if s.NotComputed? { return true, false, a; }
      if s.equal && s.available { return false, false, a; }
      var r, answered := store.UpdateStatus(p, name, a);
      if r.Conflict? { return false, true, a; }
      if r.Lost? { return true, false, a; }
      if Cleared(before, p, a, running) { ClearedStays(before, store.history, p, a, answered, running); }
      return false, !s.available, answered;
    }

    /** Past the gate: defaults first, and the components only once there are none to set. */
    method ReconcileComponents(p: Pass, name: string, a: APIManager, unmet: bool)
      returns (outcome: Outcome, ghost status: ComputedStatus)
      requires store.At(p) && p.InstancePass? && MayTouch(p, name, a)
      modifies store
      ensures store.At(p) && old(store.history) <= store.history && Knows(store.history, p, name, a)
      ensures Unconfirmed(old(store.history), p) ==> Unconfirmed(store.history, p)
      ensures outcome.Completed? || outcome.CompletedUnmet? ==>
                Touched(store.history, p, name, running, bypassed, true) && status.Computed? && status.available
      ensures outcome in {Completed, CompletedUnmet, Requeue, RequeueAfter, Error}
      ensures (outcome.CompletedUnmet? ==> unmet) && (outcome.Completed? ==> !unmet)
      ensures store.smooth && old(Current(name, a)) ==>
                Proceeds(store.history, p, name, running, bypassed, a, old(store.World()), store.World(), outcome)
    {
      hide After, Next, Legal, Cleared, Knows, Touched, Defaulted, Unconfirmed;
      status := NotComputed;
      var err, requeue := SetDefaults(p, name, a);
      if err { return Error, status; }
      if requeue { return Requeue, status; }
      var failed, again, later := ReconcileLogic(p, name, a);
      ghost var before := store.history;
      var s := ComputeStatus();
      status := s;
      var statusErr, statusRequeue, _ := ReconcileStatus(p, name, a, s);
      TouchedStays(before, store.history, p, name, running, bypassed, false);
      if Touched(before, p, name, running, bypassed, true) {
        TouchedStays(before, store.history, p, name, running, bypassed, true);
      }
      KnowsStays(before, store.history, p, name, a);
      if statusErr || failed { return Error, status; }
      if again { return Requeue, status; }
      if later { return RequeueAfter, status; }
      if statusRequeue { return Requeue, status; }
      outcome := if unmet then CompletedUnmet else Completed;
    }

    /** Stands for the reconciliation of all components, which may fail or ask to be repeated, at once or later. */
    method ReconcileLogic(p: Pass, name: string, a: APIManager) returns (failed: bool, again: bool, later: bool)
      requires store.At(p) && p.InstancePass? && MayTouch(p, name, a) && Defaulted(running, a) == a
      modifies store
      ensures store.At(p) && old(store.history) <= store.history && Knows(store.history, p, name, a)
      ensures Unconfirmed(old(store.history), p) ==> Unconfirmed(store.history, p)
      ensures Touched(store.history, p, name, running, bypassed, false)
      ensures !failed && !again && !later ==> Touched(store.history, p, name, running, bypassed, true)
      ensures store.smooth ==> !failed && store.World() == old(store.World())
    {
      hide After, Legal, Cleared, Defaulted;
      failed, again, later := *, *, *;
      failed := failed && !store.smooth;
      var e := ComponentsReconciled(p, name, a, running, bypassed, !failed && !again && !later);
      store.Append(p, e);
      assert store.history[|store.history| - 1] == e;
    }

    method SetDefaults(p: Pass, name: string, a: APIManager) returns (err: bool, requeue: bool)
      requires store.At(p) && p.InstancePass? && MayTouch(p, name, a)
      modifies store
      ensures store.At(p) && old(store.history) <= store.history && MayTouch(p, name, a)
      ensures Unconfirmed(old(store.history), p) ==> Unconfirmed(store.history, p)
      ensures !err && !requeue ==> Defaulted(running, a) == a
      ensures !err && requeue ==> DefaultsWritten(p, name, a, running, bypassed) in store.history
      ensures Defaulted(running, a) == a ==> store.history == old(store.history)
      ensures store.smooth && old(Current(name, a)) ==>
                && !err && (requeue <==> Defaulted(running, a) != a)
                && store.World() == if requeue then Renewed(old(store.World()), store.World(), name,
                                                            Defaulted(running, a)) else old(store.World())
    {
      hide After, Legal, Cleared;
      ghost var before := store.history;
      var current := a.(spec := UpdateExternalComponents(a.spec));
      var updated := current != a;
      if current.operatorVersion != Some(running.operatorVersion) {
        current, updated := current.(operatorVersion := Some(running.operatorVersion)), true;
      }
      if current.release != Some(running.threescale) {
        current, updated := current.(release := Some(running.threescale)), true;
      }
      if !current.spec.defaulted {
        var ok := *;
        if !ok && !store.smooth { return true, false; }
        current, updated := current.(spec := current.spec.(defaulted := true)), true;
      }
      assert current == Defaulted(running, a);
      if updated {
        var r := store.Update(p, DefaultsWritten(p, name, a, running, bypassed));
        MayTouchStays(before, store.history, p, name, a, running);
        return !r.Done?, true;
      }
      return false, false;
    }
  }
}
