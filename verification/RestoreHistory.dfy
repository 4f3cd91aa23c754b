/**
 What a restore controller may do in a pass, and what follows for whole runs: the order of the steps, that the shared
 secret is not needed any more once it is deleted, and that completion absorbs.
 */
module RestoreHistory {
  import opened Options
  import opened Kube
  import opened Jobs

  datatype RestoreStatus = RestoreStatus(
    startTime: Option<int>,
    apiManagerToRestoreRef: Option<string>,
    mainStepsCompleted: bool,
    completed: bool,
    completionTime: Option<int>)

  type RestoreEvent = Event<RestoreStatus>
  type RestorePass = Pass<RestoreStatus>

  datatype Step = SecretsAndConfigMaps | SharedSecret | FileStorage | ResyncDomains

  function Prefix(s: Step): string {
    match s
    case SecretsAndConfigMaps => "restore-cfgmaps-secrets"
    case SharedSecret => "restore-apm-tosecret"
    case FileStorage => "restore-system-fs"
    case ResyncDomains => "resync-domains"
  }

  function JobKey(id: Ident, s: Step): Key { Key(Job, Prefix(s) + "-" + id.uid) }
  function SecretKey(id: Ident): Key { Key(Secret, id.name + "-serialized-apimanager") }
  function ClaimKey(): Key { Key(PersistentVolumeClaim, "system-storage") }
  function APIManagerKey(name: string): Key { Key(APIManager, name) }
  function AccountKey(): Key { Key(ServiceAccount, "apimanager-restore") }
  function RoleKey(): Key { Key(Role, "apimanager-restore") }
  function BindingKey(): Key { Key(RoleBinding, "apimanager-restore") }

  lemma {:induction false} JobsDistinct(id: Ident, s: Step, t: Step)
    ensures JobKey(id, s) == JobKey(id, t) ==> s == t
  {
  }

  function JobObject(): Obj { Obj(JobBody(0), false) }
  function PlainObject(): Obj { Obj(PlainBody, false) }
  function NewAPIManager(): Obj { Obj(APIManagerBody({}, None), false) }
  function StorageClaim(m: SavedAPIManager): Obj { Obj(ClaimBody(m.storageClass), false) }

  predicate SidekiqReady(o: Obj) {
    o.body.APIManagerBody? && "system-sidekiq" in o.body.readyDeployments
  }

  predicate KnownUnavailable(o: Obj) {
    o.body.APIManagerBody? && o.body.available == Some(false)
  }

  // ---------- Justification of events ----------

  predicate Begun(p: RestorePass) {
    p != [] && p[0].PassStart?
  }

  function Now(p: RestorePass): RestoreStatus
    requires Begun(p)
  {
    StatusAfter(p[0].status, p)
  }

  ghost predicate SawDone(id: Ident, p: RestorePass, s: Step) {
    SawSucceeded(p, JobKey(id, s))
  }

  /** The shared secret was read, with this APIManager in it. */
  ghost predicate SawSaved(id: Ident, p: RestorePass, m: SavedAPIManager) {
    exists o :: SawFound(p, SecretKey(id), o) && o.body == SecretBody(Some(Some(m)))
  }

  ghost predicate SawSavedName(id: Ident, p: RestorePass, name: string) {
    exists m :: SawSaved(id, p, m) && m.name == name
  }

  /** The APIManager was read with its background processing ready. */
  ghost predicate SawSidekiqReady(p: RestorePass, name: string) {
    exists o :: SawFound(p, APIManagerKey(name), o) && SidekiqReady(o)
  }

  /** The APIManager was read and did not say that it is unavailable. */
  ghost predicate SawNotUnavailable(p: RestorePass, name: string) {
    exists o :: SawFound(p, APIManagerKey(name), o) && !KnownUnavailable(o)
  }

  /** What the jobs run with exists. */
  ghost predicate Permitted(p: RestorePass) {
    InPlace(p, AccountKey()) && InPlace(p, RoleKey()) && InPlace(p, BindingKey())
  }

  /** Configuration is restored and the APIManager to restore is known. */
  ghost predicate SourceKnown(id: Ident, p: RestorePass)
    requires Begun(p)
  {
    SawDone(id, p, SecretsAndConfigMaps) && SawDone(id, p, SharedSecret) && Now(p).apiManagerToRestoreRef.Some?
  }

  /** In addition the file storage is restored. */
  ghost predicate DataRestored(id: Ident, p: RestorePass)
    requires Begun(p)
  {
    SourceKnown(id, p) && SawPresent(p, ClaimKey()) && SawDone(id, p, FileStorage)
  }

  /** In addition the APIManager exists, ready for background jobs. */
  ghost predicate APIManagerRuns(id: Ident, p: RestorePass)
    requires Begun(p)
  {
    && DataRestored(id, p)
    && SawPresent(p, APIManagerKey(Now(p).apiManagerToRestoreRef.value))
    && SawSidekiqReady(p, Now(p).apiManagerToRestoreRef.value)
  }

  /** In addition the domains are resynchronised, and the APIManager was seen not to be unavailable. */
  ghost predicate Restored(id: Ident, p: RestorePass)
    requires Begun(p)
  {
    && APIManagerRuns(id, p) && SawDone(id, p, ResyncDomains)
    && SawNotUnavailable(p, Now(p).apiManagerToRestoreRef.value)
  }

  ghost predicate SawAllAbsent(id: Ident, p: RestorePass) {
    forall s: Step :: SawAbsent(p, JobKey(id, s))
  }

  ghost predicate CreationJustified(id: Ident, p: RestorePass, key: Key, obj: Obj)
    requires Begun(p)
  {
    && !Now(p).mainStepsCompleted && !p[0].status.completed && key.kind != Secret
    && (key.kind == Job ==> Permitted(p))
    && (key == JobKey(id, SharedSecret) ==> SawDone(id, p, SecretsAndConfigMaps))
    && (key == ClaimKey() ==>
          && SourceKnown(id, p) && SawAbsent(p, ClaimKey())
          && exists m :: SawSaved(id, p, m) && obj == StorageClaim(m))
    && (key == JobKey(id, FileStorage) ==> SourceKnown(id, p) && SawPresent(p, ClaimKey()))
    && (key.kind == APIManager ==>
          && DataRestored(id, p) && SawAbsent(p, APIManagerKey(Now(p).apiManagerToRestoreRef.value))
          && SawSavedName(id, p, key.name))
    && (key == JobKey(id, ResyncDomains) ==> APIManagerRuns(id, p))
  }

  ghost predicate DeletionJustified(id: Ident, p: RestorePass, key: Key)
    requires Begun(p)
  {
    !p[0].status.completed &&
    if key == SecretKey(id) then !Now(p).mainStepsCompleted && Restored(id, p)
    else p[0].status.mainStepsCompleted && exists s: Step :: key == JobKey(id, s)
  }

  ghost predicate WriteJustified(id: Ident, p: RestorePass, w: RestoreStatus)
    requires Begun(p)
  {
    && !p[0].status.completed
    && (if Now(p).apiManagerToRestoreRef.Some? then w.apiManagerToRestoreRef == Now(p).apiManagerToRestoreRef
        else w.apiManagerToRestoreRef.Some? ==> SawSavedName(id, p, w.apiManagerToRestoreRef.value))
    && (Now(p).startTime.Some? ==> w.startTime == Now(p).startTime)
    && (Now(p).mainStepsCompleted ==> w.mainStepsCompleted)
    && (w.mainStepsCompleted && !Now(p).mainStepsCompleted ==>
          Restored(id, p) && SawAbsent(p, SecretKey(id)) && w.startTime.Some?)
    && (w.completed ==> p[0].status.mainStepsCompleted && SawAllAbsent(id, p) && w.completionTime.Some?)
  }

  /** A pass fails for lack of the shared secret only to find out what to restore, or to recreate what it restored. */
  ghost predicate LackJustified(p: RestorePass)
    requires Begun(p)
  {
    match Now(p).apiManagerToRestoreRef
    case None => true
    case Some(name) => SawAbsent(p, ClaimKey()) || SawAbsent(p, APIManagerKey(name))
  }

  ghost predicate Justified(id: Ident, p: RestorePass, e: RestoreEvent) {
    Begun(p) &&
    match e
    case PassStart(_) => false
    case Got(_, _) => true
    case LackedSecret =>
      !p[0].status.completed && !Now(p).mainStepsCompleted && SawAbsent(p, SecretKey(id)) && LackJustified(p)
    case Created(key, obj, _) => CreationJustified(id, p, key, obj)
    case Deleted(key, _) => DeletionJustified(id, p, key)
    case StatusWritten(w, _, _) => WriteJustified(id, p, w)
  }

  ghost predicate Legal(id: Ident, p: RestorePass)
    decreases |p|
  {
    Begun(p) && (|p| == 1 || (Legal(id, p[..|p| - 1]) && Justified(id, p[..|p| - 1], p[|p| - 1])))
  }

  lemma {:induction false} LegalStep(id: Ident, p: RestorePass, e: RestoreEvent)
    requires Legal(id, p) && Justified(id, p, e)
    ensures Legal(id, p + [e])
    ensures Now(p + [e]) == if e.StatusWritten? && e.applied then e.status else Now(p)
  {
  }

  lemma {:induction false} LegalAt(id: Ident, p: RestorePass, i: nat)
    requires Legal(id, p) && 0 < i < |p|
    ensures Legal(id, p[..i]) && Justified(id, p[..i], p[i])
    decreases |p|
  {
    var front := p[..|p| - 1];
    if i < |p| - 1 {
      assert front[..i] == p[..i];
      LegalAt(id, front, i);
    }
  }

  /** The calls that reconcile one object are legal if the write among them is justified. */
  lemma {:induction false} CallsLegal(id: Ident, p: RestorePass, key: Key, desired: Obj, deletion: Deletion,
                                      calls: RestorePass, ok: bool)
    requires Legal(id, p) && ReconcileCalls(key, desired, deletion, calls, ok)
    requires deletion.NotTagged? ==> forall answer ::
               answer == Got(key, NotFound) ==> CreationJustified(id, p + [answer], key, desired)
    requires !deletion.NotTagged? ==> forall answer :: DeletionJustified(id, p + [Got(key, answer)], key)
    ensures Legal(id, p + calls) && Remembers(p, p + calls) && Now(p + calls) == Now(p)
    ensures deletion.NotTagged? && ok ==> InPlace(p + calls, key)
  {
    hide CreationJustified, DeletionJustified, Legal, StatusAfter;
    hide InPlace, SawFound, SawSucceeded, SawPresent, SawAbsent;
    CallsPlace(p, key, desired, deletion, calls, ok);
    assert Begun(p) && p[0] == (p + [calls[0]])[0] by { LegalBegun(id, p); }
    LegalStep(id, p, calls[0]);
    RemembersStep(p, calls[0]);
    if |calls| == 2 {
      var mid := p + [calls[0]];
      LegalStep(id, mid, calls[1]);
      RemembersStep(mid, calls[1]);
      assert p + calls == mid + [calls[1]];
    } else {
      assert calls == [calls[0]];
    }
  }

  lemma {:induction false} LegalBegun(id: Ident, p: RestorePass)
    requires Legal(id, p)
    ensures Begun(p)
  {
  }

  lemma {:induction false} RestoredRemembered(id: Ident, p: RestorePass, p': RestorePass)
    requires Begun(p) && Begun(p') && Remembers(p, p') && Now(p') == Now(p) && Restored(id, p)
    ensures Restored(id, p')
  {
  }

  // ---------- What a pass does to the status ----------

  ghost predicate Effect(id: Ident, p: RestorePass)
    requires Begun(p)
  {
    && (p[0].status.completed ==> Now(p) == p[0].status)
    && (p[0].status.mainStepsCompleted ==> Now(p).mainStepsCompleted)
    && (p[0].status.startTime.Some? ==> Now(p).startTime == p[0].status.startTime)
    && (p[0].status.apiManagerToRestoreRef.Some? ==>
          Now(p).apiManagerToRestoreRef == p[0].status.apiManagerToRestoreRef)
    && (Now(p).apiManagerToRestoreRef.Some? && p[0].status.apiManagerToRestoreRef.None? ==>
          SawSavedName(id, p, Now(p).apiManagerToRestoreRef.value))
    && (Now(p).mainStepsCompleted && !p[0].status.mainStepsCompleted ==>
          Restored(id, p) && SawAbsent(p, SecretKey(id)) && Now(p).startTime.Some?)
    && (Now(p).completed && !p[0].status.completed ==> p[0].status.mainStepsCompleted && SawAllAbsent(id, p))
  }

  lemma {:induction false} EffectStart(id: Ident, s: RestoreStatus)
    ensures Effect(id, [PassStart(s)])
  {
    hide SawSucceeded, SawPresent, SawAbsent;
    StatusAfterStep(s, [], PassStart(s));
    assert [PassStart(s)] == [] + [PassStart(s)];
  }

  lemma {:induction false} EffectStep(id: Ident, p: RestorePass, e: RestoreEvent)
    requires Begun(p) && Effect(id, p) && Justified(id, p, e)
    ensures Effect(id, p + [e])
  {
  }

  lemma {:induction false} PassEffect(id: Ident, p: RestorePass)
    requires Legal(id, p)
    ensures Effect(id, p)
    decreases |p|
  {
    hide Effect, Justified;
    if |p| == 1 {
      EffectStart(id, p[0].status);
      assert p == [p[0]];
    } else {
      var front := p[..|p| - 1];
      PassEffect(id, front);
      EffectStep(id, front, p[|p| - 1]);
      assert p == front + [p[|p| - 1]];
    }
  }

  // ---------- Runs ----------

  /** Successive legal passes of the controller. */
  ghost predicate Run(id: Ident, first: RestoreStatus, run: seq<RestorePass>) {
    Chained(first, run) && forall n :: 0 <= n < |run| ==> Legal(id, run[n])
  }

  lemma {:induction false} RunExtends(id: Ident, first: RestoreStatus, run: seq<RestorePass>, p: RestorePass)
    requires Run(id, first, run) && Legal(id, p) && p[0].status == StatusBefore(first, run, |run|)
    ensures Run(id, first, run + [p])
    ensures StatusBefore(first, run + [p], |run| + 1) == Now(p)
  {
    ChainExtends(first, run, p);
    assert forall n :: 0 <= n < |run| ==> (run + [p])[n] == run[n];
  }

  /** What a pass of a run does to the persisted status. */
  lemma {:induction false} PassOfRun(id: Ident, first: RestoreStatus, run: seq<RestorePass>, n: nat)
    requires Run(id, first, run) && n < |run|
    ensures Legal(id, run[n]) && run[n] != [] && run[n][0] == PassStart(StatusBefore(first, run, n))
    ensures StatusBefore(first, run, n + 1) == Now(run[n])
    ensures Effect(id, run[n])
  {
    hide Legal, Effect;
    PassEffect(id, run[n]);
  }

  /** What is recorded stays recorded. */
  lemma {:induction false} RecordPersists(id: Ident, first: RestoreStatus, run: seq<RestorePass>, n: nat, m: nat)
    requires Run(id, first, run) && n <= m <= |run|
    ensures StatusBefore(first, run, n).mainStepsCompleted ==> StatusBefore(first, run, m).mainStepsCompleted
    ensures StatusBefore(first, run, n).completed ==> StatusBefore(first, run, m) == StatusBefore(first, run, n)
    ensures StatusBefore(first, run, n).startTime.Some? ==>
              StatusBefore(first, run, m).startTime == StatusBefore(first, run, n).startTime
    ensures StatusBefore(first, run, n).apiManagerToRestoreRef.Some? ==>
              StatusBefore(first, run, m).apiManagerToRestoreRef == StatusBefore(first, run, n).apiManagerToRestoreRef
    decreases m
  {
    hide Restored, SawAllAbsent, SawAbsent, StatusAfter, Legal, StatusBefore, Run;
    if n < m {
      RecordPersists(id, first, run, n, m - 1);
      PassOfRun(id, first, run, m - 1);
    }
  }

  /** Completion is absorbing: no later pass asks the cluster to change anything. */
  lemma {:induction false} CompletionAbsorbs(id: Ident, first: RestoreStatus, run: seq<RestorePass>, n: nat, m: nat,
                                             i: nat)
    requires Run(id, first, run) && n <= m < |run| && i < |run[m]|
    requires StatusBefore(first, run, n).completed
    ensures run[m][i].PassStart? || run[m][i].Got?
  {
    RecordPersists(id, first, run, n, m);
    if i > 0 { LegalAt(id, run[m], i); }
  }

  /** Once the main steps are recorded as completed, no pass creates any object again. */
  lemma {:induction false} NothingCreatedAfterMainSteps(id: Ident, first: RestoreStatus, run: seq<RestorePass>,
                                                        n: nat, m: nat, i: nat)
    requires Run(id, first, run) && n <= m < |run| && i < |run[m]|
    requires StatusBefore(first, run, n).mainStepsCompleted
    ensures !run[m][i].Created?
  {
    RecordPersists(id, first, run, n, m);
    if i > 0 {
      LegalAt(id, run[m], i);
      PassEffect(id, run[m][..i]);
    }
  }

  /** The order of the steps: what was seen, earlier in the same pass, when an object was created. */
  lemma {:induction false} CreationOrder(id: Ident, first: RestoreStatus, run: seq<RestorePass>, m: nat, i: nat)
    requires Run(id, first, run) && m < |run| && i < |run[m]| && run[m][i].Created?
    ensures Begun(run[m][..i])
    ensures run[m][i].key.kind == Job ==> Permitted(run[m][..i])
    ensures run[m][i].key == JobKey(id, SharedSecret) ==> SawDone(id, run[m][..i], SecretsAndConfigMaps)
    ensures run[m][i].key == ClaimKey() ==>
              && SourceKnown(id, run[m][..i])
              && exists o :: SawSaved(id, run[m][..i], o) && run[m][i].obj == StorageClaim(o)
    ensures run[m][i].key == JobKey(id, FileStorage) ==>
              SourceKnown(id, run[m][..i]) && SawPresent(run[m][..i], ClaimKey())
    ensures run[m][i].key.kind == APIManager ==>
              DataRestored(id, run[m][..i]) && SawSavedName(id, run[m][..i], run[m][i].key.name)
    ensures run[m][i].key == JobKey(id, ResyncDomains) ==>
              && DataRestored(id, run[m][..i])
              && SawSidekiqReady(run[m][..i], Now(run[m][..i]).apiManagerToRestoreRef.value)
  {
    LegalAt(id, run[m], i);
  }

  /** The shared secret is deleted only after the restored APIManager was read without being unavailable. */
  lemma {:induction false} SecretDeletedWhenAvailable(id: Ident, first: RestoreStatus, run: seq<RestorePass>,
                                                      m: nat, i: nat) returns (name: string, o: Obj)
    requires Run(id, first, run) && m < |run| && i < |run[m]|
    requires run[m][i].Deleted? && run[m][i].key == SecretKey(id)
    ensures Begun(run[m][..i]) && Now(run[m][..i]).apiManagerToRestoreRef == Some(name)
    ensures Got(APIManagerKey(name), Found(o)) in run[m][..i]
    ensures !(o.body.APIManagerBody? && o.body.available == Some(false))
  {
    LegalAt(id, run[m], i);
    SecretKeyIsNoJob(id);
    name := Now(run[m][..i]).apiManagerToRestoreRef.value;
    o :| SawFound(run[m][..i], APIManagerKey(name), o) && !KnownUnavailable(o);
  }

  /** A reference recorded in the course of a run was read from the shared secret in the pass that recorded it. */
  lemma {:induction false} ReferenceOrigin(id: Ident, first: RestoreStatus, run: seq<RestorePass>, n: nat)
    returns (a: nat)
    requires Run(id, first, run) && n <= |run| && first.apiManagerToRestoreRef.None?
    requires StatusBefore(first, run, n).apiManagerToRestoreRef.Some?
    ensures a < n && SawSavedName(id, run[a], StatusBefore(first, run, n).apiManagerToRestoreRef.value)
  {
    hide Legal, StatusAfter, StatusBefore, SawSavedName, Restored, SawAllAbsent, SawAbsent;
    a := FirstTime((s: RestoreStatus) => s.apiManagerToRestoreRef.Some?, first, run, n);
    PassOfRun(id, first, run, a);
    RecordPersists(id, first, run, a + 1, n);
  }

  /** No later pass up to event j of pass m finds the claim or the restored APIManager missing. */
  ghost predicate Survive(run: seq<RestorePass>, m: nat, j: nat, name: string)
    requires m < |run| && j <= |run[m]|
  {
    !SawAbsent(run[m][..j], ClaimKey()) && !SawAbsent(run[m][..j], APIManagerKey(name))
  }

  /**
     Once the shared secret was deleted, the reference to the APIManager is recorded, and as long as the claim and that
     APIManager survive no later pass fails for lack of the secret.
   */
  lemma {:induction false} SecretNoLongerNeeded(id: Ident, first: RestoreStatus, run: seq<RestorePass>,
                                                n: nat, i: nat, m: nat) returns (name: string)
    requires Run(id, first, run) && n < m < |run| && i < |run[n]|
    requires run[n][i].Deleted? && run[n][i].key == SecretKey(id)
    ensures StatusBefore(first, run, m).apiManagerToRestoreRef == Some(name)
    ensures SawPresent(run[n][..i], ClaimKey()) && SawPresent(run[n][..i], APIManagerKey(name))
    ensures forall j: nat :: j < |run[m]| && Survive(run, m, j, name) ==> !run[m][j].LackedSecret?
  {
    LegalAt(id, run[n], i);
    SecretKeyIsNoJob(id);
    name := Now(run[n][..i]).apiManagerToRestoreRef.value;
    RefStays(id, run[n], i);
    RecordPersists(id, first, run, n + 1, m);
    forall j: nat | j < |run[m]| && Survive(run, m, j, name) ensures !run[m][j].LackedSecret? {
      NotLacking(id, run[m], j, name);
    }
  }

  /** With the reference recorded, the claim and the APIManager not found missing, a pass has no use for the secret. */
  lemma {:induction false} NotLacking(id: Ident, p: RestorePass, j: nat, name: string)
    requires Legal(id, p) && j < |p| && p[0].status.apiManagerToRestoreRef == Some(name)
    requires !SawAbsent(p[..j], ClaimKey()) && !SawAbsent(p[..j], APIManagerKey(name))
    ensures !p[j].LackedSecret?
  {
    if j > 0 {
      LegalAt(id, p, j);
      PassEffect(id, p[..j]);
    }
  }

  lemma {:induction false} SecretKeyIsNoJob(id: Ident)
    ensures forall s: Step :: SecretKey(id) != JobKey(id, s)
  {
  }

  /** Within a pass a recorded reference stays. */
  lemma {:induction false} RefStays(id: Ident, p: RestorePass, i: nat)
    requires Legal(id, p) && 0 < i <= |p|
    ensures Begun(p[..i])
    ensures Now(p[..i]).apiManagerToRestoreRef.Some? ==>
              Now(p).apiManagerToRestoreRef == Now(p[..i]).apiManagerToRestoreRef
    decreases |p|
  {
    if i < |p| {
      var front := p[..|p| - 1];
      assert front[..i] == p[..i];
      RefStays(id, front, i);
      StatusAfterStep(p[0].status, front, p[|p| - 1]);
      assert p == front + [p[|p| - 1]];
    } else {
      assert p[..i] == p;
    }
  }

  /**
     A run that starts fresh and completes has a pass that saw all four jobs succeeded, the APIManager in place, ready
     for background jobs and not unavailable, and the secret gone, and a strictly later pass that saw all four jobs
     gone.
   */
  lemma {:induction false} CompletionExplained(id: Ident, first: RestoreStatus, run: seq<RestorePass>)
    returns (a: nat, b: nat)
    requires Run(id, first, run) && !first.mainStepsCompleted && !first.completed
    requires StatusBefore(first, run, |run|).completed
    ensures a < b < |run|
    ensures forall s: Step :: SawDone(id, run[a], s)
    ensures DataRestored(id, run[a]) && SawAbsent(run[a], SecretKey(id))
    ensures SawSidekiqReady(run[a], Now(run[a]).apiManagerToRestoreRef.value)
    ensures SawNotUnavailable(run[a], Now(run[a]).apiManagerToRestoreRef.value)
    ensures !StatusBefore(first, run, a).mainStepsCompleted && StatusBefore(first, run, a + 1).mainStepsCompleted
    ensures StatusBefore(first, run, a + 1).startTime.Some?
    ensures SawAllAbsent(id, run[b])
    ensures !StatusBefore(first, run, b).completed && StatusBefore(first, run, b + 1).completed
  {
    b := FirstTime((s: RestoreStatus) => s.completed, first, run, |run|);
    PassEffect(id, run[b]);
    a := FirstTime((s: RestoreStatus) => s.mainStepsCompleted, first, run, b);
    PassEffect(id, run[a]);
    forall s: Step ensures SawDone(id, run[a], s) {
      match s
      case SecretsAndConfigMaps =>
      case SharedSecret =>
      case FileStorage =>
      case ResyncDomains =>
    }
  }
}
