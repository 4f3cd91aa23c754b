/** The backup controller: a pass over the custom resource, and successive passes. */
module Backup {
  import opened Options
  import opened Kube
  import opened Jobs
  import opened BackupHistory
  import opened BackupProgress

  /** Options of a backup: the APIManager found in the namespace, and the destination claim if one is specified. */
  datatype APIManagerBackup = APIManagerBackup(apiManager: string, claim: Option<Obj>)

  function JobObject(): Obj { Obj(JobBody(0), false) }
  function PlainObject(): Obj { Obj(PlainBody, false) }

  lemma {:induction false} Singleton(names: set<string>, n: string)
    requires |names| == 1 && n in names
    ensures names == {n}
  {
    assert |names - {n}| == 0;
  }

  class BackupReconciler {
    const cluster: Cluster<BackupStatus>
    const id: Ident
    /** The destination in the specification of the custom resource. */
    const destination: Option<Obj>
    /** The custom resource in memory. */
    var cr: BackupStatus
    /** Unset when the backup has completed. */
    var apiManagerBackup: Option<APIManagerBackup>

    ghost predicate Sound()
      reads this, cluster
    {
      cluster.Valid() && Legal(id, cluster.pass)
    }

    ghost predicate Active()
      reads this, cluster
    {
      && Sound() && cr == cluster.status
      && apiManagerBackup.Some? && apiManagerBackup.value.claim.Some? && destination.Some?
      && !cluster.pass[0].status.completed && !cr.completed
    }

    ghost predicate MainPhase()
      reads this, cluster
    {
      Active() && !cluster.pass[0].status.mainStepsCompleted && !cr.mainStepsCompleted
    }

    ghost predicate PostPhase()
      reads this, cluster
    {
      Active() && cluster.pass[0].status.mainStepsCompleted && cr.mainStepsCompleted
    }

    ghost function TheConfig(): Config
      reads this
      requires apiManagerBackup.Some?
    {
      Config(id, apiManagerBackup.value.apiManager)
    }

    ghost function TheWorld(): World
      reads cluster
    {
      World(cluster.status, cluster.objects)
    }

    ghost predicate Undisturbed() {
      cluster.quiet && cluster.reliable
    }

    /** What every main step does: it keeps the pass legal, and undisturbed it makes progress or waits. */
    twostate predicate Stepped(requeue: bool, err: bool)
      reads this, cluster
      requires old(apiManagerBackup).Some?
    {
      && Sound() && Remembers(old(cluster.pass), cluster.pass) && apiManagerBackup == old(apiManagerBackup)
      && (!requeue && !err ==> MainPhase() && cr == old(cr))
      && (Undisturbed() ==>
            && !err && Advances(TheConfig(), old(TheWorld()), TheWorld())
            && (requeue && TheWorld() == old(TheWorld()) ==> Waiting(TheConfig(), TheWorld())))
    }

    constructor (cluster: Cluster<BackupStatus>, id: Ident, destination: Option<Obj>, cr: BackupStatus)
      ensures this.cluster == cluster && this.id == id && this.destination == destination
      ensures this.cr == cr && apiManagerBackup == None
    {
      this.cluster, this.id, this.destination, this.cr := cluster, id, destination, cr;
      apiManagerBackup := None;
    }

    /** Completes construction; the options are computed only if the backup has not completed. */
    method Init() returns (err: bool)
      modifies this, cluster`objects
      ensures cr == old(cr) && (cr.completed ==> !err && cluster.objects == old(cluster.objects))
      ensures !err && !cr.completed ==>
                apiManagerBackup.Some? && apiManagerBackup.value.claim.Some? && destination.Some?
      ensures cluster.quiet ==> cluster.objects == old(cluster.objects)
      ensures !err && !cr.completed && cluster.quiet ==>
                APIManagers(cluster.objects) == {apiManagerBackup.value.apiManager}
      ensures Undisturbed() && destination.Some? && |APIManagers(cluster.objects)| == 1 ==> !err
    {
      if cr.completed { return false; }
      var ok, names := cluster.ListAPIManagers();
      if !ok || |names| != 1 || destination.None? {
        return true;
      }
      var n :| n in names;
      Singleton(names, n);
      apiManagerBackup := Some(APIManagerBackup(n, destination));
      err := false;
    }

    /** One pass. */
    method Reconcile() returns (requeue: bool, err: bool)
      requires cluster.Valid() && cluster.pass == [PassStart(cluster.status)] && cr == cluster.status
      requires !cr.completed ==>
                 apiManagerBackup.Some? && apiManagerBackup.value.claim.Some? && destination.Some?
      modifies this`cr, cluster`objects, cluster`pass, cluster`status
      ensures Sound() && old(cluster.pass) <= cluster.pass
      ensures old(cr.completed) ==>
                !requeue && !err && cluster.pass == old(cluster.pass) && TheWorld() == old(TheWorld())
      ensures !requeue && !err ==> cluster.status.completed
      ensures Undisturbed() ==> !err
      ensures Undisturbed() && !old(cr.completed) ==> PassStep(TheConfig(), old(TheWorld()), TheWorld())
    {
      if cr.completed {
        return false, false;
      }
      if !cr.mainStepsCompleted {
        requeue, err := ReconcileMainSteps();
        if requeue || err { return; }
        return true, false;
      }
      requeue, err := ReconcilePostBackupSteps();
    }

    method ReconcileMainSteps() returns (requeue: bool, err: bool)
      requires MainPhase()
      modifies this`cr, cluster`objects, cluster`pass, cluster`status
      ensures Sound() && old(cluster.pass) <= cluster.pass
      ensures requeue || err
      ensures Undisturbed() ==> !err && PassStep(TheConfig(), old(TheWorld()), TheWorld())
    {
      hide Measure, Waiting, Legal, APIManagers, SawSucceeded, SawPresent, SawAbsent, SawFound, InPlace;
      requeue, err := ReconcileAPIManagerSourceStatusField();
      if requeue || err { return; }
      requeue, err := ReconcileStartTimeField();
      if requeue || err { return; }
      requeue, err := ReconcileBackupInPVCDestination();
      if requeue || err { return; }
      requeue, err := ReconcileSetMainStepsCompleted();
    }

    /** Writes the status in memory to the cluster. */
    method WriteStatus() returns (ok: bool)
      requires Sound()
      requires forall applied, done ::
                 Justified(id, cluster.pass, StatusWritten(cr, applied, done))
      modifies cluster`pass, cluster`status
      ensures Sound() && Remembers(old(cluster.pass), cluster.pass)
      ensures cluster.reliable ==> ok
      ensures ok ==> cluster.status == cr
    {
      ghost var before := cluster.pass;
      ok := cluster.UpdateStatus(cr);
      ghost var applied :| cluster.pass == before + [StatusWritten(cr, applied, ok)];
      LegalStep(id, before, StatusWritten(cr, applied, ok));
      RemembersStep(before, StatusWritten(cr, applied, ok));
    }

    method ReconcileAPIManagerSourceStatusField() returns (requeue: bool, err: bool)
      requires MainPhase()
      modifies this`cr, cluster`pass, cluster`status
      ensures Stepped(requeue, err)
      ensures !requeue && !err ==> cr.sourceName == Some(apiManagerBackup.value.apiManager)
    {
      if cr.sourceName.None? {
        cr := cr.(sourceName := Some(apiManagerBackup.value.apiManager));
        var ok := WriteStatus();
        return ok, !ok;
      }
      if cr.sourceName.value != apiManagerBackup.value.apiManager {
        cr := cr.(sourceName := Some(apiManagerBackup.value.apiManager));
        var ok := WriteStatus();
        return ok, !ok;
      }
      return false, false;
    }

    method ReconcileStartTimeField() returns (requeue: bool, err: bool)
      requires MainPhase()
      modifies this`cr, cluster`pass, cluster`status
      ensures Stepped(requeue, err)
      ensures !requeue && !err ==> cr.startTime.Some?
    {
      if cr.startTime.None? {
        var now: int := *;
        cr := cr.(startTime := Some(now));
        var ok := WriteStatus();
        return true, !ok;
      }
      return false, false;
    }

    method ReconcileBackupInPVCDestination() returns (requeue: bool, err: bool)
      requires MainPhase()
      modifies this`cr, cluster`objects, cluster`pass, cluster`status
      ensures Stepped(requeue, err)
      ensures !requeue && !err ==> SawAllSucceeded(cluster.pass, id) && cr.claimName.Some?
    {
      hide Measure, Waiting, Legal, SawSucceeded, SawPresent, SawAbsent, SawFound, InPlace;
      requeue, err := false, false;
      err := ReconcileObject(ClaimKey(id), apiManagerBackup.value.claim.value);
      if err { return; }
      requeue, err := ReconcileBackupDestinationPVCStatus();
      if requeue || err { return; }
      err := ReconcileBackupJobsPermissions();
      if err { return; }
      requeue, err := ReconcileJobs();
    }

    method ReconcileJobs() returns (requeue: bool, err: bool)
      requires MainPhase() && Equipped(cluster.pass, id)
      modifies cluster`objects, cluster`pass
      ensures Stepped(requeue, err)
      ensures !requeue && !err ==> SawAllSucceeded(cluster.pass, id)
    {
      hide Measure, Waiting, Legal, SawSucceeded, SawPresent, SawAbsent, SawFound, InPlace, JobKey;
      requeue, err := ReconcileJob(SecretsAndConfigMaps);
      if requeue || err { return; }
      requeue, err := ReconcileJob(CustomResource);
      if requeue || err { return; }
      requeue, err := ReconcileJob(FileStorage);
    }

    /** Creates one of the objects that the jobs need, unless it exists. */
    method ReconcileObject(key: Key, desired: Obj) returns (err: bool)
      requires MainPhase() && Relevant(TheConfig(), key) && key.kind != Job
      modifies cluster`objects, cluster`pass
      ensures Stepped(false, err) && (!err ==> InPlace(cluster.pass, key))
    {
      hide InPlace, SawSucceeded, SawPresent, SawAbsent, SawFound, Legal;
      ghost var before, w := cluster.pass, TheWorld();
      var ok;
      ghost var calls: BackupPass;
      ok, calls := cluster.ReconcileResource(key, desired, NotTagged);
      err := !ok;
      CallsLegal(id, before, key, desired, NotTagged, calls, ok);
      if Undisturbed() && key !in w.objects {
        CreationAdvances(TheConfig(), w, key, desired);
      }
    }

    method ReconcileBackupDestinationPVCStatus() returns (requeue: bool, err: bool)
      requires MainPhase() && InPlace(cluster.pass, ClaimKey(id))
      modifies this`cr, cluster`pass, cluster`status
      ensures Stepped(requeue, err)
      ensures !requeue && !err ==> cr.claimName.Some?
    {
      if destination.None? {
        return false, false;
      }
      if cr.claimName.None? {
        cr := cr.(claimName := Some(ClaimKey(id).name));
        var ok := WriteStatus();
        return true, !ok;
      }
      return false, false;
    }

    method ReconcileBackupJobsPermissions() returns (err: bool)
      requires MainPhase()
      modifies cluster`objects, cluster`pass
      ensures Stepped(false, err)
      ensures !err ==> InPlace(cluster.pass, AccountKey()) && InPlace(cluster.pass, RoleKey())
      ensures !err ==> InPlace(cluster.pass, BindingKey())
    {
      hide Measure, Waiting, Legal, SawSucceeded, SawPresent, SawAbsent, SawFound, InPlace;
      err := ReconcileObject(AccountKey(), PlainObject());
      if err { return; }
      err := ReconcileObject(RoleKey(), PlainObject());
      if err { return; }
      err := ReconcileObject(BindingKey(), PlainObject());
    }

    /** Creates the job of a step, or waits for it, or finds it succeeded. */
    method ReconcileJob(s: Step) returns (requeue: bool, err: bool)
      requires MainPhase() && Equipped(cluster.pass, id)
      requires forall t: Step :: Order(t) < Order(s) ==> SawSucceeded(cluster.pass, JobKey(id, t))
      requires Undisturbed() ==> forall t: Step :: Order(t) < Order(s) ==> JobDone(cluster.objects, JobKey(id, t))
      modifies cluster`objects, cluster`pass
      ensures Stepped(requeue, err)
      ensures !requeue && !err ==> SawSucceeded(cluster.pass, JobKey(id, s))
      ensures Undisturbed() && !requeue ==> TheWorld() == old(TheWorld()) && JobDone(cluster.objects, JobKey(id, s))
    {
      hide InPlace, SawPresent, SawAbsent, SawFound, Legal, StatusAfter, Measure, APIManagers;
      ghost var before, w := cluster.pass, TheWorld();
      LegalBegun(id, before);
      var key := JobKey(id, s);
      var answer := cluster.Get(key);
      LookingKeepsStatus(before, key, answer);
      LegalStep(id, before, Got(key, answer));
      RemembersStep(before, Got(key, answer));
      if answer.Failed? { return false, true; }
      if answer.NotFound? {
        ghost var mid := cluster.pass;
        var ok := cluster.Create(key, JobObject());
        JobCreationJustified(id, mid, s, JobObject(), ok);
        LegalStep(id, mid, Created(key, JobObject(), ok));
        RemembersStep(mid, Created(key, JobObject(), ok));
        if Undisturbed() {
          CreationAdvances(TheConfig(), w, key, JobObject());
        }
        return ok, !ok;
      }
      if !(answer.obj.body.JobBody? && answer.obj.body.succeeded == 1) {
        return true, false;
      }
      assert cluster.pass[|before|] == Got(key, answer);
      return false, false;
    }

    method ReconcileSetMainStepsCompleted() returns (requeue: bool, err: bool)
      requires MainPhase() && SawAllSucceeded(cluster.pass, id)
      requires cr.sourceName.Some? && cr.startTime.Some? && cr.claimName.Some?
      modifies this`cr, cluster`pass, cluster`status
      ensures Sound() && old(cluster.pass) <= cluster.pass
      ensures requeue || err
      ensures Undisturbed() ==> !err && Measure(TheConfig(), TheWorld()) < Measure(TheConfig(), old(TheWorld()))
    {
      cr := cr.(mainStepsCompleted := true);
      var ok := WriteStatus();
      return ok, !ok;
    }

    method ReconcilePostBackupSteps() returns (requeue: bool, err: bool)
      requires PostPhase()
      modifies this`cr, cluster`objects, cluster`pass, cluster`status
      ensures Sound() && old(cluster.pass) <= cluster.pass
      ensures !requeue && !err ==> cluster.status.completed
      ensures Undisturbed() ==> !err && PassStep(TheConfig(), old(TheWorld()), TheWorld())
    {
      requeue, err := ReconcileJobsCleanup();
      if requeue || err { return; }
      err := ReconcileBackupCompletion();
    }

    /** Requests the deletion of every job that still exists. */
    method ReconcileJobsCleanup() returns (requeue: bool, err: bool)
      requires PostPhase()
      modifies cluster`objects, cluster`pass
      ensures Sound() && old(cluster.pass) <= cluster.pass
      ensures !requeue && !err ==> PostPhase() && SawAllAbsent(cluster.pass, id)
      ensures Undisturbed() ==> !err && Advances(TheConfig(), old(TheWorld()), TheWorld())
      ensures Undisturbed() && requeue && TheWorld() == old(TheWorld()) ==> Waiting(TheConfig(), TheWorld())
    {
      var jobs := [SecretsAndConfigMaps, CustomResource, FileStorage];
      var existingJobFound := false;
      for n := 0 to |jobs|
        invariant PostPhase() && old(cluster.pass) <= cluster.pass
        invariant !existingJobFound ==> forall i :: 0 <= i < n ==> SawAbsent(cluster.pass, JobKey(id, jobs[i]))
        invariant Undisturbed() ==> Advances(TheConfig(), old(TheWorld()), TheWorld())
        invariant Undisturbed() && TheWorld() == old(TheWorld()) ==>
                    && (forall i :: 0 <= i < n && JobKey(id, jobs[i]) in cluster.objects
                                    ==> JobGoing(cluster.objects, JobKey(id, jobs[i])))
                    && (existingJobFound ==> exists i :: 0 <= i < n && JobKey(id, jobs[i]) in cluster.objects)
      {
        var found: bool;
        found, err := CleanUpJob(jobs[n]);
        if err { return false, true; }
        existingJobFound := existingJobFound || found;
      }
      forall s: Step
        ensures !existingJobFound ==> SawAbsent(cluster.pass, JobKey(id, s))
        ensures Undisturbed() && TheWorld() == old(TheWorld()) && JobKey(id, s) in cluster.objects
                ==> JobGoing(cluster.objects, JobKey(id, s))
      {
        assert s == jobs[Order(s)];
      }
      return existingJobFound, false;
    }

    method CleanUpJob(s: Step) returns (found: bool, err: bool)
      requires PostPhase()
      modifies cluster`objects, cluster`pass
      ensures Sound() && old(cluster.pass) <= cluster.pass
      ensures !err ==> PostPhase()
      ensures !err && !found ==> SawAbsent(cluster.pass, JobKey(id, s))
      ensures forall key :: SawAbsent(old(cluster.pass), key) ==> SawAbsent(cluster.pass, key)
      ensures Undisturbed() ==> !err && Advances(TheConfig(), old(TheWorld()), TheWorld())
      ensures Undisturbed() ==> (found <==> JobKey(id, s) in old(cluster.objects))
      ensures Undisturbed() && TheWorld() == old(TheWorld()) && found ==> JobGoing(cluster.objects, JobKey(id, s))
    {
      ghost var before, w := cluster.pass, TheWorld();
      var key := JobKey(id, s);
      var answer := cluster.Get(key);
      LegalStep(id, before, Got(key, answer));
      if answer.Failed? { return false, true; }
      if answer.NotFound? { return false, false; }
      ghost var mid := cluster.pass;
      var ok;
      ghost var calls: BackupPass;
      ok, calls := cluster.ReconcileResource(key, JobObject(), TaggedForeground);
      CallsLegal(id, mid, key, JobObject(), TaggedForeground, calls, ok);
      if Undisturbed() {
        DeletionAdvances(TheConfig(), w, s, cluster.objects);
      }
      return true, !ok;
    }

    method ReconcileBackupCompletion() returns (err: bool)
      requires PostPhase() && SawAllAbsent(cluster.pass, id)
      modifies this`cr, cluster`pass, cluster`status
      ensures Sound() && old(cluster.pass) <= cluster.pass
      ensures !err ==> cluster.status.completed
      ensures Undisturbed() ==> !err && Measure(TheConfig(), TheWorld()) < Measure(TheConfig(), old(TheWorld()))
    {
      if !cr.completed {
        var now: int := *;
        cr := cr.(completed := true, completionTime := Some(now));
        var ok := WriteStatus();
        return !ok;
      }
      return false;
    }
  }

  /**
     Successive passes of the controller over one custom resource, with whatever the environment does in between:
     their record is a run, so all that BackupHistory proves of runs holds of it.
   */
  method Operate(cluster: Cluster<BackupStatus>, id: Ident, destination: Option<Obj>, passes: nat)
    requires cluster.past == [] && cluster.pass == []
    modifies cluster
    ensures passes > 0 ==> Run(id, old(cluster.status), cluster.past + [cluster.pass])
    ensures passes > 0 ==> |cluster.past| + 1 == passes
    ensures passes > 0 ==> cluster.status == StatusBefore(old(cluster.status), cluster.past + [cluster.pass], passes)
  {
    ghost var run: seq<BackupPass> := [];
    for n := 0 to passes
      invariant |run| == n && Run(id, old(cluster.status), run)
      invariant cluster.status == StatusBefore(old(cluster.status), run, n)
      invariant n == 0 ==> cluster.past == [] && cluster.pass == []
      invariant n > 0 ==> cluster.Valid() && run == cluster.past + [cluster.pass]
    {
      var requeue, err := Pass(cluster, id, destination);
      RunExtends(id, old(cluster.status), run, cluster.pass);
      run := run + [cluster.pass];
    }
  }

  /** One pass, from reading the custom resource. */
  method Pass(cluster: Cluster<BackupStatus>, id: Ident, destination: Option<Obj>)
    returns (requeue: bool, err: bool)
    modifies cluster
    ensures cluster.Valid() && Legal(id, cluster.pass) && cluster.pass[0].status == old(cluster.status)
    ensures cluster.past == if old(cluster.pass) == [] then old(cluster.past)
            else old(cluster.past) + [old(cluster.pass)]
    ensures cluster.quiet && cluster.reliable && destination.Some? ==>
              && (|APIManagers(old(cluster.objects))| == 1 ==> !err)
              && forall source ::
                   PassStep(Config(id, source), World(old(cluster.status), old(cluster.objects)),
                            World(cluster.status, cluster.objects))
  {
    cluster.Interfere();
    var cr := cluster.Begin();
    var reconciler := new BackupReconciler(cluster, id, destination, cr);
    err := reconciler.Init();
    requeue := false;
    if !err {
      requeue, err := reconciler.Reconcile();
    }
  }
}
