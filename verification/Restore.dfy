/** The restore controller: a pass over the custom resource, and successive passes. */
module Restore {
  import opened Options
  import opened Kube
  import opened Jobs
  import opened RestoreHistory
  import opened RestoreProgress

  class RestoreReconciler {
    const cluster: Cluster<RestoreStatus>
    const id: Ident
    /** The custom resource in memory. */
    var cr: RestoreStatus
    /** What the backup holds; the program learns it from the shared secret only. */
    ghost const saved: SavedAPIManager
    /** Nothing interferes with the pass, and it started from a world from which a restore can go on. */
    ghost const calm: bool

    ghost predicate Sound()
      reads this, cluster
    {
      cluster.Valid() && Legal(id, cluster.pass)
    }

    ghost predicate Active()
      reads this, cluster
    {
      Sound() && Intact() && cr == cluster.status && !cluster.pass[0].status.completed && !cr.completed
    }

    ghost predicate MainPhase()
      reads this, cluster
    {
      Active() && !cluster.pass[0].status.mainStepsCompleted && !cr.mainStepsCompleted
    }

    ghost predicate PostPhase()
      reads this, cluster
    {
      Active() && cluster.pass[0].status.mainStepsCompleted && cr.mainStepsCompleted
    }

    ghost function TheConfig(): Config {
      Config(id, saved)
    }

    ghost function TheWorld(): World
      reads cluster
    {
      World(cluster.status, cluster.objects)
    }

    /** If nothing interferes with the pass, the world is one from which a restore can go on. */
    ghost predicate Intact()
      reads cluster
    {
      calm ==> cluster.quiet && cluster.reliable && Healthy(TheConfig(), TheWorld())
    }

    /** What every main step does: it keeps the pass legal, and undisturbed it makes progress or waits. */
    twostate predicate Stepped(requeue: bool, err: bool)
      reads this, cluster
    {
      && Sound() && Intact() && Remembers(old(cluster.pass), cluster.pass)
      && (!requeue && !err ==> MainPhase() && cr.startTime == old(cr.startTime))
      && (calm ==>
            && !err && Advances(TheConfig(), old(TheWorld()), TheWorld())
            && (requeue && TheWorld() == old(TheWorld()) ==> Waiting(TheConfig(), TheWorld())))
    }

    constructor (cluster: Cluster<RestoreStatus>, id: Ident, cr: RestoreStatus, ghost saved: SavedAPIManager)
      ensures this.cluster == cluster && this.id == id && this.cr == cr && this.saved == saved
      ensures calm <==> cluster.quiet && cluster.reliable && Healthy(TheConfig(), TheWorld())
    {
      this.cluster, this.id, this.cr, this.saved := cluster, id, cr, saved;
      calm := cluster.quiet && cluster.reliable
              && Healthy(Config(id, saved), World(cluster.status, cluster.objects));
    }

    // ---------- Calls ----------

    /** Looks an object up. */
    method Look(key: Key) returns (answer: Answer)
      requires Sound()
      modifies cluster`objects, cluster`pass
      ensures Sound() && Remembers(old(cluster.pass), cluster.pass) && Now(cluster.pass) == Now(old(cluster.pass))
      ensures cluster.pass == old(cluster.pass) + [Got(key, answer)]
      ensures answer.NotFound? ==> SawAbsent(cluster.pass, key)
      ensures answer.Found? ==> SawPresent(cluster.pass, key) && SawFound(cluster.pass, key, answer.obj)
      ensures answer.Found? && Succeeded(answer.obj) ==> SawSucceeded(cluster.pass, key)
      ensures cluster.quiet ==> cluster.objects == old(cluster.objects)
      ensures cluster.quiet ==> (answer.Found? ==> key in cluster.objects && cluster.objects[key] == answer.obj)
      ensures cluster.quiet ==> (answer.NotFound? ==> key !in cluster.objects)
      ensures cluster.reliable ==> !answer.Failed?
    {
      ghost var before := cluster.pass;
      answer := cluster.Get(key);
      LegalStep(id, before, Got(key, answer));
      RemembersStep(before, Got(key, answer));
      assert cluster.pass[|before|] == Got(key, answer);
    }

    method Create(key: Key, obj: Obj) returns (ok: bool)
      requires Sound() && CreationJustified(id, cluster.pass, key, obj)
      modifies cluster`objects, cluster`pass
      ensures Sound() && Remembers(old(cluster.pass), cluster.pass) && Now(cluster.pass) == Now(old(cluster.pass))
      ensures cluster.quiet && cluster.reliable && key !in old(cluster.objects) ==>
                ok && cluster.objects == old(cluster.objects)[key := obj]
    {
      ghost var before := cluster.pass;
      ok := cluster.Create(key, obj);
      LegalStep(id, before, Created(key, obj, ok));
      RemembersStep(before, Created(key, obj, ok));
    }

    /** Writes the status in memory to the cluster. */
    method WriteStatus() returns (ok: bool)
      requires Sound() && WriteJustified(id, cluster.pass, cr)
      modifies cluster`pass, cluster`status
      ensures Sound() && Remembers(old(cluster.pass), cluster.pass)
      ensures cluster.reliable ==> ok
      ensures ok ==> cluster.status == cr
    {
      ghost var before := cluster.pass;
      ok := cluster.UpdateStatus(cr);
      ghost var applied :| cluster.pass == before + [StatusWritten(cr, applied, ok)];
      LegalStep(id, before, StatusWritten(cr, applied, ok));
      RemembersStep(before, StatusWritten(cr, applied, ok));
    }

    /** Reconciles one object, of which the calls it may lead to are justified. */
    method ReconcileResource(key: Key, desired: Obj, deletion: Deletion) returns (ok: bool)
      requires Sound()
      requires deletion.NotTagged? ==> forall answer ::
                 answer == Got(key, NotFound) ==> CreationJustified(id, cluster.pass + [answer], key, desired)
      requires !deletion.NotTagged? ==> forall answer ::
                 DeletionJustified(id, cluster.pass + [Got(key, answer)], key)
      modifies cluster`objects, cluster`pass
      ensures Sound() && Remembers(old(cluster.pass), cluster.pass) && Now(cluster.pass) == Now(old(cluster.pass))
      ensures deletion.NotTagged? && ok ==> InPlace(cluster.pass, key)
      ensures cluster.quiet && cluster.reliable ==> ok
      ensures cluster.quiet && ok && deletion.NotTagged? ==>
                cluster.objects == if key in old(cluster.objects) then old(cluster.objects)
                                   else old(cluster.objects)[key := desired]
      ensures cluster.quiet && ok && !deletion.NotTagged? && key !in old(cluster.objects) ==>
                cluster.objects == old(cluster.objects)
      ensures cluster.quiet && ok && !deletion.NotTagged? && key in old(cluster.objects) ==>
                cluster.objects == old(cluster.objects) - {key}
                || cluster.objects == old(cluster.objects)[key := old(cluster.objects)[key].(deleting := true)]
    {
      hide Justified, Legal, CreationJustified, DeletionJustified, Remembers, ReconcileCalls, StatusAfter, InPlace;
      ghost var before := cluster.pass;
      ghost var calls: RestorePass;
      ok, calls := cluster.ReconcileResource(key, desired, deletion);
      CallsLegal(id, before, key, desired, deletion, calls, ok);
    }

    // ---------- The pass ----------

    method Reconcile() returns (requeue: bool, err: bool)
      requires cluster.Valid() && cluster.pass == [PassStart(cluster.status)] && cr == cluster.status && Intact()
      modifies this`cr, cluster`objects, cluster`pass, cluster`status
      ensures Sound() && old(cluster.pass) <= cluster.pass
      ensures old(cr.completed) ==>
                !requeue && !err && cluster.pass == old(cluster.pass) && TheWorld() == old(TheWorld())
      ensures !requeue && !err ==> cluster.status.completed
      ensures calm ==> !err && PassStep(TheConfig(), old(TheWorld()), TheWorld())
    {
      if cr.completed {
        return false, false;
      }
      if !cr.mainStepsCompleted {
        requeue, err := ReconcileMainSteps();
        if requeue || err { return; }
        return true, false;
      }
      requeue, err := ReconcilePostRestoreSteps();
    }

    method ReconcileMainSteps() returns (requeue: bool, err: bool)
      requires MainPhase()
      modifies this`cr, cluster`objects, cluster`pass, cluster`status
      ensures Sound() && old(cluster.pass) <= cluster.pass
      ensures requeue || err
      ensures calm ==> !err && PassStep(TheConfig(), old(TheWorld()), TheWorld())
    {
      hide Measure, Healthy, Waiting, Legal;
      requeue, err := ReconcileStartTimeField();
      if requeue || err { return; }
      requeue, err := ReconcileRestoreFromPVCSource();
      if requeue || err { return; }
      requeue, err := ReconcileSetMainStepsCompleted();
    }

    method ReconcileStartTimeField() returns (requeue: bool, err: bool)
      requires MainPhase()
      modifies this`cr, cluster`pass, cluster`status
      ensures Stepped(requeue, err)
      ensures !requeue && !err ==> cr.startTime.Some?
    {
      if cr.startTime.None? {
        var now: int := *;
        cr := cr.(startTime := Some(now));
        var ok := WriteStatus();
        return true, !ok;
      }
      return false, false;
    }

    method ReconcileRestoreFromPVCSource() returns (requeue: bool, err: bool)
      requires MainPhase()
      modifies this`cr, cluster`objects, cluster`pass, cluster`status
      ensures Stepped(requeue, err)
      ensures !requeue && !err ==> Restored(id, cluster.pass) && SawAbsent(cluster.pass, SecretKey(id))
    {
      hide Measure, Healthy, Waiting, Legal, SawSucceeded, SawPresent, SawAbsent, SawFound, InPlace, BlockedOn, JobKey;
      requeue := false;
      err := ReconcileRestoreJobsPermissions();
      if err { return; }
      requeue, err := ReconcileJob(SecretsAndConfigMaps);
      if requeue || err { return; }
      requeue, err := ReconcileRestoreAPIManagerInSharedSecret();
      if requeue || err { return; }
      requeue, err := ReconcileRestoreSystemFileStoragePVCFromPVCJob();
      if requeue || err { return; }
      requeue, err := ReconcileRestoredAPIManager();
    }

    /** The steps that concern the restored APIManager itself. */
    method ReconcileRestoredAPIManager() returns (requeue: bool, err: bool)
      requires MainPhase() && Permitted(cluster.pass) && DataRestored(id, cluster.pass)
      requires calm ==> ClaimKey() in cluster.objects
      modifies cluster`objects, cluster`pass
      ensures Stepped(requeue, err)
      ensures !requeue && !err ==> Restored(id, cluster.pass) && SawAbsent(cluster.pass, SecretKey(id))
    {
      hide Measure, Healthy, Waiting, Legal, SawSucceeded, SawPresent, BlockedOn, JobKey;
      requeue := false;
      err := ReconcileRestoreAPIManager();
      if err { return; }
      requeue, err := ReconcileResynchronizeZyncDomains();
      if requeue || err { return; }
      requeue, err := ReconcileWaitForAPIManagerReady();
      if requeue || err { return; }
      requeue, err := ReconcileAPIManagerBackupSharedInSecretCleanup();
    }

    /** Creates one of the objects that the jobs need, unless it exists. */
    method ReconcileObject(key: Key) returns (err: bool)
      requires MainPhase() && key in {AccountKey(), RoleKey(), BindingKey()}
      modifies cluster`objects, cluster`pass
      ensures Stepped(false, err) && (!err ==> InPlace(cluster.pass, key))
    {
      ghost var w := TheWorld();
      forall answer | answer == Got(key, NotFound)
        ensures CreationJustified(id, cluster.pass + [answer], key, PlainObject())
      {
        LegalStep(id, cluster.pass, answer);
      }
      var ok := ReconcileResource(key, PlainObject(), NotTagged);
      err := !ok;
      if calm && key !in w.objects {
        CreationAdvances(TheConfig(), w, key, PlainObject());
      }
    }

    method ReconcileRestoreJobsPermissions() returns (err: bool)
      requires MainPhase()
      modifies cluster`objects, cluster`pass
      ensures Stepped(false, err) && (!err ==> Permitted(cluster.pass))
    {
      hide Measure, Healthy, Waiting, Legal, SawSucceeded, SawPresent, InPlace, SawFound;
      err := ReconcileObject(AccountKey());
      if err { return; }
      err := ReconcileObject(RoleKey());
      if err { return; }
      err := ReconcileObject(BindingKey());
    }

    /** Creates the job of a step, or waits for it, or finds it succeeded. */
    method ReconcileJob(s: Step) returns (requeue: bool, err: bool)
      requires MainPhase()
      requires JobInTurn(id, cluster.pass, s)
      modifies cluster`objects, cluster`pass
      ensures Stepped(requeue, err) && Now(cluster.pass) == Now(old(cluster.pass))
      ensures !requeue && !err ==> SawDone(id, cluster.pass, s)
      ensures calm && !requeue ==> TheWorld() == old(TheWorld())
    {
      hide Legal, Justified, CreationJustified, JobInTurn, InPlace, SawPresent, SawAbsent, SawFound, StatusAfter;
      ghost var before, w := cluster.pass, TheWorld();
      var key := JobKey(id, s);
      var answer := Look(key);
      if answer.Failed? { return false, true; }
      if answer.NotFound? {
        InTurnJustified(id, before, cluster.pass, s);
        var ok := Create(key, JobObject());
        if calm {
          JobCreationAdvances(TheConfig(), w, s, JobObject());
        }
        return ok, !ok;
      }
      if !(answer.obj.body.JobBody? && answer.obj.body.succeeded == 1) {
        assert calm ==> BlockedOn(TheConfig(), TheWorld(), Unfinished(s));
        return true, false;
      }
      return false, false;
    }

    /** The shared secret: nothing, or an error, or the APIManager in it. */
    method SharedBackupSecret() returns (ok: bool, secret: Option<Option<SavedAPIManager>>)
      requires Sound() && Intact()
      modifies cluster`objects, cluster`pass
      ensures Sound() && Remembers(old(cluster.pass), cluster.pass) && Now(cluster.pass) == Now(old(cluster.pass))
      ensures ok && secret.None? ==> SawAbsent(cluster.pass, SecretKey(id))
      ensures !ok || secret.Some? ==> cluster.pass[|cluster.pass| - 1] != Got(SecretKey(id), NotFound)
      ensures ok && secret.Some? && secret.value.Some? ==> SawSaved(id, cluster.pass, secret.value.value)
      ensures calm ==> ok && TheWorld() == old(TheWorld())
      ensures calm ==> secret == if SecretKey(id) in cluster.objects then Some(Some(saved)) else None
    {
      var answer := Look(SecretKey(id));
      match answer
      case Failed => return false, None;
      case NotFound => return true, None;
      case Found(obj) =>
        if obj.body.SecretBody? && obj.body.data.Some? {
          return true, Some(obj.body.data.value);
        }
        return false, None;
    }

    method APIManagerFromSharedBackupSecret() returns (ok: bool, apimanager: SavedAPIManager)
      requires MainPhase()
      requires LackJustified(cluster.pass)
      modifies cluster`objects, cluster`pass
      ensures Sound() && Remembers(old(cluster.pass), cluster.pass) && Now(cluster.pass) == Now(old(cluster.pass))
      ensures ok ==> SawSaved(id, cluster.pass, apimanager)
      ensures !ok ==> cluster.pass[|cluster.pass| - 1] != Got(SecretKey(id), NotFound)
      ensures calm ==> TheWorld() == old(TheWorld())
      ensures calm && SecretKey(id) in cluster.objects ==> ok && apimanager == saved
    {
      apimanager := SavedAPIManager("", None);
      var secret;
      ok, secret := SharedBackupSecret();
      if !ok { return; }
      if secret.None? {
        ghost var before := cluster.pass;
        cluster.Record(LackedSecret);
        LegalStep(id, before, LackedSecret);
        RemembersStep(before, LackedSecret);
        return false, apimanager;
      }
      if secret.value.None? { return false, apimanager; }
      apimanager := secret.value.value;
    }

    method ReconcileRestoreAPIManagerInSharedSecret() returns (requeue: bool, err: bool)
      requires MainPhase() && Permitted(cluster.pass) && SawDone(id, cluster.pass, SecretsAndConfigMaps)
      modifies this`cr, cluster`objects, cluster`pass, cluster`status
      ensures Stepped(requeue, err)
      ensures !requeue && !err ==> SourceKnown(id, cluster.pass)
    {
      requeue, err := ReconcileJob(SharedSecret);
      if requeue || err { return; }
      if cr.apiManagerToRestoreRef.None? {
        requeue, err := RecordAPIManagerToRestore();
      }
    }

    method RecordAPIManagerToRestore() returns (requeue: bool, err: bool)
      requires MainPhase() && cr.apiManagerToRestoreRef.None?
      modifies this`cr, cluster`objects, cluster`pass, cluster`status
      ensures Stepped(requeue, err)
      ensures !requeue && !err ==> cr.apiManagerToRestoreRef.Some?
    {
      var ok, secret := SharedBackupSecret();
      if !ok { return false, true; }
      if secret.None? {
        assert calm ==> BlockedOn(TheConfig(), TheWorld(), NoSecretYet);
        return true, false;
      }
      var apimanager;
      ok, apimanager := APIManagerFromSharedBackupSecret();
      if !ok { return false, true; }
      cr := cr.(apiManagerToRestoreRef := Some(apimanager.name));
      ok := WriteStatus();
      return false, !ok;
    }

    method ReconcileSystemStoragePVC() returns (requeue: bool, err: bool)
      requires MainPhase() && SourceKnown(id, cluster.pass)
      modifies cluster`objects, cluster`pass
      ensures Stepped(requeue, err) && Now(cluster.pass) == Now(old(cluster.pass))
      ensures !requeue && !err ==> SawPresent(cluster.pass, ClaimKey())
      ensures calm && !requeue ==> TheWorld() == old(TheWorld()) && ClaimKey() in cluster.objects
    {
      ghost var before, w := cluster.pass, TheWorld();
      var answer := Look(ClaimKey());
      if answer.Failed? { return false, true; }
      if answer.NotFound? {
        var ok := CreateSystemStoragePVC();
        return ok, !ok;
      }
      return false, false;
    }

    /** Creates the claim with the storage class of the APIManager in the secret. */
    method CreateSystemStoragePVC() returns (ok: bool)
      requires MainPhase() && SourceKnown(id, cluster.pass) && SawAbsent(cluster.pass, ClaimKey())
      requires calm ==> ClaimKey() !in cluster.objects
      modifies cluster`objects, cluster`pass
      ensures Sound() && Remembers(old(cluster.pass), cluster.pass) && Now(cluster.pass) == Now(old(cluster.pass))
      ensures calm ==> ok && cluster.objects == old(cluster.objects)[ClaimKey() := StorageClaim(saved)]
      ensures calm ==> Advances(TheConfig(), old(TheWorld()), TheWorld())
    {
      hide Justified, Legal, CreationJustified, StatusAfter, SawSucceeded, SawPresent, SawAbsent, SawFound, InPlace;
      ghost var w := TheWorld();
      var apimanager;
      ok, apimanager := APIManagerFromSharedBackupSecret();
      if !ok { return; }
      forall got | got == Got(ClaimKey(), NotFound)
        ensures CreationJustified(id, cluster.pass + [got], ClaimKey(), StorageClaim(apimanager))
      {
        ClaimJustified(id, cluster.pass, got, apimanager);
      }
      ok := ReconcileResource(ClaimKey(), StorageClaim(apimanager), NotTagged);
      if calm {
        CreationAdvances(TheConfig(), w, ClaimKey(), StorageClaim(apimanager));
      }
    }

    method ReconcileRestoreSystemFileStoragePVCFromPVCJob() returns (requeue: bool, err: bool)
      requires MainPhase() && Permitted(cluster.pass) && SourceKnown(id, cluster.pass)
      modifies cluster`objects, cluster`pass
      ensures Stepped(requeue, err)
      ensures !requeue && !err ==> DataRestored(id, cluster.pass)
      ensures calm && !requeue ==> ClaimKey() in cluster.objects
    {
      requeue, err := ReconcileSystemStoragePVC();
      if requeue || err { return; }
      requeue, err := ReconcileJob(FileStorage);
    }

    /** The reference was recorded by an earlier step, so it is read without a check. */
    method ReconcileRestoreAPIManager() returns (err: bool)
      requires MainPhase() && DataRestored(id, cluster.pass)
      modifies cluster`objects, cluster`pass
      ensures Stepped(false, err) && Now(cluster.pass) == Now(old(cluster.pass))
      ensures calm ==> TheAPIManager(TheConfig()) in cluster.objects
      ensures calm ==> forall key :: key in old(cluster.objects) ==> key in cluster.objects
    {
      hide Legal, Justified, CreationJustified, InPlace, SawPresent, SawAbsent, SawFound, SawSucceeded, StatusAfter;
      hide Measure, Waiting;
      ghost var before, w := cluster.pass, TheWorld();
      var name := cr.apiManagerToRestoreRef.value;
      var answer := Look(APIManagerKey(name));
      if answer.Failed? { return true; }
      if answer.Found? { return false; }
      var ok := CreateAPIManager();
      return !ok;
    }

    /** Creates the APIManager found in the secret. */
    method CreateAPIManager() returns (ok: bool)
      requires MainPhase() && DataRestored(id, cluster.pass)
      requires SawAbsent(cluster.pass, APIManagerKey(Now(cluster.pass).apiManagerToRestoreRef.value))
      requires calm ==> TheAPIManager(TheConfig()) !in cluster.objects
      modifies cluster`objects, cluster`pass
      ensures Sound() && Remembers(old(cluster.pass), cluster.pass) && Now(cluster.pass) == Now(old(cluster.pass))
      ensures calm ==> ok && cluster.objects == old(cluster.objects)[TheAPIManager(TheConfig()) := NewAPIManager()]
      ensures calm ==> Advances(TheConfig(), old(TheWorld()), TheWorld())
    {
      hide Justified, Legal, CreationJustified, StatusAfter, SawSucceeded, SawPresent, SawAbsent, SawFound, InPlace;
      ghost var w := TheWorld();
      var apimanager;
      ok, apimanager := APIManagerFromSharedBackupSecret();
      if !ok { return; }
      var key := APIManagerKey(apimanager.name);
      forall got | got == Got(key, NotFound)
        ensures CreationJustified(id, cluster.pass + [got], key, NewAPIManager())
      {
        APIManagerJustified(id, cluster.pass, key, got);
      }
      ok := ReconcileResource(key, NewAPIManager(), NotTagged);
      if calm {
        APIManagerCreationAdvances(TheConfig(), w, NewAPIManager());
      }
    }

    method ReconcileResynchronizeZyncDomains() returns (requeue: bool, err: bool)
      requires MainPhase() && Permitted(cluster.pass) && DataRestored(id, cluster.pass)
      requires calm ==> TheAPIManager(TheConfig()) in cluster.objects
      modifies cluster`objects, cluster`pass
      ensures Stepped(requeue, err) && Now(cluster.pass) == Now(old(cluster.pass))
      ensures !requeue && !err ==> APIManagerRuns(id, cluster.pass) && SawDone(id, cluster.pass, ResyncDomains)
      ensures calm && !requeue ==> TheWorld() == old(TheWorld())
    {
      hide Measure, Waiting, Justified, Legal, SawSucceeded, SawAbsent;
      requeue, err := WaitForSystemSidekiq();
      if requeue || err { return; }
      requeue, err := ReconcileJob(ResyncDomains);
    }

    method WaitForSystemSidekiq() returns (requeue: bool, err: bool)
      requires MainPhase() && DataRestored(id, cluster.pass)
      requires calm ==> TheAPIManager(TheConfig()) in cluster.objects
      modifies cluster`objects, cluster`pass
      ensures Stepped(requeue, err) && Now(cluster.pass) == Now(old(cluster.pass))
      ensures !requeue && !err ==> APIManagerRuns(id, cluster.pass)
      ensures calm && !requeue ==> TheWorld() == old(TheWorld())
    {
      var name := cr.apiManagerToRestoreRef.value;
      var answer := Look(APIManagerKey(name));
      if answer.Failed? { return false, true; }
      if answer.NotFound? { return true, false; }
      if !(answer.obj.body.APIManagerBody? && "system-sidekiq" in answer.obj.body.readyDeployments) {
        assert calm ==> BlockedOn(TheConfig(), TheWorld(), SidekiqNotReady);
        return true, false;
      }
      return false, false;
    }

    method ReconcileWaitForAPIManagerReady() returns (requeue: bool, err: bool)
      requires MainPhase() && DataRestored(id, cluster.pass)
      requires calm ==> TheAPIManager(TheConfig()) in cluster.objects
      modifies cluster`objects, cluster`pass
      ensures Stepped(requeue, err) && Now(cluster.pass) == Now(old(cluster.pass))
      ensures !requeue && !err ==> SawNotUnavailable(cluster.pass, Now(cluster.pass).apiManagerToRestoreRef.value)
      ensures calm && !requeue ==> TheWorld() == old(TheWorld())
    {
      var name := cr.apiManagerToRestoreRef.value;
      var answer := Look(APIManagerKey(name));
      if answer.Failed? { return false, true; }
      if answer.NotFound? { return true, false; }
      if answer.obj.body.APIManagerBody? && answer.obj.body.available == Some(false) {
        assert calm ==> BlockedOn(TheConfig(), TheWorld(), NotAvailable);
        return true, false;
      }
      return false, false;
    }

    /** Deletes the shared secret and goes on only when it is gone. */
    method ReconcileAPIManagerBackupSharedInSecretCleanup() returns (requeue: bool, err: bool)
      requires MainPhase() && Restored(id, cluster.pass)
      requires calm ==> ClaimKey() in cluster.objects && TheAPIManager(TheConfig()) in cluster.objects
      modifies cluster`objects, cluster`pass
      ensures Stepped(requeue, err) && Now(cluster.pass) == Now(old(cluster.pass))
      ensures !requeue && !err ==> SawAbsent(cluster.pass, SecretKey(id))
    {
      hide Measure, Justified, Legal, Waiting, BlockedOn, Restored, SawAbsent;
      ghost var before := cluster.pass;
      var ok, secret := SharedBackupSecret();
      if !ok { return false, true; }
      if secret.None? { return false, false; }
      RestoredRemembered(id, before, cluster.pass);
      ok := DeleteSharedSecret();
      if !ok { return false, true; }
      requeue, err := CheckSharedSecretGone();
    }

    method CheckSharedSecretGone() returns (requeue: bool, err: bool)
      requires MainPhase()
      modifies cluster`objects, cluster`pass
      ensures Sound() && Remembers(old(cluster.pass), cluster.pass) && Now(cluster.pass) == Now(old(cluster.pass))
      ensures !requeue && !err ==> SawAbsent(cluster.pass, SecretKey(id))
      ensures calm ==> !err && TheWorld() == old(TheWorld())
    {
      var answer := Look(SecretKey(id));
      return answer.Found?, answer.Failed?;
    }

    method DeleteSharedSecret() returns (ok: bool)
      requires MainPhase() && Restored(id, cluster.pass)
      requires calm ==> ClaimKey() in cluster.objects && TheAPIManager(TheConfig()) in cluster.objects
      requires calm ==> SecretKey(id) in cluster.objects
      modifies cluster`objects, cluster`pass
      ensures Sound() && Remembers(old(cluster.pass), cluster.pass) && Now(cluster.pass) == Now(old(cluster.pass))
      ensures calm ==> ok && Advances(TheConfig(), old(TheWorld()), TheWorld())
      ensures calm && TheWorld() == old(TheWorld()) ==> Waiting(TheConfig(), TheWorld())
    {
      ghost var w := TheWorld();
      forall answer ensures DeletionJustified(id, cluster.pass + [Got(SecretKey(id), answer)], SecretKey(id)) {
        SecretDeletionJustified(id, cluster.pass, Got(SecretKey(id), answer));
      }
      hide Justified, Legal, DeletionJustified;
      ok := ReconcileResource(SecretKey(id), PlainObject(), Tagged);
      if calm {
        SecretDeletionAdvances(TheConfig(), w, cluster.objects);
      }
    }

    method ReconcileSetMainStepsCompleted() returns (requeue: bool, err: bool)
      requires MainPhase() && Restored(id, cluster.pass) && SawAbsent(cluster.pass, SecretKey(id))
      requires cr.startTime.Some?
      modifies this`cr, cluster`pass, cluster`status
      ensures Sound() && old(cluster.pass) <= cluster.pass
      ensures requeue || err
      ensures calm ==>
                && !err && Healthy(TheConfig(), TheWorld())
                && Measure(TheConfig(), TheWorld()) < Measure(TheConfig(), old(TheWorld()))
    {
      cr := cr.(mainStepsCompleted := true);
      var ok := WriteStatus();
      return ok, !ok;
    }

    // ---------- After the main steps ----------

    method ReconcilePostRestoreSteps() returns (requeue: bool, err: bool)
      requires PostPhase()
      modifies this`cr, cluster`objects, cluster`pass, cluster`status
      ensures Sound() && old(cluster.pass) <= cluster.pass
      ensures !requeue && !err ==> cluster.status.completed
      ensures calm ==> !err && PassStep(TheConfig(), old(TheWorld()), TheWorld())
    {
      hide Measure, Healthy, Waiting, Legal;
      requeue, err := ReconcileJobsCleanup();
      if requeue || err { return; }
      err := ReconcileRestoreCompletion();
    }

    /** Requests the deletion of every job that still exists. */
    method ReconcileJobsCleanup() returns (requeue: bool, err: bool)
      requires PostPhase()
      modifies cluster`objects, cluster`pass
      ensures Sound() && old(cluster.pass) <= cluster.pass
      ensures !requeue && !err ==> PostPhase() && SawAllAbsent(id, cluster.pass)
      ensures calm ==> !err && Advances(TheConfig(), old(TheWorld()), TheWorld())
      ensures calm && requeue && TheWorld() == old(TheWorld()) ==> Waiting(TheConfig(), TheWorld())
    {
      hide Measure, Healthy, Legal;
      var jobs := [SecretsAndConfigMaps, FileStorage, SharedSecret, ResyncDomains];
      var existingJobFound := false;
      for n := 0 to |jobs|
        invariant PostPhase() && old(cluster.pass) <= cluster.pass
        invariant !existingJobFound ==> forall i :: 0 <= i < n ==> SawAbsent(cluster.pass, JobKey(id, jobs[i]))
        invariant calm ==> Advances(TheConfig(), old(TheWorld()), TheWorld())
        invariant calm && TheWorld() == old(TheWorld()) && existingJobFound ==>
                    Waiting(TheConfig(), TheWorld())
      {
        var found: bool;
        found, err := CleanUpJob(jobs[n]);
        if err { return false, true; }
        existingJobFound := existingJobFound || found;
      }
      forall s: Step ensures !existingJobFound ==> SawAbsent(cluster.pass, JobKey(id, s)) {
        assert s == jobs[match s case SecretsAndConfigMaps => 0 case FileStorage => 1 case SharedSecret => 2
                         case ResyncDomains => 3];
      }
      return existingJobFound, false;
    }

    method CleanUpJob(s: Step) returns (found: bool, err: bool)
      requires PostPhase()
      modifies cluster`objects, cluster`pass
      ensures Sound() && Remembers(old(cluster.pass), cluster.pass)
      ensures !err ==> PostPhase()
      ensures !err && !found ==> SawAbsent(cluster.pass, JobKey(id, s))
      ensures calm ==> !err && Advances(TheConfig(), old(TheWorld()), TheWorld())
      ensures calm && TheWorld() == old(TheWorld()) && found ==> Waiting(TheConfig(), TheWorld())
    {
      ghost var w := TheWorld();
      var key := JobKey(id, s);
      var answer := Look(key);
      if answer.Failed? { return false, true; }
      if answer.NotFound? { return false, false; }
      SecretKeyIsNoJob(id);
      forall got ensures DeletionJustified(id, cluster.pass + [Got(key, got)], key) {
        LegalStep(id, cluster.pass, Got(key, got));
      }
      var ok := ReconcileResource(key, JobObject(), TaggedForeground);
      if calm {
        JobDeletionAdvances(TheConfig(), w, s, cluster.objects);
        assert cluster.objects == w.objects ==> BlockedOn(TheConfig(), TheWorld(), Unfinished(s));
      }
      return true, !ok;
    }

    method ReconcileRestoreCompletion() returns (err: bool)
      requires PostPhase() && SawAllAbsent(id, cluster.pass)
      modifies this`cr, cluster`pass, cluster`status
      ensures Sound() && old(cluster.pass) <= cluster.pass
      ensures !err ==> cluster.status.completed
      ensures calm ==>
                && !err && Healthy(TheConfig(), TheWorld())
                && Measure(TheConfig(), TheWorld()) < Measure(TheConfig(), old(TheWorld()))
    {
      if !cr.completed {
        var now: int := *;
        cr := cr.(completed := true, completionTime := Some(now));
        var ok := WriteStatus();
        return !ok;
      }
      return false;
    }
  }

  /** What a job presupposes besides the main steps being under way. */
  ghost predicate JobInTurn(id: Ident, p: RestorePass, s: Step)
    requires Begun(p)
  {
    Permitted(p) &&
    match s
    case SecretsAndConfigMaps => true
    case SharedSecret => SawDone(id, p, SecretsAndConfigMaps)
    case FileStorage => SourceKnown(id, p) && SawPresent(p, ClaimKey())
    case ResyncDomains => APIManagerRuns(id, p)
  }

  lemma {:induction false} InTurnJustified(id: Ident, p: RestorePass, q: RestorePass, s: Step)
    requires Begun(p) && Begun(q) && JobInTurn(id, p, s)
    requires Remembers(p, q) && Now(q) == Now(p)
    requires !Now(q).mainStepsCompleted && !q[0].status.completed
    ensures CreationJustified(id, q, JobKey(id, s), JobObject())
  {
    hide InPlace, SawFound, SawSucceeded, SawPresent, SawAbsent;
    JobsDistinct(id, s, SharedSecret);
    JobsDistinct(id, s, FileStorage);
    JobsDistinct(id, s, ResyncDomains);
  }

  lemma {:induction false} LookingRemembers(id: Ident, p: RestorePass, got: RestoreEvent)
    requires Legal(id, p) && got.Got?
    ensures Begun(p) && Begun(p + [got]) && Now(p + [got]) == Now(p) && p[0] == (p + [got])[0]
    ensures Remembers(p, p + [got])
  {
    LegalStep(id, p, got);
    RemembersStep(p, got);
  }

  lemma {:induction false} ClaimJustified(id: Ident, p: RestorePass, got: RestoreEvent, m: SavedAPIManager)
    requires Legal(id, p) && !Now(p).mainStepsCompleted && !p[0].status.completed && got.Got?
    requires SourceKnown(id, p) && SawAbsent(p, ClaimKey()) && SawSaved(id, p, m)
    ensures CreationJustified(id, p + [got], ClaimKey(), StorageClaim(m))
  {
    hide Legal, StatusAfter, SawSucceeded, SawPresent, SawAbsent, SawFound, InPlace, Permitted;
    LookingRemembers(id, p, got);
    assert SawSaved(id, p + [got], m);
  }

  lemma {:induction false} APIManagerJustified(id: Ident, p: RestorePass, key: Key, got: RestoreEvent)
    requires Legal(id, p) && !Now(p).mainStepsCompleted && !p[0].status.completed && got.Got?
    requires key.kind == APIManager && SawSavedName(id, p, key.name)
    requires DataRestored(id, p) && SawAbsent(p, APIManagerKey(Now(p).apiManagerToRestoreRef.value))
    ensures CreationJustified(id, p + [got], key, NewAPIManager())
  {
    hide Legal, StatusAfter, SawSucceeded, SawPresent, SawAbsent, SawFound, InPlace, Permitted;
    LookingRemembers(id, p, got);
    var m :| SawSaved(id, p, m) && m.name == key.name;
    assert SawSaved(id, p + [got], m);
  }

  lemma {:induction false} SecretDeletionJustified(id: Ident, p: RestorePass, got: RestoreEvent)
    requires Legal(id, p) && !Now(p).mainStepsCompleted && !p[0].status.completed && got.Got?
    requires Restored(id, p)
    ensures DeletionJustified(id, p + [got], SecretKey(id))
  {
  }

  /** A restore without a source is rejected before a pass does anything. */
  method Pass(cluster: Cluster<RestoreStatus>, id: Ident, source: Option<string>, ghost saved: SavedAPIManager)
    returns (requeue: bool, err: bool)
    modifies cluster
    ensures cluster.Valid() && Legal(id, cluster.pass) && cluster.pass[0].status == old(cluster.status)
    ensures cluster.past == if old(cluster.pass) == [] then old(cluster.past)
            else old(cluster.past) + [old(cluster.pass)]
    ensures source.None? ==>
              err && cluster.pass == [PassStart(old(cluster.status))] && cluster.status == old(cluster.status)
    ensures cluster.quiet && cluster.reliable && source.Some? ==>
              PassStep(Config(id, saved), World(old(cluster.status), old(cluster.objects)),
                       World(cluster.status, cluster.objects))
  {
    cluster.Interfere();
    var cr := cluster.Begin();
    if source.None? {
      return false, true;
    }
    var reconciler := new RestoreReconciler(cluster, id, cr, saved);
    requeue, err := reconciler.Reconcile();
  }

  /**
     Successive passes of the controller over one custom resource, with whatever the environment does in between:
     their record is a run, so all that RestoreHistory proves of runs holds of it.
   */
  method Operate(cluster: Cluster<RestoreStatus>, id: Ident, source: Option<string>, passes: nat)
    requires cluster.past == [] && cluster.pass == []
    modifies cluster
    ensures passes > 0 ==> Run(id, old(cluster.status), cluster.past + [cluster.pass])
    ensures passes > 0 ==> |cluster.past| + 1 == passes
    ensures passes > 0 ==> cluster.status == StatusBefore(old(cluster.status), cluster.past + [cluster.pass], passes)
  {
    ghost var run: seq<RestorePass> := [];
    for n := 0 to passes
      invariant |run| == n && Run(id, old(cluster.status), run)
      invariant cluster.status == StatusBefore(old(cluster.status), run, n)
      invariant n == 0 ==> cluster.past == [] && cluster.pass == []
      invariant n > 0 ==> cluster.Valid() && run == cluster.past + [cluster.pass]
    {
      var requeue, err := Pass(cluster, id, source, SavedAPIManager("", None));
      RunExtends(id, old(cluster.status), run, cluster.pass);
      run := run + [cluster.pass];
    }
  }
}
