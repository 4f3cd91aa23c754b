/**
 How far a backup still has to go, and why it gets there.

 World is what a pass finds and leaves. The measure counts unset status fields, missing objects, jobs not created or
 not finished, and remaining phases. Backup shows that an undisturbed pass lowers it or waits.
 */
module BackupProgress {
  import opened Options
  import opened Kube
  import opened Jobs
  import FairRuns
  import opened BackupHistory

  datatype Config = Config(id: Ident, source: string)

  datatype World = World(status: BackupStatus, objects: Objects)

  ghost function APIManagers(objects: Objects): set<string> {
    set k | k in objects && k.kind == APIManager :: k.name
  }

  /** The source is the only APIManager in the namespace; with none or several the options are rejected. */
  ghost predicate SoleSource(c: Config, w: World) {
    APIManagers(w.objects) == {c.source}
  }

  function JobCosts(c: Config, w: World): nat {
    JobCost(w.status.mainStepsCompleted, w.objects, JobKey(c.id, SecretsAndConfigMaps))
    + JobCost(w.status.mainStepsCompleted, w.objects, JobKey(c.id, CustomResource))
    + JobCost(w.status.mainStepsCompleted, w.objects, JobKey(c.id, FileStorage))
  }

  function FieldCosts(c: Config, s: BackupStatus): nat {
    One(s.sourceName != Some(c.source)) + One(s.startTime.None?) + One(s.claimName.None?)
  }

  function MissingCosts(c: Config, objects: Objects): nat {
    One(ClaimKey(c.id) !in objects) + One(AccountKey() !in objects) + One(RoleKey() !in objects)
    + One(BindingKey() !in objects)
  }

  function Measure(c: Config, w: World): nat {
    if w.status.completed then 0
    else if w.status.mainStepsCompleted then 1 + JobCosts(c, w)
    else 8 + JobCosts(c, w) + FieldCosts(c, w.status) + MissingCosts(c, w.objects)
  }

  /** Nothing to do but to wait for a running job, or for deletions already requested. */
  predicate Waiting(c: Config, w: World) {
    !w.status.completed &&
    if w.status.mainStepsCompleted then
      && (exists s: Step :: JobKey(c.id, s) in w.objects)
      && (forall s: Step :: JobKey(c.id, s) in w.objects ==> JobGoing(w.objects, JobKey(c.id, s)))
    else
      exists s: Step :: JobRunning(w.objects, JobKey(c.id, s))
                        && forall t: Step :: Order(t) < Order(s) ==> JobDone(w.objects, JobKey(c.id, t))
  }

  /** What an undisturbed part of a pass may do to the world. */
  ghost predicate Advances(c: Config, w: World, w': World) {
    APIManagers(w'.objects) == APIManagers(w.objects) && (w' == w || Measure(c, w') < Measure(c, w))
  }

  predicate Relevant(c: Config, key: Key) {
    key in {ClaimKey(c.id), AccountKey(), RoleKey(), BindingKey(), JobKey(c.id, SecretsAndConfigMaps),
            JobKey(c.id, CustomResource), JobKey(c.id, FileStorage)}
  }

  lemma {:induction false} SameAPIManagers(objects: Objects, objects': Objects)
    requires forall key: Key :: key.kind == APIManager ==> (key in objects <==> key in objects')
    ensures APIManagers(objects') == APIManagers(objects)
  {
  }

  /** Creating an object that is still missing before the main steps are completed is progress. */
  lemma {:induction false} CreationAdvances(c: Config, w: World, key: Key, obj: Obj)
    requires !w.status.completed && !w.status.mainStepsCompleted
    requires Relevant(c, key) && key !in w.objects
    ensures Measure(c, w.(objects := w.objects[key := obj])) < Measure(c, w)
    ensures Advances(c, w, w.(objects := w.objects[key := obj]))
  {
    hide Succeeded, Prefix;
    SameAPIManagers(w.objects, w.objects[key := obj]);
    JobsDistinct(c.id, SecretsAndConfigMaps, CustomResource);
    JobsDistinct(c.id, SecretsAndConfigMaps, FileStorage);
    JobsDistinct(c.id, CustomResource, FileStorage);
  }

  /** Deleting a job after the main steps is progress, unless its deletion was already requested. */
  lemma {:induction false} DeletionAdvances(c: Config, w: World, s: Step, objects: Objects)
    requires !w.status.completed && w.status.mainStepsCompleted
    requires JobKey(c.id, s) in w.objects
    requires objects == w.objects - {JobKey(c.id, s)}
             || objects == w.objects[JobKey(c.id, s) := w.objects[JobKey(c.id, s)].(deleting := true)]
    ensures Advances(c, w, w.(objects := objects))
    ensures objects == w.objects ==> JobGoing(objects, JobKey(c.id, s))
  {
    SameAPIManagers(w.objects, objects);
  }

  // ---------- Fair runs ----------

  /**
     One pass that finds the source as the only APIManager: it leaves it so, and it lowers the measure, or it leaves the
     world alone because it has to wait or is done.
   */
  ghost predicate PassStep(c: Config, w: World, w': World) {
    SoleSource(c, w) ==>
      SoleSource(c, w') && (Measure(c, w') < Measure(c, w) || (w' == w && (Waiting(c, w) || w.status.completed)))
  }

  /** Between passes, jobs may succeed and requested deletions may finish. */
  ghost predicate EnvironmentStep(c: Config, w: World, w': World) {
    && w'.status == w.status
    && (forall key :: (forall s: Step :: key != JobKey(c.id, s)) ==>
          (key in w'.objects <==> key in w.objects) && (key in w.objects ==> w'.objects[key] == w.objects[key]))
    && (forall s: Step :: JobEvolves(w.status.mainStepsCompleted, w.objects, w'.objects, JobKey(c.id, s)))
  }

  ghost predicate PassStepAt(c: Config, f: nat -> World, n: nat) {
    PassStep(c, f(n), f(n + 1))
  }

  ghost predicate EnvironmentStepAt(c: Config, f: nat -> World, n: nat) {
    EnvironmentStep(c, f(n), f(n + 1))
  }

  /** Passes and environment steps in turn, for ever. */
  ghost predicate Alternating(c: Config, f: nat -> World) {
    forall n: nat :: if n % 2 == 0 then PassStepAt(c, f, n) else EnvironmentStepAt(c, f, n)
  }

  /** The step for whose job, or whose job's deletion, the world waits. */
  predicate BlockedOn(c: Config, w: World, s: Step) {
    if w.status.mainStepsCompleted then JobGoing(w.objects, JobKey(c.id, s))
    else JobRunning(w.objects, JobKey(c.id, s))
  }

  lemma {:induction false} WaitingIsBlocked(c: Config, w: World) returns (s: Step)
    requires Waiting(c, w)
    ensures BlockedOn(c, w, s)
  {
    if w.status.mainStepsCompleted {
      s :| JobKey(c.id, s) in w.objects;
    } else {
      s :| JobRunning(w.objects, JobKey(c.id, s));
    }
  }

  lemma {:induction false} EnvironmentKeepsCosts(c: Config, w: World, w': World)
    requires EnvironmentStep(c, w, w')
    ensures w'.status == w.status
    ensures Measure(c, w') <= Measure(c, w)
    ensures !w.status.completed && Measure(c, w') == Measure(c, w) ==>
              forall s: Step :: BlockedOn(c, w, s) ==> BlockedOn(c, w', s)
  {
    forall t: Step
      ensures JobCost(w.status.mainStepsCompleted, w'.objects, JobKey(c.id, t))
              <= JobCost(w.status.mainStepsCompleted, w.objects, JobKey(c.id, t))
      ensures BlockedOn(c, w, t) && !BlockedOn(c, w', t) ==>
                JobCost(w.status.mainStepsCompleted, w'.objects, JobKey(c.id, t))
                < JobCost(w.status.mainStepsCompleted, w.objects, JobKey(c.id, t))
    {
      assert JobEvolves(w.status.mainStepsCompleted, w.objects, w'.objects, JobKey(c.id, t));
    }
    assert MissingCosts(c, w'.objects) == MissingCosts(c, w.objects);
  }

  /** Neither passes nor environment steps touch the set of APIManagers. */
  lemma {:induction false} StaysSoleSource(c: Config, f: nat -> World, n: nat)
    requires Alternating(c, f) && SoleSource(c, f(0))
    ensures SoleSource(c, f(n))
  {
    hide Measure, Waiting, APIManagers;
    if n > 0 {
      StaysSoleSource(c, f, n - 1);
      if n % 2 == 1 {
        assert PassStepAt(c, f, n - 1);
      } else {
        assert EnvironmentStepAt(c, f, n - 1);
        SameAPIManagers(f(n - 1).objects, f(n).objects);
      }
    }
  }

  /**
     From a world with one APIManager: if every job eventually succeeds and every deletion eventually finishes, the
     backup completes.
   */
  lemma {:induction false} BackupCompletes(c: Config, f: nat -> World, n: nat) returns (m: nat)
    requires Alternating(c, f) && SoleSource(c, f(0))
    requires FairRuns.Fair(f, (w, s) => BlockedOn(c, w, s))
    ensures n <= m && f(m).status.completed
  {
    var measure, blocked, done := w => Measure(c, w), (w, s) => BlockedOn(c, w, s), (w: World) => w.status.completed;
    forall k: nat
      ensures FairRuns.SteadyAt(f, measure, blocked, done, k) && FairRuns.ProgressAt(f, measure, blocked, done, k)
    {
      hide Measure, EnvironmentStep, APIManagers;
      StaysSoleSource(c, f, k);
      if k % 2 == 1 {
        assert EnvironmentStepAt(c, f, k);
        EnvironmentKeepsCosts(c, f(k), f(k + 1));
      } else {
        assert PassStepAt(c, f, k);
        if Waiting(c, f(k)) {
          var s := WaitingIsBlocked(c, f(k));
          assert blocked(f(k), s);
        }
      }
    }
    assert FairRuns.Steady(f, measure, blocked, done);
    assert FairRuns.Progressing(f, measure, blocked, done);
    m := FairRuns.EventuallyDone(f, measure, blocked, done, n);
  }
}
