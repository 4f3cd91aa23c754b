/** How far a restore still has to go, and why it gets there if nothing that it restored is taken away again. */
module RestoreProgress {
  import opened Options
  import opened Kube
  import opened Jobs
  import opened RestoreHistory
  import FairRuns

  /** The restore, and the APIManager that the job for the shared secret finds in the backup. */
  datatype Config = Config(id: Ident, saved: SavedAPIManager)

  datatype World = World(status: RestoreStatus, objects: Objects)

  function SecretObject(c: Config): Body { SecretBody(Some(Some(c.saved))) }

  function TheAPIManager(c: Config): Key { APIManagerKey(c.saved.name) }

  /** While something restored from the secret is still missing, the secret is there, intact. */
  predicate Healthy(c: Config, w: World) {
    && (SecretKey(c.id) in w.objects ==> w.objects[SecretKey(c.id)].body == SecretObject(c))
    && (SecretKey(c.id) in w.objects && w.objects[SecretKey(c.id)].deleting ==> w.status.apiManagerToRestoreRef.Some?)
    && (TheAPIManager(c) in w.objects ==> w.objects[TheAPIManager(c)].body.APIManagerBody?)
    && (w.status.apiManagerToRestoreRef.Some? ==> w.status.apiManagerToRestoreRef.value == c.saved.name)
    && (!w.status.mainStepsCompleted && w.status.apiManagerToRestoreRef.Some?
          && (ClaimKey() !in w.objects || TheAPIManager(c) !in w.objects) ==>
        SecretKey(c.id) in w.objects && !w.objects[SecretKey(c.id)].deleting)
  }

  function SecretCost(c: Config, w: World): nat {
    if SecretKey(c.id) !in w.objects then (if w.status.apiManagerToRestoreRef.None? then 3 else 0)
    else if w.objects[SecretKey(c.id)].deleting then 1 else 2
  }

  function APIManagerCost(c: Config, objects: Objects): nat {
    if TheAPIManager(c) !in objects || !objects[TheAPIManager(c)].body.APIManagerBody? then 5 else
    var o := objects[TheAPIManager(c)];
    One(!SidekiqReady(o)) + (match o.body.available case None => 2 case Some(b) => One(!b))
  }

  function JobCosts(c: Config, w: World): nat {
    JobCost(w.status.mainStepsCompleted, w.objects, JobKey(c.id, SecretsAndConfigMaps))
    + JobCost(w.status.mainStepsCompleted, w.objects, JobKey(c.id, SharedSecret))
    + JobCost(w.status.mainStepsCompleted, w.objects, JobKey(c.id, FileStorage))
    + JobCost(w.status.mainStepsCompleted, w.objects, JobKey(c.id, ResyncDomains))
  }

  function MissingCosts(objects: Objects): nat {
    One(ClaimKey() !in objects) + One(AccountKey() !in objects) + One(RoleKey() !in objects)
    + One(BindingKey() !in objects)
  }

  function FieldCosts(s: RestoreStatus): nat {
    One(s.startTime.None?) + One(s.apiManagerToRestoreRef.None?)
  }

  function Measure(c: Config, w: World): nat {
    if w.status.completed then 0
    else if w.status.mainStepsCompleted then 1 + JobCosts(c, w)
    else 10 + JobCosts(c, w) + FieldCosts(w.status) + MissingCosts(w.objects)
         + SecretCost(c, w) + APIManagerCost(c, w.objects)
  }

  /** What a pass may have to wait for. */
  datatype Obstacle = Unfinished(step: Step) | NoSecretYet | SidekiqNotReady | NotAvailable | SecretGoing

  predicate BlockedOn(c: Config, w: World, o: Obstacle) {
    match o
    case Unfinished(s) =>
      if w.status.mainStepsCompleted then JobGoing(w.objects, JobKey(c.id, s))
      else JobRunning(w.objects, JobKey(c.id, s))
    case NoSecretYet =>
      !w.status.mainStepsCompleted && w.status.apiManagerToRestoreRef.None? && SecretKey(c.id) !in w.objects
    case SidekiqNotReady =>
      !w.status.mainStepsCompleted && TheAPIManager(c) in w.objects && !SidekiqReady(w.objects[TheAPIManager(c)])
    case NotAvailable =>
      !w.status.mainStepsCompleted && TheAPIManager(c) in w.objects && KnownUnavailable(w.objects[TheAPIManager(c)])
    case SecretGoing =>
      !w.status.mainStepsCompleted && SecretKey(c.id) in w.objects && w.objects[SecretKey(c.id)].deleting
  }

  ghost predicate Waiting(c: Config, w: World) {
    !w.status.completed && exists o: Obstacle :: BlockedOn(c, w, o)
  }

  /** What an undisturbed part of a pass may do to a healthy world. */
  predicate Advances(c: Config, w: World, w': World) {
    Healthy(c, w') && (w' == w || Measure(c, w') < Measure(c, w))
  }

  lemma {:induction false} KeysApart(id: Ident)
    ensures forall s: Step, t: Step :: JobKey(id, s) == JobKey(id, t) ==> s == t
  {
    forall s: Step, t: Step ensures JobKey(id, s) == JobKey(id, t) ==> s == t {
      JobsDistinct(id, s, t);
    }
  }

  /** Creating a missing object that the jobs need is progress. */
  lemma {:induction false} CreationAdvances(c: Config, w: World, key: Key, obj: Obj)
    requires Healthy(c, w) && !w.status.completed && !w.status.mainStepsCompleted && key !in w.objects
    requires key in {ClaimKey(), AccountKey(), RoleKey(), BindingKey()}
    ensures Advances(c, w, w.(objects := w.objects[key := obj]))
  {
    var w' := w.(objects := w.objects[key := obj]);
    assert JobCosts(c, w') == JobCosts(c, w) by { hide Prefix, Succeeded; }
    hide JobCosts;
    assert SecretCost(c, w') == SecretCost(c, w);
    assert APIManagerCost(c, w'.objects) == APIManagerCost(c, w.objects);
    hide SecretCost, APIManagerCost;
    assert Healthy(c, w');
    hide Healthy;
    assert MissingCosts(w'.objects) < MissingCosts(w.objects);
  }

  /** Creating the APIManager anew is progress. */
  lemma {:induction false} APIManagerCreationAdvances(c: Config, w: World, obj: Obj)
    requires Healthy(c, w) && !w.status.completed && !w.status.mainStepsCompleted && TheAPIManager(c) !in w.objects
    requires obj.body == APIManagerBody({}, None)
    ensures Advances(c, w, w.(objects := w.objects[TheAPIManager(c) := obj]))
  {
    var w' := w.(objects := w.objects[TheAPIManager(c) := obj]);
    assert JobCosts(c, w') == JobCosts(c, w) by { hide Prefix, Succeeded; }
    hide JobCosts;
    assert MissingCosts(w'.objects) == MissingCosts(w.objects);
    assert SecretCost(c, w') == SecretCost(c, w);
    hide MissingCosts, SecretCost;
    assert APIManagerCost(c, w'.objects) < APIManagerCost(c, w.objects);
    hide APIManagerCost;
  }

  /** Creating a missing job is progress. */
  lemma {:induction false} JobCreationAdvances(c: Config, w: World, s: Step, obj: Obj)
    requires Healthy(c, w) && !w.status.completed && !w.status.mainStepsCompleted && JobKey(c.id, s) !in w.objects
    ensures Advances(c, w, w.(objects := w.objects[JobKey(c.id, s) := obj]))
  {
    KeysApart(c.id);
    hide Prefix, Succeeded;
    var w' := w.(objects := w.objects[JobKey(c.id, s) := obj]);
    assert MissingCosts(w'.objects) == MissingCosts(w.objects);
    assert SecretCost(c, w') == SecretCost(c, w);
    assert APIManagerCost(c, w'.objects) == APIManagerCost(c, w.objects);
    hide MissingCosts, SecretCost, APIManagerCost;
  }

  lemma {:induction false} JobDeletionAdvances(c: Config, w: World, s: Step, objects: Objects)
    requires Healthy(c, w) && !w.status.completed && w.status.mainStepsCompleted
    requires JobKey(c.id, s) in w.objects
    requires objects == w.objects - {JobKey(c.id, s)}
             || objects == w.objects[JobKey(c.id, s) := w.objects[JobKey(c.id, s)].(deleting := true)]
    ensures Advances(c, w, w.(objects := objects))
    ensures objects == w.objects ==> JobGoing(objects, JobKey(c.id, s))
  {
  }

  /** Deleting the secret is progress once the claim and the APIManager exist. */
  lemma {:induction false} SecretDeletionAdvances(c: Config, w: World, objects: Objects)
    requires Healthy(c, w) && !w.status.completed && !w.status.mainStepsCompleted
    requires w.status.apiManagerToRestoreRef.Some? && ClaimKey() in w.objects && TheAPIManager(c) in w.objects
    requires SecretKey(c.id) in w.objects
    requires objects == w.objects - {SecretKey(c.id)}
             || objects == w.objects[SecretKey(c.id) := w.objects[SecretKey(c.id)].(deleting := true)]
    ensures Advances(c, w, w.(objects := objects))
    ensures objects == w.objects ==> BlockedOn(c, w, SecretGoing)
  {
    hide Succeeded;
    var w' := w.(objects := objects);
    assert JobCosts(c, w') == JobCosts(c, w);
    assert APIManagerCost(c, w'.objects) == APIManagerCost(c, w.objects);
    if w.objects[SecretKey(c.id)].deleting && SecretKey(c.id) in objects {
      assert objects == w.objects;
    }
  }

  // ---------- Fair runs ----------

  /** One pass from a healthy world. */
  ghost predicate PassStep(c: Config, w: World, w': World) {
    Healthy(c, w) ==>
      Healthy(c, w') && (Measure(c, w') < Measure(c, w) || (w' == w && (Waiting(c, w) || w.status.completed)))
  }

  predicate APIManagerImproves(before: Body, after: Body)
  {
    before.APIManagerBody? && after.APIManagerBody?
    && before.readyDeployments <= after.readyDeployments
    && (before.available == None || after.available == before.available || after.available == Some(true))
  }

  /**
     Between passes, jobs may succeed, the secret may appear before it is read, what was to be deleted may vanish, and
     the APIManager may become ready and available.
   */
  ghost predicate EnvironmentStep(c: Config, w: World, w': World) {
    && w'.status == w.status
    && (forall key ::
          (forall s: Step :: key != JobKey(c.id, s)) && key != SecretKey(c.id) && key != TheAPIManager(c) ==>
            (key in w'.objects <==> key in w.objects) && (key in w.objects ==> w'.objects[key] == w.objects[key]))
    && (forall s: Step :: JobEvolves(w.status.mainStepsCompleted, w.objects, w'.objects, JobKey(c.id, s)))
    && (if SecretKey(c.id) in w.objects then
          if SecretKey(c.id) in w'.objects then w'.objects[SecretKey(c.id)] == w.objects[SecretKey(c.id)]
          else w.objects[SecretKey(c.id)].deleting
        else SecretKey(c.id) in w'.objects ==>
          w.status.apiManagerToRestoreRef.None? && w'.objects[SecretKey(c.id)] == Obj(SecretObject(c), false))
    && (TheAPIManager(c) in w'.objects <==> TheAPIManager(c) in w.objects)
    && (TheAPIManager(c) in w.objects ==>
          APIManagerImproves(w.objects[TheAPIManager(c)].body, w'.objects[TheAPIManager(c)].body))
  }

  ghost predicate PassStepAt(c: Config, f: nat -> World, n: nat) {
    PassStep(c, f(n), f(n + 1))
  }

  ghost predicate EnvironmentStepAt(c: Config, f: nat -> World, n: nat) {
    EnvironmentStep(c, f(n), f(n + 1))
  }

  ghost predicate Alternating(c: Config, f: nat -> World) {
    forall n: nat :: if n % 2 == 0 then PassStepAt(c, f, n) else EnvironmentStepAt(c, f, n)
  }

  lemma {:induction false} EnvironmentJob(c: Config, w: World, w': World, s: Step)
    requires EnvironmentStep(c, w, w')
    ensures JobCost(w.status.mainStepsCompleted, w'.objects, JobKey(c.id, s))
            <= JobCost(w.status.mainStepsCompleted, w.objects, JobKey(c.id, s))
    ensures BlockedOn(c, w, Unfinished(s)) && !BlockedOn(c, w', Unfinished(s)) ==>
              JobCost(w.status.mainStepsCompleted, w'.objects, JobKey(c.id, s))
              < JobCost(w.status.mainStepsCompleted, w.objects, JobKey(c.id, s))
  {
  }

  lemma {:induction false} EnvironmentJobs(c: Config, w: World, w': World)
    requires EnvironmentStep(c, w, w')
    ensures JobCosts(c, w') <= JobCosts(c, w)
    ensures JobCosts(c, w') == JobCosts(c, w) ==>
              forall s: Step :: BlockedOn(c, w, Unfinished(s)) ==> BlockedOn(c, w', Unfinished(s))
  {
    EnvironmentJob(c, w, w', SecretsAndConfigMaps);
    EnvironmentJob(c, w, w', SharedSecret);
    EnvironmentJob(c, w, w', FileStorage);
    EnvironmentJob(c, w, w', ResyncDomains);
    assert w'.status == w.status;
    hide EnvironmentStep, BlockedOn, JobCost, JobKey;
    if JobCosts(c, w') == JobCosts(c, w) {
      forall s: Step | BlockedOn(c, w, Unfinished(s)) ensures BlockedOn(c, w', Unfinished(s)) {
        match s
        case SecretsAndConfigMaps =>
        case SharedSecret =>
        case FileStorage =>
        case ResyncDomains =>
      }
    }
  }

  lemma {:induction false} EnvironmentOthers(c: Config, w: World, w': World)
    requires EnvironmentStep(c, w, w') && Healthy(c, w)
    ensures Healthy(c, w') && MissingCosts(w'.objects) == MissingCosts(w.objects)
    ensures SecretCost(c, w') <= SecretCost(c, w) && APIManagerCost(c, w'.objects) <= APIManagerCost(c, w.objects)
    ensures SecretCost(c, w') == SecretCost(c, w) && APIManagerCost(c, w'.objects) == APIManagerCost(c, w.objects) ==>
              forall o: Obstacle :: !o.Unfinished? && BlockedOn(c, w, o) ==> BlockedOn(c, w', o)
  {
  }

  lemma {:induction false} EnvironmentKeepsCosts(c: Config, w: World, w': World)
    requires EnvironmentStep(c, w, w') && Healthy(c, w)
    ensures w'.status == w.status && Healthy(c, w')
    ensures Measure(c, w') <= Measure(c, w)
    ensures !w.status.completed && Measure(c, w') == Measure(c, w) ==>
              forall o: Obstacle :: BlockedOn(c, w, o) ==> BlockedOn(c, w', o)
  {
    EnvironmentJobs(c, w, w');
    EnvironmentOthers(c, w, w');
    if !w.status.completed && Measure(c, w') == Measure(c, w) {
      forall o: Obstacle | BlockedOn(c, w, o) ensures BlockedOn(c, w', o) {
        match o
        case Unfinished(s) => assert BlockedOn(c, w, Unfinished(s));
        case _ =>
      }
    }
  }

  lemma {:induction false} StaysHealthy(c: Config, f: nat -> World, n: nat)
    requires Alternating(c, f) && Healthy(c, f(0))
    ensures Healthy(c, f(n))
  {
    hide Healthy, EnvironmentStep, Measure, Waiting;
    if n > 0 {
      StaysHealthy(c, f, n - 1);
      if n % 2 == 1 {
        assert PassStepAt(c, f, n - 1);
      } else {
        assert EnvironmentStepAt(c, f, n - 1);
        EnvironmentKeepsCosts(c, f(n - 1), f(n));
      }
    }
  }

  /** If no obstacle stays for ever, a restore that starts healthy completes. */
  lemma {:induction false} RestoreCompletes(c: Config, f: nat -> World, n: nat) returns (m: nat)
    requires Alternating(c, f) && Healthy(c, f(0))
    requires FairRuns.Fair(f, (w, o) => BlockedOn(c, w, o))
    ensures n <= m && f(m).status.completed
  {
    var measure, blocked, done := w => Measure(c, w), (w, o) => BlockedOn(c, w, o), (w: World) => w.status.completed;
    forall k: nat
      ensures FairRuns.SteadyAt(f, measure, blocked, done, k) && FairRuns.ProgressAt(f, measure, blocked, done, k)
    {
      hide Measure, BlockedOn, EnvironmentStep, Healthy;
      StaysHealthy(c, f, k);
      if k % 2 == 1 {
        assert EnvironmentStepAt(c, f, k);
        EnvironmentKeepsCosts(c, f(k), f(k + 1));
      } else {
        assert PassStepAt(c, f, k);
        if Waiting(c, f(k)) {
          var o: Obstacle :| BlockedOn(c, f(k), o);
          assert blocked(f(k), o);
        }
      }
    }
    assert FairRuns.Steady(f, measure, blocked, done);
    assert FairRuns.Progressing(f, measure, blocked, done);
    m := FairRuns.EventuallyDone(f, measure, blocked, done, n);
  }
}
