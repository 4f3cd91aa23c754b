/**
 What a backup controller may do in a pass, and what follows for whole runs.

 A pass is legal if each of its events is justified by the events before it in the same pass. Theorems about runs
 are drawn from that alone; Backup shows that every pass of the reconciler is legal.
 */
module BackupHistory {
  import opened Options
  import opened Kube
  import opened Jobs

  datatype BackupStatus = BackupStatus(
    sourceName: Option<string>,
    startTime: Option<int>,
    claimName: Option<string>,
    mainStepsCompleted: bool,
    completed: bool,
    completionTime: Option<int>)

  type BackupEvent = Event<BackupStatus>
  type BackupPass = Pass<BackupStatus>

  /** The jobs of a backup in the order in which they run. */
  datatype Step = SecretsAndConfigMaps | CustomResource | FileStorage

  function Order(s: Step): nat {
    match s
    case SecretsAndConfigMaps => 0
    case CustomResource => 1
    case FileStorage => 2
  }

  function Prefix(s: Step): string {
    match s
    case SecretsAndConfigMaps => "backup-cfgmaps-secrets"
    case CustomResource => "backup-apimanager-cr"
    case FileStorage => "backup-system-fs-pvc"
  }

  /** Job names carry the UID of the backup; distinct steps have distinct jobs. */
  function JobKey(id: Ident, s: Step): Key {
    Key(Job, Prefix(s) + "-" + id.uid)
  }

  function ClaimKey(id: Ident): Key { Key(PersistentVolumeClaim, id.name) }
  function AccountKey(): Key { Key(ServiceAccount, "apimanager-backup") }
  function RoleKey(): Key { Key(Role, "apimanager-backup") }
  function BindingKey(): Key { Key(RoleBinding, "apimanager-backup") }

  lemma {:induction false} JobsDistinct(id: Ident, s: Step, t: Step)
    ensures JobKey(id, s) == JobKey(id, t) ==> s == t
  {
    var a, b := JobKey(id, s).name, JobKey(id, t).name;
    if a == b {
      assert a[7] == Prefix(s)[7] && b[7] == Prefix(t)[7];
    }
  }

  // ---------- Justification of events ----------

  ghost predicate SawAllSucceeded(p: BackupPass, id: Ident) {
    forall s: Step :: SawSucceeded(p, JobKey(id, s))
  }

  ghost predicate SawAllAbsent(p: BackupPass, id: Ident) {
    forall s: Step :: SawAbsent(p, JobKey(id, s))
  }

  /** The claim that receives the backup, and what the jobs run with. */
  ghost predicate Equipped(p: BackupPass, id: Ident) {
    && InPlace(p, ClaimKey(id)) && InPlace(p, AccountKey()) && InPlace(p, RoleKey())
    && InPlace(p, BindingKey())
  }

  function Now(p: BackupPass): BackupStatus
    requires p != [] && p[0].PassStart?
  {
    StatusAfter(p[0].status, p)
  }

  /** The event may come after the events p of the same pass. */
  ghost predicate Justified(id: Ident, p: BackupPass, e: BackupEvent) {
    p != [] && p[0].PassStart? &&
    match e
    case PassStart(_) => false
    case Got(_, _) => true
    case LackedSecret => false
    case Created(key, _, _) =>
      && !Now(p).mainStepsCompleted && !p[0].status.completed && (key.kind == Job ==> Equipped(p, id))
      && forall s: Step, t: Step :: key == JobKey(id, s) && Order(t) < Order(s) ==> SawSucceeded(p, JobKey(id, t))
    case Deleted(key, _) =>
      p[0].status.mainStepsCompleted && !p[0].status.completed && exists s: Step :: key == JobKey(id, s)
    case StatusWritten(w, _, _) =>
      && !p[0].status.completed
      && (Now(p).mainStepsCompleted ==> w.mainStepsCompleted)
      && (Now(p).sourceName.Some? ==> w.sourceName.Some?)
      && (Now(p).startTime.Some? ==> w.startTime == Now(p).startTime)
      && (Now(p).claimName.Some? ==> w.claimName == Now(p).claimName)
      && (w.claimName.Some? && Now(p).claimName.None? ==> w.claimName == Some(id.name) && InPlace(p, ClaimKey(id)))
      && (w.mainStepsCompleted && !Now(p).mainStepsCompleted ==>
            SawAllSucceeded(p, id) && w.sourceName.Some? && w.startTime.Some? && w.claimName.Some?)
      && (w.completed ==> p[0].status.mainStepsCompleted && SawAllAbsent(p, id) && w.completionTime.Some?)
      && (p[0].status.mainStepsCompleted ==>
            w == Now(p).(completed := w.completed, completionTime := w.completionTime))
  }

  ghost predicate Legal(id: Ident, p: BackupPass)
    decreases |p|
  {
    p != [] && p[0].PassStart? &&
    (|p| == 1 || (Legal(id, p[..|p| - 1]) && Justified(id, p[..|p| - 1], p[|p| - 1])))
  }

  lemma {:induction false} LegalStep(id: Ident, p: BackupPass, e: BackupEvent)
    requires Legal(id, p) && Justified(id, p, e)
    ensures Legal(id, p + [e])
  {
  }

  lemma {:induction false} LegalBegun(id: Ident, p: BackupPass)
    requires Legal(id, p)
    ensures p != [] && p[0].PassStart?
  {
  }

  lemma {:induction false} LegalAt(id: Ident, p: BackupPass, i: nat)
    requires Legal(id, p) && 0 < i < |p|
    ensures Legal(id, p[..i]) && Justified(id, p[..i], p[i])
    decreases |p|
  {
    var front := p[..|p| - 1];
    if i < |p| - 1 {
      assert front[..i] == p[..i];
      LegalAt(id, front, i);
    }
  }

  /** Looking at an object leaves the status as it is. */
  lemma {:induction false} LookingKeepsStatus(p: BackupPass, key: Key, answer: Answer)
    requires p != [] && p[0].PassStart?
    ensures Now(p + [Got(key, answer)]) == Now(p)
  {
  }

  /** Reconciling an object that is no job before the main steps, or a job tagged for deletion after them, is legal. */
  lemma {:induction false} CallsLegal(id: Ident, p: BackupPass, key: Key, desired: Obj, deletion: Deletion,
                                      calls: BackupPass, ok: bool)
    requires Legal(id, p) && ReconcileCalls(key, desired, deletion, calls, ok)
    requires deletion.NotTagged? ==>
               !Now(p).mainStepsCompleted && !p[0].status.completed && key.kind != Job
    requires !deletion.NotTagged? ==>
               p[0].status.mainStepsCompleted && !p[0].status.completed && exists s: Step :: key == JobKey(id, s)
    ensures Legal(id, p + calls) && Remembers(p, p + calls) && Now(p + calls) == Now(p)
    ensures deletion.NotTagged? && ok ==> InPlace(p + calls, key)
  {
    hide SawSucceeded, SawAllSucceeded, Prefix, StatusAfter, InPlace, SawPresent, SawAbsent, SawFound;
    CallsPlace(p, key, desired, deletion, calls, ok);
    RemembersStep(p, calls[0]);
    LegalStep(id, p, calls[0]);
    LookingKeepsStatus(p, key, calls[0].answer);
    if |calls| == 2 {
      LegalStep(id, p + [calls[0]], calls[1]);
      RemembersStep(p + [calls[0]], calls[1]);
      StatusAfterStep(p[0].status, p + [calls[0]], calls[1]);
      assert p + calls == p + [calls[0]] + [calls[1]];
    } else {
      assert calls == [calls[0]];
    }
  }

  /** A job that was looked for and not found may be created if the jobs before it were seen to have succeeded. */
  lemma {:induction false} JobCreationJustified(id: Ident, p: BackupPass, s: Step, obj: Obj, ok: bool)
    requires p != [] && p[0].PassStart? && !Now(p).mainStepsCompleted && !p[0].status.completed && Equipped(p, id)
    requires forall t: Step :: Order(t) < Order(s) ==> SawSucceeded(p, JobKey(id, t))
    ensures Justified(id, p, Created(JobKey(id, s), obj, ok))
  {
    forall u: Step, t: Step | JobKey(id, s) == JobKey(id, u) && Order(t) < Order(u)
      ensures SawSucceeded(p, JobKey(id, t))
    {
      JobsDistinct(id, s, u);
    }
  }

  // ---------- Runs ----------

  /** Successive legal passes of the controller. */
  ghost predicate Run(id: Ident, first: BackupStatus, run: seq<BackupPass>) {
    Chained(first, run) && forall n :: 0 <= n < |run| ==> Legal(id, run[n])
  }

  lemma {:induction false} RunExtends(id: Ident, first: BackupStatus, run: seq<BackupPass>, p: BackupPass)
    requires Run(id, first, run) && Legal(id, p) && p[0].status == StatusBefore(first, run, |run|)
    ensures Run(id, first, run + [p])
    ensures StatusBefore(first, run + [p], |run| + 1) == Now(p)
  {
    ChainExtends(first, run, p);
    assert forall n :: 0 <= n < |run| ==> (run + [p])[n] == run[n];
  }

  /** What a legal pass does to the persisted status. */
  ghost predicate Effect(id: Ident, p: BackupPass)
    requires p != [] && p[0].PassStart?
  {
    && (p[0].status.completed ==> Now(p) == p[0].status)
    && (p[0].status.mainStepsCompleted ==> Now(p).mainStepsCompleted)
    && (Now(p).mainStepsCompleted && !p[0].status.mainStepsCompleted ==>
          SawAllSucceeded(p, id) && Now(p).sourceName.Some? && Now(p).startTime.Some? && Now(p).claimName.Some?)
    && (Now(p).completed && !p[0].status.completed ==> p[0].status.mainStepsCompleted && SawAllAbsent(p, id))
  }

  lemma {:induction false} EffectStart(id: Ident, s: BackupStatus)
    ensures Effect(id, [PassStart(s)])
  {
    hide SawAllSucceeded, SawAllAbsent, SawSucceeded, SawAbsent;
    StatusAfterStep(s, [], PassStart(s));
    assert [PassStart(s)] == [] + [PassStart(s)];
  }

  lemma {:induction false} EffectStep(id: Ident, p: BackupPass, e: BackupEvent)
    requires p != [] && p[0].PassStart? && Effect(id, p) && Justified(id, p, e)
    ensures Effect(id, p + [e])
  {
  }

  lemma {:induction false} PassEffect(id: Ident, p: BackupPass)
    requires Legal(id, p)
    ensures Effect(id, p)
    decreases |p|
  {
    hide Effect, Justified;
    if |p| == 1 {
      EffectStart(id, p[0].status);
      assert p == [p[0]];
    } else {
      var front := p[..|p| - 1];
      PassEffect(id, front);
      EffectStep(id, front, p[|p| - 1]);
      assert p == front + [p[|p| - 1]];
    }
  }

  /** What a pass of a run does to the persisted status. */
  lemma {:induction false} PassOfRun(id: Ident, first: BackupStatus, run: seq<BackupPass>, n: nat)
    requires Run(id, first, run) && n < |run|
    ensures Legal(id, run[n]) && run[n] != [] && run[n][0] == PassStart(StatusBefore(first, run, n))
    ensures StatusBefore(first, run, n + 1) == Now(run[n])
    ensures Effect(id, run[n])
  {
    hide Legal, Effect;
    PassEffect(id, run[n]);
  }

  lemma {:induction false} CompletedPassReads(id: Ident, p: BackupPass)
    requires Legal(id, p) && p[0].status.completed
    ensures forall e :: e in p ==> e.PassStart? || e.Got?
  {
    forall i | 0 <= i < |p| ensures p[i].PassStart? || p[i].Got? {
      if i > 0 { LegalAt(id, p, i); }
    }
  }

  lemma {:induction false} CompletionPersists(id: Ident, first: BackupStatus, run: seq<BackupPass>, n: nat, m: nat)
    requires Run(id, first, run) && n <= m <= |run|
    requires StatusBefore(first, run, n).completed
    ensures StatusBefore(first, run, m) == StatusBefore(first, run, n)
    decreases m
  {
    hide SawAllSucceeded, SawAllAbsent, StatusAfter, Legal, StatusBefore, Run;
    if n < m {
      CompletionPersists(id, first, run, n, m - 1);
      PassOfRun(id, first, run, m - 1);
    }
  }

  /** Completion is absorbing: no later pass asks the cluster to change anything. */
  lemma {:induction false} CompletionAbsorbs(id: Ident, first: BackupStatus, run: seq<BackupPass>, n: nat, m: nat)
    requires Run(id, first, run) && n <= m <= |run|
    requires StatusBefore(first, run, n).completed
    ensures StatusBefore(first, run, m) == StatusBefore(first, run, n)
    ensures m < |run| ==> forall e :: e in run[m] ==> e.PassStart? || e.Got?
  {
    CompletionPersists(id, first, run, n, m);
    if m < |run| {
      CompletedPassReads(id, run[m]);
    }
  }

  lemma {:induction false} MainStepsPersist(id: Ident, first: BackupStatus, run: seq<BackupPass>, n: nat, m: nat)
    requires Run(id, first, run) && n <= m <= |run|
    requires StatusBefore(first, run, n).mainStepsCompleted
    ensures StatusBefore(first, run, m).mainStepsCompleted
    decreases m
  {
    hide SawAllSucceeded, SawAllAbsent, StatusAfter, Legal, StatusBefore, Run;
    if n < m {
      MainStepsPersist(id, first, run, n, m - 1);
      PassOfRun(id, first, run, m - 1);
    }
  }

  /** Once the main steps are recorded as completed, no pass creates any object again. */
  lemma {:induction false} NothingCreatedAfterMainSteps(id: Ident, first: BackupStatus, run: seq<BackupPass>,
                                                        n: nat, m: nat, i: nat)
    requires Run(id, first, run) && n <= m < |run| && i < |run[m]|
    requires StatusBefore(first, run, n).mainStepsCompleted
    ensures !run[m][i].Created?
  {
    MainStepsPersist(id, first, run, n, m);
    if i > 0 {
      LegalAt(id, run[m], i);
      PassEffect(id, run[m][..i]);
    }
  }

  /** When a job is created, the claim and what it runs with were found, or created, earlier in the same pass. */
  lemma {:induction false} JobsEquipped(id: Ident, first: BackupStatus, run: seq<BackupPass>, m: nat, i: nat)
    requires Run(id, first, run) && m < |run| && i < |run[m]|
    requires run[m][i].Created? && run[m][i].key.kind == Job
    ensures forall key :: key in {ClaimKey(id), AccountKey(), RoleKey(), BindingKey()} ==>
                            || SawPresent(run[m][..i], key)
                            || exists o :: Created(key, o, true) in run[m][..i]
  {
    LegalAt(id, run[m], i);
    forall key | key in {ClaimKey(id), AccountKey(), RoleKey(), BindingKey()} ensures InPlace(run[m][..i], key) {}
  }

  /** A job is created only after every job before it was seen to have succeeded in the same pass. */
  lemma {:induction false} JobsInOrder(id: Ident, first: BackupStatus, run: seq<BackupPass>, m: nat, i: nat,
                                       s: Step, t: Step)
    requires Run(id, first, run) && m < |run| && i < |run[m]|
    requires run[m][i].Created? && run[m][i].key == JobKey(id, s) && Order(t) < Order(s)
    ensures SawSucceeded(run[m][..i], JobKey(id, t))
  {
    LegalAt(id, run[m], i);
  }

  /**
     A run that starts fresh and reaches completion has a pass that saw all three jobs succeeded and recorded the
     main steps, and a strictly later pass that saw all three jobs gone and recorded the completion.
   */
  lemma {:induction false} CompletionExplained(id: Ident, first: BackupStatus, run: seq<BackupPass>)
    returns (a: nat, b: nat)
    requires Run(id, first, run) && !first.mainStepsCompleted && !first.completed
    requires StatusBefore(first, run, |run|).completed
    ensures a < b < |run|
    ensures !StatusBefore(first, run, a).mainStepsCompleted && StatusBefore(first, run, a + 1).mainStepsCompleted
    ensures SawAllSucceeded(run[a], id)
    ensures var s := StatusBefore(first, run, a + 1); s.sourceName.Some? && s.startTime.Some? && s.claimName.Some?
    ensures !StatusBefore(first, run, b).completed && StatusBefore(first, run, b + 1).completed
    ensures SawAllAbsent(run[b], id)
  {
    b := FirstTime((s: BackupStatus) => s.completed, first, run, |run|);
    PassEffect(id, run[b]);
    a := FirstTime((s: BackupStatus) => s.mainStepsCompleted, first, run, b);
    PassEffect(id, run[a]);
  }
}
