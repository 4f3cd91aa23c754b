/**
 The synchronisation of the methods and metrics of a backend together with the products that refer to them: what the
 backend drops is deleted remotely first and then removed from the plans of every product that uses the backend.
 */
module BackendMetrics {
  import opened Calls
  import opened Options
  import opened StringSlices
  import opened NamedItems
  import opened NamedSync
  import opened Tasks
  import opened ProductRefs

  class ProductStore {
    var products: Products
    /** An outage makes every call fail. */
    var down: bool
    /** Otherwise no call fails for a reason outside the program. */
    const reliable: bool
    /** The products written, in order. */
    ghost var written: seq<string>

    constructor (products: Products, reliable: bool)
      ensures this.products == products && this.reliable == reliable && !down && written == []
    {
      this.products, this.reliable, down, written := products, reliable, false, [];
    }

    method List() returns (ok: bool, listed: Products)
      ensures down ==> !ok
      ensures reliable && !down ==> ok
      ensures ok ==> listed == products
    {
      ok, listed := *, products;
      if reliable { ok := true; }
      if down { ok := false; }
    }

    method UpdateResource(name: string, p: Product) returns (ok: bool)
      requires name in products
      modifies this`products, this`written
      ensures written == old(written) + [name]
      ensures products == old(products) || products == old(products)[name := p]
      ensures ok ==> products == old(products)[name := p]
      ensures reliable && !down ==> ok
    {
      written := written + [name];
      var applied: bool;
      ok, applied := Fate(reliable);
      if down { ok, applied := false, false; }
      if applied { products := products[name := p]; }
    }
  }

  /** A product that uses the backend has the entry in the plan. */
  ghost predicate HasEntry(products: Products, backend: string, product: string, plan: string, e: Entry) {
    && product in products && backend in products[product].backendUsages && plan in products[product].plans
    && (e in products[product].plans[plan].limits || e in products[product].plans[plan].pricingRules)
  }

  /** Every reference to the backend from a product that uses it is to one of the names. */
  ghost predicate Resolved(products: Products, backend: string, names: set<string>) {
    forall product, plan, e ::
      HasEntry(products, backend, product, plan, e) && e.ref.backend == Some(backend) ==> e.ref.systemName in names
  }

  lemma {:induction false} CleanedEntries(products: Products, backend: string, gone: seq<string>,
                                          product: string, plan: string, e: Entry)
    ensures HasEntry(Cleaned(products, backend, gone), backend, product, plan, e) <==>
            HasEntry(products, backend, product, plan, e) && !Dropped(e, backend, gone)
  {
    if product in products && plan in products[product].plans {
      RetainedMembers(products[product].plans[plan].limits, backend, gone);
      RetainedMembers(products[product].plans[plan].pricingRules, backend, gone);
    }
  }

  ghost predicate Gone(gone: seq<string>, remote: set<string>, desired: set<string>) {
    forall name :: name in gone <==> name in remote && name !in desired
  }

  /**
   After both clean-ups every reference to the backend resolves exactly if, before them, each one was to a name that is
   desired or was still present remotely. A run cut short between the remote deletion and the update of a product
   leaves a name that is neither, and no later run removes the references to it.
   */
  lemma {:induction false} CleanupResolves(products: Products, backend: string,
                                           methods: set<string>, metrics: set<string>,
                                           remoteMethods: set<string>, remoteMetrics: set<string>,
                                           goneMethods: seq<string>, goneMetrics: seq<string>)
    requires Gone(goneMethods, remoteMethods, methods) && Gone(goneMetrics, remoteMetrics, metrics)
    ensures var cleaned := Cleaned(Cleaned(products, backend, goneMethods), backend, goneMetrics);
            Resolved(cleaned, backend, methods + metrics) <==>
            Resolved(products, backend, methods + metrics + remoteMethods + remoteMetrics)
  {
    var cleaned := Cleaned(Cleaned(products, backend, goneMethods), backend, goneMetrics);
    forall product, plan, e
      ensures HasEntry(cleaned, backend, product, plan, e) <==>
              HasEntry(products, backend, product, plan, e) &&
              !Dropped(e, backend, goneMethods) && !Dropped(e, backend, goneMetrics)
    {
      CleanedEntries(products, backend, goneMethods, product, plan, e);
      CleanedEntries(Cleaned(products, backend, goneMethods), backend, goneMetrics, product, plan, e);
    }
    if Resolved(cleaned, backend, methods + metrics) {
      forall product, plan, e | HasEntry(products, backend, product, plan, e) && e.ref.backend == Some(backend)
        ensures e.ref.systemName in methods + metrics + remoteMethods + remoteMetrics
      {
        assert HasEntry(cleaned, backend, product, plan, e) ||
               e.ref.systemName in goneMethods || e.ref.systemName in goneMetrics;
      }
    }
  }

  // ---------- Runs that fail ----------

  /** Some products have been cleaned, the others are as they were. */
  ghost predicate PartlyCleaned(before: Products, after: Products, backend: string, gone: seq<string>) {
    && after.Keys == before.Keys
    && forall name :: name in before ==>
         after[name] == before[name] || after[name] == CleanedIfLinked(before[name], backend, gone)
  }

  /** No entry appears, and only references of the backend to the dropped names disappear. */
  ghost predicate OnlyDropped(before: Products, after: Products, backend: string, dropped: set<string>) {
    && (forall product, plan, e ::
          HasEntry(after, backend, product, plan, e) ==> HasEntry(before, backend, product, plan, e))
    && (forall product, plan, e ::
          HasEntry(before, backend, product, plan, e) &&
          !(e.ref.backend == Some(backend) && e.ref.systemName in dropped) ==>
            HasEntry(after, backend, product, plan, e))
  }

  lemma {:induction false} CleanedOneMore(before: Products, after: Products, next: Products, backend: string,
                                          gone: seq<string>, name: string)
    requires PartlyCleaned(before, after, backend, gone) && name in before
    requires next == after || next == after[name := CleanedIfLinked(before[name], backend, gone)]
    ensures PartlyCleaned(before, next, backend, gone)
  {
  }

  lemma {:induction false} NothingCleaned(products: Products, backend: string, gone: seq<string>)
    ensures PartlyCleaned(products, products, backend, gone)
  {
  }

  lemma {:induction false} PartlyCleanedDrops(before: Products, after: Products, backend: string, gone: seq<string>,
                                              dropped: set<string>)
    requires PartlyCleaned(before, after, backend, gone) && forall name :: name in gone ==> name in dropped
    ensures OnlyDropped(before, after, backend, dropped)
  {
    forall product, plan, e
      ensures HasEntry(after, backend, product, plan, e) ==> HasEntry(before, backend, product, plan, e)
      ensures HasEntry(before, backend, product, plan, e) &&
              !(e.ref.backend == Some(backend) && e.ref.systemName in dropped) ==>
                HasEntry(after, backend, product, plan, e)
    {
      CleanedEntries(before, backend, gone, product, plan, e);
    }
  }

  lemma {:induction false} NothingDropped(products: Products, backend: string, dropped: set<string>)
    ensures OnlyDropped(products, products, backend, dropped)
  {
  }

  lemma {:induction false} OnlyDroppedTwice(a: Products, b: Products, c: Products, backend: string,
                                            one: set<string>, two: set<string>)
    requires OnlyDropped(a, b, backend, one) && OnlyDropped(b, c, backend, two)
    ensures OnlyDropped(a, c, backend, one + two)
  {
    hide HasEntry;
  }

  /** What the task for methods, or the one for metrics, does to its collection and to the products. */
  ghost predicate TaskRun(products: Products, products': Products, before: Items, after: Items, desired: Specs,
                          backend: string, succeeded: bool, gone: seq<string>) {
    && after.Keys <= before.Keys + desired.Keys
    && OnlyDropped(products, products', backend, before.Keys - desired.Keys)
    && (succeeded ==>
          Converged(after, desired) && Gone(gone, before.Keys, desired.Keys) &&
          products' == Cleaned(products, backend, gone))
  }

  /** Both tasks together. */
  lemma {:induction false} BothRun(p: Products, q: Products, r: Products, backend: string,
                                   methods: Items, methods': Items, methodSpecs: Specs, first: bool,
                                   metrics: Items, metrics': Items, metricSpecs: Specs, second: bool,
                                   goneMethods: seq<string>, goneMetrics: seq<string>)
    requires TaskRun(p, q, methods, methods', methodSpecs, backend, first, goneMethods)
    requires TaskRun(q, r, metrics, metrics', metricSpecs, backend, second, goneMetrics)
    ensures OnlyDropped(p, r, backend, (methods.Keys - methodSpecs.Keys) + (metrics.Keys - metricSpecs.Keys))
    ensures first && second ==>
              && Converged(methods', methodSpecs) && Converged(metrics', metricSpecs)
              && (Resolved(r, backend, methodSpecs.Keys + metricSpecs.Keys) <==>
                  Resolved(p, backend, methodSpecs.Keys + metricSpecs.Keys + (methods.Keys + metrics.Keys)))
  {
    hide OnlyDropped, Converged, Cleaned, Resolved, Gone;
    OnlyDroppedTwice(p, q, r, backend, methods.Keys - methodSpecs.Keys, metrics.Keys - metricSpecs.Keys);
    if first && second {
      CleanupResolves(p, backend, methodSpecs.Keys, metricSpecs.Keys, methods.Keys, metrics.Keys,
                      goneMethods, goneMetrics);
      assert methodSpecs.Keys + metricSpecs.Keys + methods.Keys + metrics.Keys ==
             methodSpecs.Keys + metricSpecs.Keys + (methods.Keys + metrics.Keys);
    }
  }

  /** References of the backend to names outside the given ones: nothing known stands behind them. */
  ghost predicate Dangling(products: Products, backend: string, known: set<string>, product: string, plan: string,
                           e: Entry) {
    HasEntry(products, backend, product, plan, e) && e.ref.backend == Some(backend) && e.ref.systemName !in known
  }

  /** Whatever dangled still does. */
  ghost predicate StillDangling(before: Products, after: Products, backend: string, known: set<string>,
                                known': set<string>) {
    forall product, plan, e :: Dangling(before, backend, known, product, plan, e) ==>
      Dangling(after, backend, known', product, plan, e)
  }

  /** What is neither desired nor remote is not dropped by a run, and does not become remote either. */
  lemma {:induction false} DanglingStays(before: Products, after: Products, backend: string, desired: set<string>,
                                         dropped: set<string>, remote: set<string>, remote': set<string>)
    requires OnlyDropped(before, after, backend, dropped) && dropped <= remote && remote' <= remote + desired
    ensures StillDangling(before, after, backend, desired + remote, desired + remote')
  {
    hide HasEntry;
  }

  /** A reference that would still resolve is removed exactly when its name moved between methods and metrics. */
  lemma {:induction false} MovedNamesDropped(e: Entry, backend: string, methods: set<string>, metrics: set<string>,
                                             remoteMethods: set<string>, remoteMetrics: set<string>,
                                             goneMethods: seq<string>, goneMetrics: seq<string>)
    requires Gone(goneMethods, remoteMethods, methods) && Gone(goneMetrics, remoteMetrics, metrics)
    requires e.ref.backend == Some(backend) && e.ref.systemName in methods + metrics
    ensures var name := e.ref.systemName;
            Dropped(e, backend, goneMethods) || Dropped(e, backend, goneMetrics) <==>
            || (name in remoteMethods && name in metrics - methods)
            || (name in remoteMetrics && name in methods - metrics)
  {
  }

  /** Resolved references pass the checks of the product that holds them. */
  lemma {:induction false} ResolvedReferencesPass(products: Products, all: seq<Backend>, b: Backend, product: string,
                                                  plan: string, e: Entry, kind: FaultKind)
    requires Resolved(products, b.systemName, b.methods + b.metrics)
    requires b in all && forall other :: other in all && other.systemName == b.systemName ==> other == b
    requires HasEntry(products, b.systemName, product, plan, e) && e.ref.backend == Some(b.systemName)
    ensures !Faulty(UsedBackends(all, products[product].backendUsages), e, kind)
  {
    var used := UsedBackends(all, products[product].backendUsages);
    UsedMembers(all, products[product].backendUsages);
    assert b in used;
    if kind.InvalidMetric? {
      forall i | IsFirst(used, i, b.systemName) ensures used[i].FindMetricOrMethod(e.ref.systemName) {
        assert used[i] in used;
      }
    }
  }

  class BackendReconciler {
    const systemName: string
    const methods: NamedReconciler
    const metrics: NamedReconciler
    const store: ProductStore

    constructor (systemName: string, methods: NamedReconciler, metrics: NamedReconciler, store: ProductStore)
      ensures this.systemName == systemName && this.methods == methods && this.metrics == metrics && this.store == store
    {
      this.systemName, this.methods, this.metrics, this.store := systemName, methods, metrics, store;
    }

    ghost predicate Valid()
      reads methods.server, metrics.server
    {
      methods.server != metrics.server && methods.Valid() && metrics.Valid()
    }

    /** The names of the specification, and those of the remote backend. */
    ghost function Desired(): set<string> {
      methods.desired.Keys + metrics.desired.Keys
    }

    ghost function Remote(): set<string>
      reads methods.server, metrics.server
    {
      methods.server.items.Keys + metrics.server.items.Keys
    }

    /** No call fails, and no method or metric to be deleted is in use. */
    ghost predicate Unobstructed(r: NamedReconciler)
      reads store, r.server
    {
      r.server.reliable && store.reliable && !store.down && r.Gone() !! r.server.inUse
    }

    /** Cleans one product, and writes it if that changes it. */
    method CleanProduct(name: string, p: Product, gone: seq<string>) returns (ok: bool)
      requires name in store.products && store.products[name] == p
      modifies store`products, store`written
      ensures store.reliable && !store.down ==> ok
      ensures store.products == old(store.products) ||
              store.products == old(store.products)[name := CleanedIfLinked(p, systemName, gone)]
      ensures ok ==> store.products == old(store.products)[name := CleanedIfLinked(p, systemName, gone)]
      ensures ok ==> store.written ==
                     old(store.written) + if CleanedIfLinked(p, systemName, gone) != p then [name] else []
    {
      ok := true;
      if systemName in p.backendUsages {
        var updated, cleaned := RemoveReferences(p, systemName, gone);
        if updated {
          ok := store.UpdateResource(name, cleaned);
        }
      }
    }

    /** Cleans the products that use the backend, and writes exactly those that change. */
    method DeleteExternalMetricReferences(gone: seq<string>) returns (ok: bool, ghost changed: seq<string>)
      modifies store`products, store`written
      ensures store.reliable && !store.down ==> ok
      ensures store.down ==> !ok && store.products == old(store.products)
      ensures PartlyCleaned(old(store.products), store.products, systemName, gone)
      ensures ok ==> store.products == Cleaned(old(store.products), systemName, gone)
      ensures ok ==> store.written == old(store.written) + changed && Distinct(changed)
      ensures ok ==> forall name :: name in changed <==>
                                    && name in old(store.products)
                                    && store.products[name] != old(store.products)[name]
    {
      hide CleanedIfLinked, PartlyCleaned;
      changed := [];
      NothingCleaned(store.products, systemName, gone);
      var listed;
      ok, listed := store.List();
      if !ok { return; }
      var names := KeysInAnyOrder(listed);
      for i := 0 to |names|
        invariant ok && store.written == old(store.written) + changed && Distinct(changed)
        invariant PartlyCleaned(listed, store.products, systemName, gone) && store.products.Keys == listed.Keys
        invariant forall name :: name in listed ==>
                    store.products[name] ==
                    if name in names[..i] then CleanedIfLinked(listed[name], systemName, gone) else listed[name]
        invariant forall name :: name in changed <==>
                    name in names[..i] && CleanedIfLinked(listed[name], systemName, gone) != listed[name]
      {
        var name := names[i];
        assert name !in names[..i] && names[..i + 1] == names[..i] + [name];
        ghost var now := store.products;
        ok := CleanProduct(name, listed[name], gone);
        CleanedOneMore(listed, now, store.products, systemName, gone, name);
        if !ok { return; }
        if CleanedIfLinked(listed[name], systemName, gone) != listed[name] {
          changed := changed + [name];
        }
      }
      assert names[..|names|] == names;
    }

    /** The remote methods come first; only when they are as desired are the products cleaned. */
    method SyncMethods() returns (outcome: TaskOutcome, ghost gone: seq<string>)
      requires Valid()
      modifies methods.server, store`products, store`written
      ensures Valid()
      ensures TaskRun(old(store.products), store.products, old(methods.server.items), methods.server.items,
                      methods.desired, systemName, outcome.Succeeded?, gone)
      ensures methods.server.reliable && old(methods.Gone()) !! methods.server.inUse ==>
                && Converged(methods.server.items, methods.desired)
                && (store.down ==> outcome.Failed? && store.products == old(store.products))
                && (store.reliable && !store.down ==> outcome.Succeeded?)
    {
      hide Converged, Cleaned, OnlyDropped, CleanedIfLinked, PartlyCleaned;
      var s;
      outcome, s := methods.SyncUpdatingFirst();
      gone := s.gone;
      if !outcome.Succeeded? {
        NothingDropped(store.products, systemName, old(methods.Gone()));
        return;
      }
      var ok;
      ghost var changed;
      ok, changed := DeleteExternalMetricReferences(s.gone);
      PartlyCleanedDrops(old(store.products), store.products, systemName, s.gone, old(methods.Gone()));
      if !ok { outcome := Failed; }
    }

    method SyncMetrics() returns (outcome: TaskOutcome, ghost gone: seq<string>)
      requires Valid()
      modifies metrics.server, store`products, store`written
      ensures Valid()
      ensures TaskRun(old(store.products), store.products, old(metrics.server.items), metrics.server.items,
                      metrics.desired, systemName, outcome.Succeeded?, gone)
      ensures metrics.server.reliable && old(metrics.Gone()) !! metrics.server.inUse ==>
                && Converged(metrics.server.items, metrics.desired)
                && (store.down ==> outcome.Failed? && store.products == old(store.products))
                && (store.reliable && !store.down ==> outcome.Succeeded?)
    {
      hide Converged, Cleaned, OnlyDropped, CleanedIfLinked, PartlyCleaned;
      var s;
      outcome, s := metrics.SyncUpdatingFirst();
      gone := s.gone;
      if !outcome.Succeeded? {
        NothingDropped(store.products, systemName, old(metrics.Gone()));
        return;
      }
      var ok;
      ghost var changed;
      ok, changed := DeleteExternalMetricReferences(s.gone);
      PartlyCleanedDrops(old(store.products), store.products, systemName, s.gone, old(metrics.Gone()));
      if !ok { outcome := Failed; }
    }

    method AllTasks() returns (runner: TaskRunner)
      ensures fresh(runner) && runner.Valid() && runner.taskList == TASKS && runner.log == []
    {
      runner := new TaskRunner();
      runner.AddTask("SyncBackend");
      runner.AddTask("SyncMethods");
      runner.AddTask("SyncMetrics");
      runner.AddTask("SyncMappingRules");
    }

    /** Stands for a task that touches neither methods, nor metrics, nor products. */
    method OtherTask() returns (outcome: TaskOutcome)
    {
      outcome := *;
    }

    /**
     One run of all tasks. However it ends, it adds only desired names and removes only references to dropped ones. If
     it succeeds, references resolve exactly if each was to a name that was desired or still there when it began. If
     no call fails and nothing to be deleted is in use, the tasks for methods and metrics succeed if it is their turn.
     */
    method Reconcile() returns (r: RunResult, ghost log: seq<Executed>)
      requires Valid()
      modifies methods.server, metrics.server, store`products, store`written
      ensures Valid() && Remote() <= old(Remote()) + Desired()
      ensures OnlyDropped(old(store.products), store.products, systemName,
                          old(methods.Gone()) + old(metrics.Gone()))
      ensures Means(TASKS, log, r)
      ensures old(Unobstructed(methods)) && old(Unobstructed(metrics)) ==>
                |log| == 1 || (|log| >= 3 && log[1].outcome.Succeeded? && log[2].outcome.Succeeded?)
      ensures r.Success? ==>
                && Converged(methods.server.items, methods.desired) && Converged(metrics.server.items, metrics.desired)
                && (Resolved(store.products, systemName, Desired()) <==>
                    Resolved(old(store.products), systemName, Desired() + old(Remote())))
    {
      hide TaskRun, OnlyDropped, Resolved, Converged, Means;
      var runner := AllTasks();
      var outcome := OtherTask();
      runner.Record(outcome);
      ghost var both := RunMethodsAndMetrics(runner);
      r := RunMappingRules(runner, both);
      log := runner.log;
    }

    /** Runs the last task, unless a task has failed for good, and ends the run. */
    method RunMappingRules(runner: TaskRunner, ghost both: bool) returns (r: RunResult)
      requires runner.Valid() && runner.taskList == TASKS
      requires |runner.log| <= 3 && (|runner.log| < 3 ==> !runner.More())
      requires both <==> |runner.log| == 3 && runner.log[1].outcome.Succeeded? && runner.log[2].outcome.Succeeded?
      modifies runner`log, runner`deferred
      ensures Means(TASKS, runner.log, r) && (r.Success? ==> both) && old(runner.log) <= runner.log
      ensures |old(runner.log)| == 1 ==> runner.log == old(runner.log)
    {
      hide Means;
      if runner.More() {
        var outcome := OtherTask();
        runner.Record(outcome);
      }
      r := runner.Result();
      SuccessMeansAll(runner.log, r);
    }

    method RunMethodsAndMetrics(runner: TaskRunner) returns (ghost both: bool)
      requires Valid() && runner.Valid() && runner.taskList == TASKS && |runner.log| == 1
      modifies methods.server, metrics.server, store`products, store`written, runner`log, runner`deferred
      ensures Valid() && runner.Valid() && |runner.log| <= 3 && (|runner.log| < 3 ==> !runner.More())
      ensures both <==> |runner.log| == 3 && runner.log[1].outcome.Succeeded? && runner.log[2].outcome.Succeeded?
      ensures old(runner.log) <= runner.log
      ensures old(Unobstructed(methods)) && old(Unobstructed(metrics)) && old(runner.More()) ==> both
      ensures Remote() <= old(Remote()) + Desired()
      ensures OnlyDropped(old(store.products), store.products, systemName,
                          old(methods.Gone()) + old(metrics.Gone()))
      ensures both ==>
                && Converged(methods.server.items, methods.desired) && Converged(metrics.server.items, metrics.desired)
                && (Resolved(store.products, systemName, Desired()) <==>
                    Resolved(old(store.products), systemName, Desired() + old(Remote())))
    {
      hide TaskRun, OnlyDropped, Resolved, Converged, Means;
      ghost var first, second, goneMethods, goneMetrics;
      first, goneMethods := RunMethods(runner);
      ghost var products, items := store.products, methods.server.items;
      second, goneMetrics := RunMetrics(runner);
      both := first && second;
      BothRun(old(store.products), products, store.products, systemName,
              old(methods.server.items), items, methods.desired, first,
              old(metrics.server.items), metrics.server.items, metrics.desired, second, goneMethods, goneMetrics);
      Bounded(old(store.products), products, old(methods.server.items), items, methods.desired, systemName, first,
              goneMethods);
      Bounded(products, store.products, old(metrics.server.items), metrics.server.items, metrics.desired, systemName,
              second, goneMetrics);
    }

    /** Runs the second task if the first one has not failed for good. */
    method RunMethods(runner: TaskRunner) returns (ghost succeeded: bool, ghost gone: seq<string>)
      requires Valid() && runner.Valid() && runner.taskList == TASKS && |runner.log| == 1
      modifies methods.server, store`products, store`written, runner`log, runner`deferred
      ensures Valid() && runner.Valid() && old(runner.log) <= runner.log && |runner.log| <= 2
      ensures |runner.log| == 1 ==> !runner.More()
      ensures succeeded <==> |runner.log| == 2 && runner.log[1].outcome.Succeeded?
      ensures old(Unobstructed(methods)) && old(runner.More()) ==> succeeded
      ensures TaskRun(old(store.products), store.products, old(methods.server.items), methods.server.items,
                      methods.desired, systemName, succeeded, gone)
    {
      hide TaskRun;
      if !runner.More() {
        NothingRun(store.products, methods.server.items, methods.desired, systemName);
        return false, [];
      }
      var outcome;
      outcome, gone := SyncMethods();
      runner.Record(outcome);
      succeeded := outcome.Succeeded?;
    }

    /** Runs the third task if no task before has failed for good. */
    method RunMetrics(runner: TaskRunner) returns (ghost succeeded: bool, ghost gone: seq<string>)
      requires Valid() && runner.Valid() && runner.taskList == TASKS && 1 <= |runner.log| <= 2
      requires |runner.log| == 1 ==> !runner.More()
      modifies metrics.server, store`products, store`written, runner`log, runner`deferred
      ensures Valid() && runner.Valid() && old(runner.log) <= runner.log && |runner.log| <= 3
      ensures |runner.log| < 3 ==> !runner.More()
      ensures succeeded <==> |runner.log| == 3 && runner.log[2].outcome.Succeeded?
      ensures old(Unobstructed(metrics)) && old(runner.More()) && |old(runner.log)| == 2 ==> succeeded
      ensures TaskRun(old(store.products), store.products, old(metrics.server.items), metrics.server.items,
                      metrics.desired, systemName, succeeded, gone)
    {
      hide TaskRun;
      if !runner.More() {
        NothingRun(store.products, metrics.server.items, metrics.desired, systemName);
        return false, [];
      }
      var outcome;
      outcome, gone := SyncMetrics();
      runner.Record(outcome);
      succeeded := outcome.Succeeded?;
    }
  }

  lemma {:induction false} NothingRun(products: Products, items: Items, desired: Specs, backend: string)
    ensures TaskRun(products, products, items, items, desired, backend, false, [])
  {
    NothingDropped(products, backend, items.Keys - desired.Keys);
  }

  lemma {:induction false} Bounded(products: Products, products': Products, before: Items, after: Items,
                                   desired: Specs, backend: string, succeeded: bool, gone: seq<string>)
    requires TaskRun(products, products', before, after, desired, backend, succeeded, gone)
    ensures after.Keys <= before.Keys + desired.Keys
  {
  }

  lemma {:induction false} SuccessMeansAll(log: seq<Executed>, r: RunResult)
    requires Means(TASKS, log, r)
    ensures r.Success? ==> |log| == 4 && forall i :: 0 <= i < 4 ==> log[i].outcome.Succeeded?
  {
  }

  const TASKS := ["SyncBackend", "SyncMethods", "SyncMetrics", "SyncMappingRules"]

  // ---------- Later runs ----------

  lemma {:induction false} StillDanglingTwice(a: Products, b: Products, c: Products, backend: string,
                                              one: set<string>, two: set<string>, three: set<string>)
    requires StillDangling(a, b, backend, one, two) && StillDangling(b, c, backend, two, three)
    ensures StillDangling(a, c, backend, one, three)
  {
    hide Dangling;
  }

  /**
   Any number of runs, however they end. A reference to a name that is neither desired nor remote survives them all;
   and if the last run succeeds, references resolve exactly if none dangled when it began.
   */
  method ReconcileRepeatedly(reconciler: BackendReconciler, runs: nat)
    returns (last: Option<RunResult>, ghost before: Products, ghost remote: set<string>)
    requires reconciler.Valid()
    modifies reconciler.methods.server, reconciler.metrics.server
    modifies reconciler.store`products, reconciler.store`written
    ensures reconciler.Valid()
    ensures StillDangling(old(reconciler.store.products), reconciler.store.products, reconciler.systemName,
                          reconciler.Desired() + old(reconciler.Remote()),
                          reconciler.Desired() + reconciler.Remote())
    ensures last.Some? <==> runs > 0
    ensures last == Some(Success) ==>
              (Resolved(reconciler.store.products, reconciler.systemName, reconciler.Desired()) <==>
               Resolved(before, reconciler.systemName, reconciler.Desired() + remote))
    ensures StillDangling(old(reconciler.store.products), before, reconciler.systemName,
                          reconciler.Desired() + old(reconciler.Remote()), reconciler.Desired() + remote)
  {
    hide Resolved, OnlyDropped, Converged, Means, StillDangling;
    ghost var start, known := reconciler.store.products, reconciler.Desired() + reconciler.Remote();
    last, before, remote := None, start, reconciler.Remote();
    NothingLost(start, reconciler.systemName, known);
    for n := 0 to runs
      invariant reconciler.Valid() && (last.Some? <==> n > 0)
      invariant StillDangling(start, reconciler.store.products, reconciler.systemName, known,
                              reconciler.Desired() + reconciler.Remote())
      invariant StillDangling(start, before, reconciler.systemName, known, reconciler.Desired() + remote)
      invariant last == Some(Success) ==>
                  (Resolved(reconciler.store.products, reconciler.systemName, reconciler.Desired()) <==>
                   Resolved(before, reconciler.systemName, reconciler.Desired() + remote))
    {
      before, remote := reconciler.store.products, reconciler.Remote();
      ghost var dropped := reconciler.methods.Gone() + reconciler.metrics.Gone();
      var r;
      ghost var log;
      r, log := reconciler.Reconcile();
      last := Some(r);
      DanglingStays(before, reconciler.store.products, reconciler.systemName, reconciler.Desired(), dropped, remote,
                    reconciler.Remote());
      StillDanglingTwice(start, before, reconciler.store.products, reconciler.systemName, known,
                         reconciler.Desired() + remote, reconciler.Desired() + reconciler.Remote());
    }
  }

  lemma {:induction false} NothingLost(products: Products, backend: string, known: set<string>)
    ensures StillDangling(products, products, backend, known, known)
  {
  }

  /**
   An outage of the cluster after the remote deletions: a reference to a dropped method is then there for ever, although
   it would have been removed without the outage, and although no call fails in any later run.
   */
  method OutageKeepsReference(reconciler: BackendReconciler, product: string, plan: string, e: Entry, runs: nat)
    requires reconciler.Valid() && !reconciler.store.down
    requires HasEntry(reconciler.store.products, reconciler.systemName, product, plan, e)
    requires e.ref.backend == Some(reconciler.systemName) && e.ref.systemName in reconciler.methods.Gone()
    requires e.ref.systemName !in reconciler.metrics.server.items && e.ref.systemName !in reconciler.metrics.desired
    requires reconciler.methods.server.reliable && reconciler.methods.Gone() !! reconciler.methods.server.inUse
    modifies reconciler.methods.server, reconciler.metrics.server, reconciler.store
    ensures reconciler.Valid() && !reconciler.store.down
    ensures HasEntry(reconciler.store.products, reconciler.systemName, product, plan, e)
    ensures !Resolved(reconciler.store.products, reconciler.systemName, reconciler.Desired())
  {
    hide HasEntry, TaskRun, StillDangling;
    reconciler.store.down := true;
    var outcome;
    ghost var gone;
    outcome, gone := reconciler.SyncMethods();
    reconciler.store.down := false;
    ghost var known := reconciler.Desired() + reconciler.Remote();
    assert Dangling(reconciler.store.products, reconciler.systemName, known, product, plan, e);
    ghost var products := reconciler.store.products;
    var last;
    ghost var before, remote;
    last, before, remote := ReconcileRepeatedly(reconciler, runs);
    Survives(products, reconciler.store.products, reconciler.systemName, known,
             reconciler.Desired() + reconciler.Remote(), product, plan, e);
  }

  lemma {:induction false} Survives(before: Products, after: Products, backend: string, known: set<string>,
                                    known': set<string>, product: string, plan: string, e: Entry)
    requires StillDangling(before, after, backend, known, known')
    requires Dangling(before, backend, known, product, plan, e)
    ensures Dangling(after, backend, known', product, plan, e)
    ensures forall names :: names <= known' ==> !Resolved(after, backend, names)
  {
  }

  /** Such a backend: one remote method that is not desired any more, and a limit that refers to it. */
  method OrphanedLimit(runs: nat) returns (reconciler: BackendReconciler)
    ensures fresh(reconciler) && reconciler.Valid() && !reconciler.store.down && reconciler.store.reliable
    ensures !Resolved(reconciler.store.products, reconciler.systemName, reconciler.Desired())
  {
    var limit := Entry(MetricRef(Some("backend"), "method"), "day:10");
    var products := map["product" := Product({"backend"}, map["plan" := Plan([limit], [])])];
    var methodServer := new ItemServer(map["method" := Item(1, map[])], 2, map[], {}, true);
    var metricServer := new ItemServer(map[], 1, map[], {}, true);
    var methods := new NamedReconciler(methodServer, map[]);
    var metrics := new NamedReconciler(metricServer, map[]);
    var store := new ProductStore(products, true);
    reconciler := new BackendReconciler("backend", methods, metrics, store);
    OutageKeepsReference(reconciler, "product", "plan", limit, runs);
  }
}
