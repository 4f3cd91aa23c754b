/**
 The deployment mutators: each changes one aspect of the existing deployment in place where it differs from the desired
 one, and they run in the order in which they are listed.
 */
module Deployments {
  import opened StringSlices

  datatype ResourceList = ResourceList(cpu: int, memory: int, other: map<string, int>)

  datatype Resources = Resources(limits: ResourceList, requests: ResourceList)

  /** Only CPU and memory are compared. */
  predicate SameResourceList(a: ResourceList, b: ResourceList) {
    a.cpu == b.cpu && a.memory == b.memory
  }

  predicate SameResources(a: Resources, b: Resources) {
    SameResourceList(a.limits, b.limits) && SameResourceList(a.requests, b.requests)
  }

  /** A container; rest stands for the fields no mutator here looks at. */
  datatype Container =
    Container(resources: Resources, args: seq<string>, liveness: string, readiness: string, image: string, rest: string)

  type Strings = map<string, string>

  datatype Spec =
    Spec(annotations: Strings, podLabels: Strings, podAnnotations: Strings, affinity: string, tolerations: string,
         priorityClass: string, topologySpread: string, containers: seq<Container>, initContainers: seq<Container>)

  datatype Mutator =
    | Annotations | ContainerResources | Affinity | Tolerations | PodTemplateLabels | PriorityClass
    | TopologySpreadConstraints | PodTemplateAnnotations | Args | Probes | ContainerImage | InitContainerImage
    | InitContainers

  datatype Outcome = Changed | Unchanged | Error | Fault

  // ---------- What the mutators do ----------

  /** What a mutator makes of the containers that both sides have. */
  function Each(m: Mutator, desired: seq<Container>, existing: seq<Container>): seq<Container>
    requires |desired| <= |existing|
  {
    seq(|existing|, i requires 0 <= i < |existing| =>
      if i >= |desired| then existing[i] else
      match m
      case Args => existing[i].(args := desired[i].args)
      case Probes => existing[i].(liveness := desired[i].liveness, readiness := desired[i].readiness)
      case ContainerImage => existing[i].(image := desired[i].image)
      case _ => existing[i])
  }

  /** The images of the common init containers, and those the existing deployment lacks. */
  function InitImages(desired: seq<Container>, existing: seq<Container>): seq<Container> {
    seq(if |desired| <= |existing| then |existing| else |desired|,
        i requires 0 <= i < (if |desired| <= |existing| then |existing| else |desired|) =>
          if i >= |existing| then desired[i]
          else if i >= |desired| then existing[i]
          else existing[i].(image := desired[i].image))
  }

  function WithResources(desired: seq<Container>, existing: seq<Container>): seq<Container>
    requires |desired| == 1
  {
    var one := if |existing| != 1 then desired else existing;
    if SameResources(one[0].resources, desired[0].resources) then one
    else [one[0].(resources := desired[0].resources)]
  }

  predicate PerContainer(m: Mutator) {
    m.Args? || m.Probes? || m.ContainerImage?
  }

  /** The mutator reports an error. */
  predicate Fails(m: Mutator, desired: Spec) {
    m.ContainerResources? && |desired.containers| != 1
  }

  /** The mutator would read a container that the existing deployment does not have. */
  predicate Faults(m: Mutator, desired: Spec, existing: Spec) {
    PerContainer(m) && |existing.containers| < |desired.containers|
  }

  function Applied(m: Mutator, d: Spec, e: Spec): Spec
    requires !Fails(m, d) && !Faults(m, d, e)
  {
    match m
    case Annotations => e.(annotations := e.annotations + d.annotations)
    case ContainerResources => e.(containers := WithResources(d.containers, e.containers))
    case Affinity => e.(affinity := d.affinity)
    case Tolerations => e.(tolerations := d.tolerations)
    case PodTemplateLabels => e.(podLabels := e.podLabels + d.podLabels)
    case PriorityClass => e.(priorityClass := d.priorityClass)
    case TopologySpreadConstraints => e.(topologySpread := d.topologySpread)
    case PodTemplateAnnotations => e.(podAnnotations := e.podAnnotations + d.podAnnotations)
    case Args => e.(containers := Each(Args, d.containers, e.containers))
    case Probes => e.(containers := Each(Probes, d.containers, e.containers))
    case ContainerImage => e.(containers := Each(ContainerImage, d.containers, e.containers))
    case InitContainerImage => e.(initContainers := InitImages(d.initContainers, e.initContainers))
    case InitContainers => e.(initContainers := d.initContainers)
  }

  // ---------- Runs of mutators ----------

  datatype Run = Done(spec: Spec) | Stopped(spec: Spec) | Broken

  function RunOf(opts: seq<Mutator>, d: Spec, e: Spec): Run {
    if opts == [] then Done(e)
    else if Fails(opts[0], d) then Stopped(e)
    else if Faults(opts[0], d, e) then Broken
    else RunOf(opts[1..], d, Applied(opts[0], d, e))
  }

  /** The aspect of the mutator needs no change any more. */
  predicate Agrees(m: Mutator, d: Spec, e: Spec) {
    !Fails(m, d) && !Faults(m, d, e) && Applied(m, d, e) == e
  }

  lemma {:induction false} Establishes(m: Mutator, d: Spec, e: Spec)
    requires !Fails(m, d) && !Faults(m, d, e)
    ensures Agrees(m, d, Applied(m, d, e))
  {
  }

  /** No mutator undoes another one. */
  lemma {:induction false} Preserves(k: Mutator, m: Mutator, d: Spec, e: Spec)
    requires Agrees(k, d, e) && !Fails(m, d) && !Faults(m, d, e)
    ensures Agrees(k, d, Applied(m, d, e))
  {
  }

  /** A run that ends without error leaves every listed aspect in agreement. */
  lemma {:induction false} RunAgrees(opts: seq<Mutator>, d: Spec, e: Spec, kept: set<Mutator>)
    requires RunOf(opts, d, e).Done?
    requires forall k :: k in kept ==> Agrees(k, d, e)
    ensures forall k :: k in kept || k in opts ==> Agrees(k, d, RunOf(opts, d, e).spec)
  {
    if opts != [] {
      var e' := Applied(opts[0], d, e);
      Establishes(opts[0], d, e);
      forall k | k in kept ensures Agrees(k, d, e') {
        Preserves(k, opts[0], d, e);
      }
      RunAgrees(opts[1..], d, e', kept + {opts[0]});
      assert opts == [opts[0]] + opts[1..];
    }
  }

  lemma {:induction false} AgreeingRunStays(opts: seq<Mutator>, d: Spec, e: Spec)
    requires forall k :: k in opts ==> Agrees(k, d, e)
    ensures RunOf(opts, d, e) == Done(e)
  {
    if opts != [] {
      assert Agrees(opts[0], d, e);
      AgreeingRunStays(opts[1..], d, e);
    }
  }

  /** In whatever order mutators are listed, a run after one that ended without error changes nothing. */
  lemma {:induction false} SecondRunStays(opts: seq<Mutator>, d: Spec, e: Spec)
    requires RunOf(opts, d, e).Done?
    ensures RunOf(opts, d, RunOf(opts, d, e).spec) == RunOf(opts, d, e)
  {
    RunAgrees(opts, d, e, {});
    AgreeingRunStays(opts, d, RunOf(opts, d, e).spec);
  }

  /** A mutator over containers is listed and nothing that would adjust or refuse their number comes before it. */
  ghost predicate Unguarded(opts: seq<Mutator>, i: nat) {
    i < |opts| && PerContainer(opts[i]) && ContainerResources !in opts[..i]
  }

  /** A run reads a missing container exactly if the existing ones are too few and such a mutator is unguarded. */
  lemma {:induction false} BrokenRuns(opts: seq<Mutator>, d: Spec, e: Spec)
    ensures RunOf(opts, d, e).Broken? <==>
            |e.containers| < |d.containers| && exists i: nat :: Unguarded(opts, i)
  {
    if opts == [] {
    } else if opts[0].ContainerResources? {
      forall i: nat ensures !Unguarded(opts, i) {
        assert 0 < i <= |opts| ==> opts[..i][0] == ContainerResources;
      }
      if !Fails(opts[0], d) {
        EnoughContainers(opts[1..], d, Applied(opts[0], d, e));
      }
    } else if Faults(opts[0], d, e) {
      assert Unguarded(opts, 0);
    } else {
      var e' := Applied(opts[0], d, e);
      assert |e'.containers| == |e.containers|;
      BrokenRuns(opts[1..], d, e');
      if i: nat :| Unguarded(opts[1..], i) {
        assert opts[..i + 1] == [opts[0]] + opts[1..][..i];
        assert Unguarded(opts, i + 1);
      }
      if |e.containers| < |d.containers| {
        forall i: nat | Unguarded(opts, i) ensures i > 0 && Unguarded(opts[1..], i - 1) {
          assert opts[..i] == [opts[0]] + opts[1..][..i - 1];
        }
      }
    }
  }

  lemma {:induction false} EnoughContainers(opts: seq<Mutator>, d: Spec, e: Spec)
    requires |d.containers| <= |e.containers|
    ensures !RunOf(opts, d, e).Broken?
  {
    if opts != [] && !Fails(opts[0], d) {
      EnoughContainers(opts[1..], d, Applied(opts[0], d, e));
    }
  }

  lemma {:induction false} StoppedRuns(opts: seq<Mutator>, d: Spec, e: Spec)
    ensures !RunOf(opts, d, e).Broken? ==>
              (RunOf(opts, d, e).Stopped? <==> ContainerResources in opts && |d.containers| != 1)
  {
    if opts != [] {
      assert opts == [opts[0]] + opts[1..];
      if !Fails(opts[0], d) && !Faults(opts[0], d, e) {
        StoppedRuns(opts[1..], d, Applied(opts[0], d, e));
      }
    }
  }

  // ---------- What becomes of the fields ----------

  /** Keys that are not desired keep their values, or stay absent. */
  ghost predicate OthersKept(desired: Strings, was: Strings, now: Strings) {
    forall k :: k !in desired ==> (k in now <==> k in was) && (k in now ==> now[k] == was[k])
  }

  ghost predicate Carries(desired: Strings, now: Strings) {
    forall k :: k in desired ==> k in now && now[k] == desired[k]
  }

  /** Of a container that was alone only the compared fields change, its resources only if CPU or memory differ. */
  ghost predicate ContainerKept(desired: Container, was: seq<Container>, now: seq<Container>) {
    if |was| == 1 then
      && |now| == 1 && now[0].rest == was[0].rest
      && (|| now[0].resources == was[0].resources
          || (!SameResources(was[0].resources, desired.resources) && now[0].resources == desired.resources))
    else
      || |now| == |was|
      || (|now| == 1 && now[0].rest == desired.rest && now[0].resources == desired.resources)
  }

  /** Init containers keep all but their images, surplus ones those too; what is new is as desired. */
  ghost predicate InitContainersKept(desired: seq<Container>, was: seq<Container>, now: seq<Container>) {
    && |was| <= |now| && (|now| == |was| || |now| <= |desired|)
    && (forall i :: 0 <= i < |was| ==> now[i] == was[i].(image := now[i].image))
    && (forall i :: |desired| <= i < |was| ==> now[i] == was[i])
    && (forall i :: |was| <= i < |now| ==> now[i] == desired[i])
  }

  /** What no run touches. */
  ghost predicate Keeps(d: Spec, was: Spec, now: Spec)
    requires |d.containers| == 1
  {
    && OthersKept(d.annotations, was.annotations, now.annotations)
    && OthersKept(d.podLabels, was.podLabels, now.podLabels)
    && OthersKept(d.podAnnotations, was.podAnnotations, now.podAnnotations)
    && ContainerKept(d.containers[0], was.containers, now.containers)
    && InitContainersKept(d.initContainers, was.initContainers, now.initContainers)
  }

  lemma {:induction false} AppliedKeeps(m: Mutator, d: Spec, was: Spec, e: Spec)
    requires |d.containers| == 1 && Keeps(d, was, e) && !Faults(m, d, e) && !m.InitContainers?
    ensures Keeps(d, was, Applied(m, d, e))
  {
  }

  lemma {:induction false} RunKeeps(opts: seq<Mutator>, d: Spec, was: Spec, e: Spec)
    requires |d.containers| == 1 && Keeps(d, was, e) && RunOf(opts, d, e).Done? && InitContainers !in opts
    ensures Keeps(d, was, RunOf(opts, d, e).spec)
  {
    if opts != [] {
      hide Keeps, Applied;
      AppliedKeeps(opts[0], d, was, e);
      RunKeeps(opts[1..], d, was, Applied(opts[0], d, e));
    }
  }

  /** The fields of the deployment after an error-free run of the backend mutators, one by one. */
  ghost predicate Settled(d: Spec, was: Spec, now: Spec) {
    && Carries(d.annotations, now.annotations) && OthersKept(d.annotations, was.annotations, now.annotations)
    && Carries(d.podLabels, now.podLabels) && OthersKept(d.podLabels, was.podLabels, now.podLabels)
    && Carries(d.podAnnotations, now.podAnnotations)
    && OthersKept(d.podAnnotations, was.podAnnotations, now.podAnnotations)
    && now.affinity == d.affinity && now.tolerations == d.tolerations
    && now.priorityClass == d.priorityClass && now.topologySpread == d.topologySpread
    && |d.containers| == 1 && |now.containers| == 1
    && (var c, w := now.containers[0], d.containers[0];
        && c.args == w.args && c.liveness == w.liveness && c.readiness == w.readiness && c.image == w.image
        && c.resources.limits.cpu == w.resources.limits.cpu && c.resources.limits.memory == w.resources.limits.memory
        && c.resources.requests.cpu == w.resources.requests.cpu
        && c.resources.requests.memory == w.resources.requests.memory
        && ContainerKept(w, was.containers, now.containers))
    && |d.initContainers| <= |now.initContainers|
    && (forall i :: 0 <= i < |d.initContainers| ==> now.initContainers[i].image == d.initContainers[i].image)
    && InitContainersKept(d.initContainers, was.initContainers, now.initContainers)
  }

  /** The list for the backend deployments. */
  const GENERIC_BACKEND: seq<Mutator> :=
    [Annotations, ContainerResources, Affinity, Tolerations, PodTemplateLabels, PriorityClass,
     TopologySpreadConstraints, PodTemplateAnnotations, Args, Probes, ContainerImage, InitContainerImage]
  /**
   For every deployment: the backend list reads no missing container, and without error it settles the fields of the
   deployment, with nothing left to change.
   */
  lemma {:induction false} GenericBackendSafe(d: Spec, e: Spec)
    ensures !RunOf(GENERIC_BACKEND, d, e).Broken?
    ensures RunOf(GENERIC_BACKEND, d, e).Done? <==> |d.containers| == 1
    ensures RunOf(GENERIC_BACKEND, d, e).Done? ==>
              var s := RunOf(GENERIC_BACKEND, d, e).spec;
              Settled(d, e, s) && RunOf(GENERIC_BACKEND, d, s) == Done(s)
  {
    BrokenRuns(GENERIC_BACKEND, d, e);
    forall i: nat ensures !Unguarded(GENERIC_BACKEND, i) {
      assert 1 < i <= |GENERIC_BACKEND| ==> GENERIC_BACKEND[..i][1] == ContainerResources;
    }
    StoppedRuns(GENERIC_BACKEND, d, e);
    assert GENERIC_BACKEND[1] == ContainerResources;
    if RunOf(GENERIC_BACKEND, d, e).Done? {
      SecondRunStays(GENERIC_BACKEND, d, e);
      RunAgrees(GENERIC_BACKEND, d, e, {});
      RunKeeps(GENERIC_BACKEND, d, e, e);
      AgreeingSettled(d, e, RunOf(GENERIC_BACKEND, d, e).spec);
    }
  }

  lemma {:induction false} AgreeingSettled(d: Spec, was: Spec, now: Spec)
    requires forall m :: m in GENERIC_BACKEND ==> Agrees(m, d, now)
    requires |d.containers| == 1 && Keeps(d, was, now)
    ensures Settled(d, was, now)
  {
    hide Agrees, OthersKept, Carries, ContainerKept, InitContainersKept;
    var l := GENERIC_BACKEND;
    AgreedMaps(d, now) by { assert l[0] in l && l[4] in l && l[7] in l; }
    AgreedFields(d, now) by { assert l[2] in l && l[3] in l && l[5] in l && l[6] in l; }
    AgreedContainer(d, now) by { assert l[1] in l && l[8] in l && l[9] in l && l[10] in l; }
    AgreedInitContainers(d, now) by { assert l[11] in l; }
  }

  lemma {:induction false} AgreedMaps(d: Spec, e: Spec)
    requires Agrees(Annotations, d, e) && Agrees(PodTemplateLabels, d, e) && Agrees(PodTemplateAnnotations, d, e)
    ensures Carries(d.annotations, e.annotations) && Carries(d.podLabels, e.podLabels)
    ensures Carries(d.podAnnotations, e.podAnnotations)
  {
    assert e.annotations == e.annotations + d.annotations;
    assert e.podLabels == e.podLabels + d.podLabels;
    assert e.podAnnotations == e.podAnnotations + d.podAnnotations;
  }

  lemma {:induction false} AgreedFields(d: Spec, e: Spec)
    requires Agrees(Affinity, d, e) && Agrees(Tolerations, d, e) && Agrees(PriorityClass, d, e)
    requires Agrees(TopologySpreadConstraints, d, e)
    ensures e.affinity == d.affinity && e.tolerations == d.tolerations
    ensures e.priorityClass == d.priorityClass && e.topologySpread == d.topologySpread
  {
  }

  lemma {:induction false} AgreedContainer(d: Spec, e: Spec)
    requires Agrees(ContainerResources, d, e) && Agrees(Args, d, e) && Agrees(Probes, d, e)
    requires Agrees(ContainerImage, d, e) && |d.containers| == 1
    ensures |e.containers| == 1 && SameResources(e.containers[0].resources, d.containers[0].resources)
    ensures e.containers[0].args == d.containers[0].args && e.containers[0].image == d.containers[0].image
    ensures e.containers[0].liveness == d.containers[0].liveness
    ensures e.containers[0].readiness == d.containers[0].readiness
  {
    var w := d.containers;
    assert e.containers == WithResources(w, e.containers);
    assert e.containers[0] == Each(Args, w, e.containers)[0] == Each(Probes, w, e.containers)[0];
    assert e.containers[0] == Each(ContainerImage, w, e.containers)[0];
  }

  lemma {:induction false} AgreedInitContainers(d: Spec, e: Spec)
    requires Agrees(InitContainerImage, d, e)
    ensures |d.initContainers| <= |e.initContainers|
    ensures forall i :: 0 <= i < |d.initContainers| ==> e.initContainers[i].image == d.initContainers[i].image
  {
    assert e.initContainers == InitImages(d.initContainers, e.initContainers);
    forall i | 0 <= i < |d.initContainers| ensures e.initContainers[i].image == d.initContainers[i].image {
      assert e.initContainers[i] == InitImages(d.initContainers, e.initContainers)[i];
    }
  }
}
