/** The mutators on the stored deployment, whose fields they update in place. */
module DeploymentMutators {
  import opened StringSlices
  import opened Deployments

  /** Adds and overwrites entries, in any order; reports whether one was added or had another value. */
  method MergeMap(existing: Strings, desired: Strings) returns (modified: bool, merged: Strings)
    ensures merged == existing + desired
    ensures modified <==> merged != existing
  {
    hide Part, Distinct;
    modified, merged := false, existing;
    var keys := KeysInAnyOrder(desired);
    MergeNothing(existing, desired, keys);
    for i := 0 to |keys|
      invariant merged == existing + Part(desired, keys[..i])
      invariant modified <==> merged != existing
    {
      MergeOneMore(existing, desired, keys, i);
      var k := keys[i];
      if k !in merged || merged[k] != desired[k] {
        StillDiffers(existing, merged, k, desired[k]);
        merged, modified := merged[k := desired[k]], true;
      }
    }
    MergeAll(desired, keys);
  }

  /** The entries of m under the listed keys. */
  function Part(m: Strings, keys: seq<string>): Strings {
    map k | k in keys && k in m :: m[k]
  }

  lemma {:induction false} MergeNothing(existing: Strings, desired: Strings, keys: seq<string>)
    ensures existing + Part(desired, keys[..0]) == existing
  {
  }

  lemma {:induction false} MergeAll(desired: Strings, keys: seq<string>)
    requires forall k :: k in keys <==> k in desired
    ensures Part(desired, keys[..|keys|]) == desired
  {
  }

  lemma {:induction false} StillDiffers(existing: Strings, merged: Strings, k: string, v: string)
    requires k in merged <==> k in existing
    requires k in existing ==> merged[k] == existing[k]
    requires k !in merged || merged[k] != v
    ensures merged[k := v] != existing
  {
  }

  lemma {:induction false} MergeOneMore(existing: Strings, desired: Strings, keys: seq<string>, i: nat)
    requires i < |keys| && Distinct(keys) && keys[i] in desired
    ensures var k, merged := keys[i], existing + Part(desired, keys[..i]);
            && existing + Part(desired, keys[..i + 1]) == merged[k := desired[k]]
            && (k in merged <==> k in existing) && (k in existing ==> merged[k] == existing[k])
  {
  }

  /** The first i desired containers, followed by the existing ones from there on. */
  function Overlaid(existing: seq<Container>, desired: seq<Container>, i: nat): seq<Container>
    requires i <= |desired|
  {
    desired[..i] + if i < |existing| then existing[i..] else []
  }

  lemma {:induction false} OverlayOneMore(existing: seq<Container>, desired: seq<Container>, i: nat)
    requires i < |desired|
    ensures var now := Overlaid(existing, desired, i);
            if i < |existing|
            then i < |now| && now[i] == existing[i] && Overlaid(existing, desired, i + 1) == now[i := desired[i]]
            else |now| == i && Overlaid(existing, desired, i + 1) == now + [desired[i]]
  {
  }

  /** Replaces what differs and appends what is missing. */
  method Align(existing: seq<Container>, desired: seq<Container>) returns (updated: bool, aligned: seq<Container>)
    requires |existing| <= |desired|
    ensures aligned == desired
    ensures updated <==> aligned != existing
  {
    updated, aligned := false, existing;
    for i := 0 to |desired|
      invariant aligned == Overlaid(existing, desired, i) && |aligned| >= |existing|
      invariant updated <==> aligned != existing
    {
      OverlayOneMore(existing, desired, i);
      if i >= |aligned| {
        aligned, updated := aligned + [desired[i]], true;
      } else if aligned[i] != desired[i] {
        aligned, updated := aligned[i := desired[i]], true;
        assert aligned[i] != existing[i];
      }
    }
  }

  class Deployment {
    var annotations: Strings
    var podLabels: Strings
    var podAnnotations: Strings
    var affinity: string
    var tolerations: string
    var priorityClass: string
    var topologySpread: string
    var containers: seq<Container>
    var initContainers: seq<Container>

    ghost function State(): Deployments.Spec
      reads this
    {
      Spec(annotations, podLabels, podAnnotations, affinity, tolerations, priorityClass, topologySpread, containers,
           initContainers)
    }

    constructor (s: Deployments.Spec)
      ensures State() == s
    {
      annotations, podLabels, podAnnotations := s.annotations, s.podLabels, s.podAnnotations;
      affinity, tolerations := s.affinity, s.tolerations;
      priorityClass, topologySpread := s.priorityClass, s.topologySpread;
      containers, initContainers := s.containers, s.initContainers;
    }

    method MutateContainerResources(desired: Deployments.Spec) returns (err: bool, updated: bool)
      modifies this
      ensures err <==> Fails(ContainerResources, desired)
      ensures err ==> State() == old(State())
      ensures !err ==> State() == Applied(ContainerResources, desired, old(State()))
      ensures !err ==> |containers| == 1 && SameResources(containers[0].resources, desired.containers[0].resources)
      ensures !err ==> (updated <==> State() != old(State()))
    {
      updated := false;
      if |desired.containers| != 1 { return true, false; }
      if |containers| != 1 {
        containers := desired.containers;
        updated := true;
      }
      if !SameResources(containers[0].resources, desired.containers[0].resources) {
        containers := containers[0 := containers[0].(resources := desired.containers[0].resources)];
        updated := true;
      }
      return false, updated;
    }

    method MutateArgs(desired: Deployments.Spec) returns (updated: bool)
      requires !Faults(Args, desired, State())
      modifies this
      ensures State() == Applied(Args, desired, old(State()))
      ensures updated <==> State() != old(State())
    {
      updated := false;
      for i := 0 to |desired.containers|
        invariant State() == old(State()).(containers := containers) && |containers| == |old(containers)|
        invariant forall j :: 0 <= j < |containers| ==>
                    containers[j] == if j < i then old(containers[j]).(args := desired.containers[j].args)
                        else old(containers[j])
        invariant updated <==> exists j :: 0 <= j < i && containers[j] != old(containers[j])
      {
        if containers[i].args != desired.containers[i].args {
          containers := containers[i := containers[i].(args := desired.containers[i].args)];
          updated := true;
          assert containers[i] != old(containers[i]);
        }
      }
      assert containers == Each(Args, desired.containers, old(containers));
    }

    method MutateProbes(desired: Deployments.Spec) returns (updated: bool)
      requires !Faults(Probes, desired, State())
      modifies this
      ensures State() == Applied(Probes, desired, old(State()))
      ensures updated <==> State() != old(State())
    {
      updated := false;
      for i := 0 to |desired.containers|
        invariant State() == old(State()).(containers := containers) && |containers| == |old(containers)|
        invariant forall j :: 0 <= j < |containers| ==>
                    containers[j] == if j < i
                                     then old(containers[j]).(liveness := desired.containers[j].liveness,
                                                              readiness := desired.containers[j].readiness)
                                     else old(containers[j])
        invariant updated <==> exists j :: 0 <= j < i && containers[j] != old(containers[j])
      {
        if containers[i].liveness != desired.containers[i].liveness {
          containers := containers[i := containers[i].(liveness := desired.containers[i].liveness)];
          updated := true;
        }
        if containers[i].readiness != desired.containers[i].readiness {
          containers := containers[i := containers[i].(readiness := desired.containers[i].readiness)];
          updated := true;
        }
        assert containers[i] != old(containers[i]) ==> updated;
      }
      assert containers == Each(Probes, desired.containers, old(containers));
    }

    method MutateContainerImage(desired: Deployments.Spec) returns (updated: bool)
      requires !Faults(ContainerImage, desired, State())
      modifies this
      ensures State() == Applied(ContainerImage, desired, old(State()))
      ensures updated <==> State() != old(State())
    {
      updated := false;
      for i := 0 to |desired.containers|
        invariant State() == old(State()).(containers := containers) && |containers| == |old(containers)|
        invariant forall j :: 0 <= j < |containers| ==>
                    containers[j] == if j < i then old(containers[j]).(image := desired.containers[j].image)
                        else old(containers[j])
        invariant updated <==> exists j :: 0 <= j < i && containers[j] != old(containers[j])
      {
        if containers[i].image != desired.containers[i].image {
          containers := containers[i := containers[i].(image := desired.containers[i].image)];
          updated := true;
          assert containers[i] != old(containers[i]);
        }
      }
      assert containers == Each(ContainerImage, desired.containers, old(containers));
    }

    /** Synchronises images and appends what is missing; surplus init containers stay. */
    method MutateInitContainerImage(desired: Deployments.Spec) returns (updated: bool)
      modifies this
      ensures State() == Applied(InitContainerImage, desired, old(State()))
      ensures updated <==> State() != old(State())
    {
      updated := false;
      for i := 0 to |desired.initContainers|
        invariant State() == old(State()).(initContainers := initContainers)
        invariant initContainers == InitImages(desired.initContainers[..i], old(initContainers))
        invariant updated <==> initContainers != old(initContainers)
      {
        ghost var before := initContainers;
        if i >= |initContainers| {
          initContainers := initContainers + [desired.initContainers[i]];
          updated := true;
          assert |initContainers| != |old(initContainers)|;
        } else if initContainers[i].image != desired.initContainers[i].image {
          assert i < |old(initContainers)| ==> initContainers[i] == old(initContainers)[i];
          initContainers := initContainers[i := initContainers[i].(image := desired.initContainers[i].image)];
          updated := true;
          assert initContainers[i] != old(initContainers)[i];
        }
        assert initContainers == InitImages(desired.initContainers[..i + 1], old(initContainers));
      }
      assert desired.initContainers[..|desired.initContainers|] == desired.initContainers;
    }

    /** Makes the init containers exactly the desired ones. */
    method MutateInitContainers(desired: Deployments.Spec) returns (updated: bool)
      modifies this
      ensures State() == Applied(InitContainers, desired, old(State())) && initContainers == desired.initContainers
      ensures updated <==> State() != old(State())
    {
      updated := false;
      if |initContainers| > |desired.initContainers| {
        initContainers := initContainers[..|desired.initContainers|];
        updated := true;
      }
      var replaced, aligned := Align(initContainers, desired.initContainers);
      initContainers := aligned;
      updated := updated || replaced;
    }

    /** One mutator of the list. */
    method Mutate(m: Mutator, desired: Deployments.Spec) returns (err: bool, updated: bool)
      requires !Faults(m, desired, State())
      modifies this
      ensures err <==> Fails(m, desired)
      ensures err ==> State() == old(State())
      ensures !err ==> State() == Applied(m, desired, old(State())) && (updated <==> State() != old(State()))
    {
      err, updated := false, false;
      match m
      case Annotations => updated, annotations := MergeMap(annotations, desired.annotations);
      case PodTemplateLabels => updated, podLabels := MergeMap(podLabels, desired.podLabels);
      case PodTemplateAnnotations => updated, podAnnotations := MergeMap(podAnnotations, desired.podAnnotations);
      case Affinity =>
        if affinity != desired.affinity { affinity, updated := desired.affinity, true; }
      case Tolerations =>
        if tolerations != desired.tolerations { tolerations, updated := desired.tolerations, true; }
      case PriorityClass =>
        if priorityClass != desired.priorityClass { priorityClass, updated := desired.priorityClass, true; }
      case TopologySpreadConstraints =>
        if topologySpread != desired.topologySpread { topologySpread, updated := desired.topologySpread, true; }
      case ContainerResources => err, updated := MutateContainerResources(desired);
      case Args => updated := MutateArgs(desired);
      case Probes => updated := MutateProbes(desired);
      case ContainerImage => updated := MutateContainerImage(desired);
      case InitContainerImage => updated := MutateInitContainerImage(desired);
      case InitContainers => updated := MutateInitContainers(desired);
    }

    /**
     Runs the listed mutators up to the first error. Requires that the run reads no missing container, which holds for
     the backend list whatever the deployments are.
     */
    method Run(opts: seq<Mutator>, desired: Deployments.Spec) returns (err: bool, updated: bool)
      requires !RunOf(opts, desired, State()).Broken?
      modifies this
      ensures err <==> RunOf(opts, desired, old(State())).Stopped?
      ensures State() == RunOf(opts, desired, old(State())).spec
      ensures !err ==> (updated <==> State() != old(State()))
    {
      updated := false;
      ghost var start := State();
      assert opts[0..] == opts;
      for i := 0 to |opts|
        invariant RunOf(opts[i..], desired, State()) == RunOf(opts, desired, start)
        invariant !updated ==> State() == start
        invariant updated ==> exists j :: 0 <= j < i && !Agrees(opts[j], desired, start)
      {
        hide Applied;
        assert opts[i..][0] == opts[i] && opts[i..][1..] == opts[i + 1..];
        var changed;
        err, changed := Mutate(opts[i], desired);
        if err { return true, false; }
        assert changed && !updated ==> !Agrees(opts[i], desired, start);
        updated := updated || changed;
      }
      if updated {
        RunAgrees(opts, desired, start, {});
      }
      return false, updated;
    }

    /** Ends without error with all fields settled, and then a further run changes nothing. */
    method RunGenericBackend(desired: Deployments.Spec) returns (err: bool, updated: bool)
      modifies this
      ensures err <==> |desired.containers| != 1
      ensures !err ==> (updated <==> State() != old(State()))
      ensures !err ==> Settled(desired, old(State()), State())
      ensures !err ==> RunOf(GENERIC_BACKEND, desired, State()) == Done(State())
    {
      hide Settled;
      GenericBackendSafe(desired, State());
      err, updated := Run(GENERIC_BACKEND, desired);
    }
  }
}
