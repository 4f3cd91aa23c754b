/** The status of an APIManager: what Available rolls up, and when the reconciliation may stop. */
module Status {
  import opened Calls
  import opened Options
  import opened StringSlices

  datatype Deployment = Deployment(owners: seq<string>, available: bool)

  /** A route: its host, and for every ingress its conditions as type and status. */
  datatype Route = Route(host: string, ingresses: seq<seq<(string, string)>>)

  datatype Conditions = Conditions(deploymentsAvailable: bool, routesReady: bool, secretsAvailable: bool,
           available: bool)

  /** The part of the status that is compared; rest stands for messages, warnings and pod lists. */
  datatype APIManagerStatus = APIManagerStatus(conditions: Option<Conditions>, rest: string)

  predicate IsAvailable(s: APIManagerStatus) {
    s.conditions.Some? && s.conditions.value.available
  }

  const ADMITTED := ("Admitted", "True")

  // ---------- Routes ----------

  ghost predicate Ready(r: Route) {
    r.ingresses != [] && forall i :: 0 <= i < |r.ingresses| ==> ADMITTED in r.ingresses[i]
  }

  /** The first route of the host is ready; later ones do not count. */
  ghost predicate HostReady(routes: seq<Route>, host: string) {
    exists i :: FirstRoute(routes, i, host) && Ready(routes[i])
  }

  ghost predicate FirstRoute(routes: seq<Route>, i: int, host: string) {
    0 <= i < |routes| && routes[i].host == host && forall j :: 0 <= j < i ==> routes[j].host != host
  }

  method RouteFindByHost(routes: seq<Route>, host: string) returns (index: int)
    ensures index == -1 || FirstRoute(routes, index, host)
    ensures index == -1 <==> forall i :: 0 <= i < |routes| ==> routes[i].host != host
  {
    for i := 0 to |routes|
      invariant forall j :: 0 <= j < i ==> routes[j].host != host
    {
      if routes[i].host == host { return i; }
    }
    return -1;
  }

  method IsRouteReady(r: Route) returns (ready: bool)
    ensures ready <==> Ready(r)
  {
    if |r.ingresses| == 0 { return false; }
    for i := 0 to |r.ingresses|
      invariant forall j :: 0 <= j < i ==> ADMITTED in r.ingresses[j]
    {
      var isReady := false;
      for k := 0 to |r.ingresses[i]|
        invariant !isReady && ADMITTED !in r.ingresses[i][..k]
      {
        if r.ingresses[i][k] == ADMITTED {
          isReady := true;
          break;
        }
      }
      assert !isReady ==> r.ingresses[i][..|r.ingresses[i]|] == r.ingresses[i];
      if !isReady { return false; }
    }
    return true;
  }

  method CheckRoutesReady(hosts: seq<string>, routes: seq<Route>) returns (ready: bool, notReady: seq<string>)
    ensures forall h :: h in notReady <==> h in hosts && !HostReady(routes, h)
    ensures ready <==> forall h :: h in hosts ==> HostReady(routes, h)
  {
    notReady := [];
    for i := 0 to |hosts|
      invariant forall h :: h in notReady <==> h in hosts[..i] && !HostReady(routes, h)
    {
      assert hosts[..i + 1] == hosts[..i] + [hosts[i]];
      var index := RouteFindByHost(routes, hosts[i]);
      var routeReady := false;
      if index != -1 {
        routeReady := IsRouteReady(routes[index]);
      }
      assert routeReady <==> HostReady(routes, hosts[i]);
      if !routeReady { notReady := notReady + [hosts[i]]; }
    }
    assert hosts[..|hosts|] == hosts;
    ready := |notReady| == 0;
    if !ready { assert notReady[0] in notReady; }
  }

  // ---------- The cluster, and what a pass has seen of it ----------

  /** An answer that a read brought; a secret counts as absent when reading it fails for any reason. */
  datatype Seen =
    | SawDeployment(name: string, answer: Option<Deployment>)
    | SawRoutes(routes: seq<Route>)
    | SawSecret(name: string, found: bool)

  /** The status of the APIManager as some read brought it, perhaps long ago. */
  datatype Snapshot = Snapshot(version: nat, status: APIManagerStatus)

  predicate Up(d: Option<Deployment>, uid: string) {
    d.Some? && uid in d.value.owners && d.value.available
  }

  class Cluster {
    var deployments: map<string, Deployment>
    var routes: seq<Route>
    var secrets: set<string>
    /** The stored status and the version of the object; only this controller writes the status. */
    var status: APIManagerStatus
    var version: nat
    /** Nobody else changes anything while a pass runs. */
    const quiet: bool
    /** No call fails for a reason outside the program. */
    const reliable: bool
    ghost var seen: seq<Seen>

    constructor (deployments: map<string, Deployment>, routes: seq<Route>, secrets: set<string>,
                 stored: Snapshot, quiet: bool, reliable: bool)
      ensures this.deployments == deployments && this.routes == routes && this.secrets == secrets
      ensures status == stored.status && version == stored.version && seen == []
      ensures this.quiet == quiet && this.reliable == reliable
    {
      this.deployments, this.routes, this.secrets := deployments, routes, secrets;
      this.status, this.version, this.quiet, this.reliable := stored.status, stored.version, quiet, reliable;
      seen := [];
    }

    /** A snapshot is of this or an earlier version, and every write gives a new version. */
    predicate Past(read: Snapshot)
      reads this
    {
      read.version <= version && (read.version == version ==> read.status == status)
    }

    /** Others may change anything but the status, which makes a new version of what they change. */
    method Interfere()
      modifies this`deployments, this`routes, this`secrets, this`version
      ensures version >= old(version)
      ensures quiet ==> deployments == old(deployments) && routes == old(routes) && secrets == old(secrets)
      ensures quiet ==> version == old(version)
    {
      if !quiet {
        var more :| 0 <= more;
        deployments, routes, secrets, version := *, *, *, version + more;
      }
    }

    /** Reads have brought these answers; and if nobody else changes anything, they are how things are. */
    twostate predicate Answered(added: seq<Seen>)
      reads this
    {
      && version >= old(version) && seen == old(seen) + added
      && (quiet ==> deployments == old(deployments) && routes == old(routes) && secrets == old(secrets))
      && (quiet ==> version == old(version))
      && (quiet && reliable ==> AllTrue(added))
    }

    /** The answers are how things are now. */
    ghost predicate AllTrue(answers: seq<Seen>)
      reads this
    {
      forall x :: x in answers ==>
        match x
        case SawDeployment(name, d) => d == if name in deployments then Some(deployments[name]) else None
        case SawRoutes(r) => r == routes
        case SawSecret(name, found) => found == (name in secrets)
    }

    method GetDeployment(name: string) returns (err: bool, found: Option<Deployment>)
      modifies this`deployments, this`routes, this`secrets, this`version, this`seen
      ensures Answered(if err then [] else [SawDeployment(name, found)])
      ensures reliable ==> !err
    {
      Interfere();
      var ok, applied := Fate(reliable);
      if !ok { return true, None; }
      found := if name in deployments then Some(deployments[name]) else None;
      seen := seen + [SawDeployment(name, found)];
      err := false;
    }

    method ListRoutes() returns (err: bool, listed: seq<Route>)
      modifies this`deployments, this`routes, this`secrets, this`version, this`seen
      ensures Answered(if err then [] else [SawRoutes(listed)])
      ensures reliable ==> !err
    {
      Interfere();
      var ok, applied := Fate(reliable);
      if !ok { return true, []; }
      listed := routes;
      seen := seen + [SawRoutes(listed)];
      err := false;
    }

    method GetSecret(name: string) returns (found: bool)
      modifies this`deployments, this`routes, this`secrets, this`version, this`seen
      ensures Answered([SawSecret(name, found)])
    {
      Interfere();
      var ok, applied := Fate(reliable);
      found := ok && name in secrets;
      seen := seen + [SawSecret(name, found)];
    }

    /** Accepted only on top of the stored version. */
    method UpdateStatus(base: nat, s: APIManagerStatus) returns (err: bool, conflict: bool)
      modifies this`deployments, this`routes, this`secrets, this`version, this`status
      ensures quiet ==> deployments == old(deployments) && routes == old(routes) && secrets == old(secrets)
      ensures !err ==> status == s
      ensures conflict ==> err && status == old(status) && base != version
      ensures quiet ==> (conflict <==> base != old(version))
      ensures reliable && err ==> conflict
    {
      Interfere();
      if base != version { return true, true; }
      var ok, applied := Fate(reliable);
      if applied { status, version := s, version + 1; }
      return !ok, false;
    }
  }

  const ALL_UP := Conditions(true, true, true, true)

  class StatusReconciler {
    const cluster: Cluster
    const uid: string
    const expectedDeployments: seq<string>
    /** None while the tenant name is not set. */
    const expectedHosts: Option<seq<string>>
    const watchedSecrets: seq<string>

    constructor (cluster: Cluster, uid: string, expectedDeployments: seq<string>, expectedHosts: Option<seq<string>>,
                 watchedSecrets: seq<string>)
      ensures this.cluster == cluster && this.uid == uid && this.expectedDeployments == expectedDeployments
      ensures this.expectedHosts == expectedHosts && this.watchedSecrets == watchedSecrets
    {
      this.cluster, this.uid, this.expectedDeployments := cluster, uid, expectedDeployments;
      this.expectedHosts, this.watchedSecrets := expectedHosts, watchedSecrets;
    }

    ghost predicate HostsReady(routes: seq<Route>) {
      expectedHosts.Some? && forall h :: h in expectedHosts.value ==> HostReady(routes, h)
    }

    ghost predicate DeploymentsUp(seen: seq<Seen>) {
      forall name :: name in expectedDeployments ==> exists d :: SawDeployment(name, d) in seen && Up(d, uid)
    }

    ghost predicate DeploymentDown(seen: seq<Seen>, name: string) {
      name in expectedDeployments && exists d :: SawDeployment(name, d) in seen && !Up(d, uid)
    }

    ghost predicate SecretsUp(seen: seq<Seen>) {
      forall name :: name in watchedSecrets ==> SawSecret(name, true) in seen
    }

    ghost predicate SecretDown(seen: seq<Seen>, name: string) {
      name in watchedSecrets && SawSecret(name, false) in seen
    }

    ghost predicate HostsDown(seen: seq<Seen>) {
      exists r :: SawRoutes(r) in seen && !HostsReady(r)
    }

    /** Every expected deployment was seen up, all hosts ready in one listing, and every secret was read. */
    ghost predicate SawAllUp(seen: seq<Seen>) {
      DeploymentsUp(seen) && (exists r :: SawRoutes(r) in seen && HostsReady(r)) && SecretsUp(seen)
    }

    /** Something that should be up was seen not to be. */
    ghost predicate SawDown(seen: seq<Seen>) {
      (exists name :: DeploymentDown(seen, name)) || HostsDown(seen) || exists name :: SecretDown(seen, name)
    }

    /** Each condition is false exactly if something of its kind was seen down, and Available if anything was. */
    ghost predicate Computed(seen: seq<Seen>, s: APIManagerStatus) {
      && s.conditions.Some?
      && (s.conditions.value.deploymentsAvailable <==> !exists name :: DeploymentDown(seen, name))
      && (s.conditions.value.routesReady <==> !HostsDown(seen))
      && (s.conditions.value.secretsAvailable <==> !exists name :: SecretDown(seen, name))
      && (s.conditions.value.available <==> !SawDown(seen))
    }

    ghost predicate SecretAsked(seen: seq<Seen>, name: string) {
      SawSecret(name, true) in seen || SawSecret(name, false) in seen
    }

    /** Everything expected was asked for. */
    ghost predicate AskedForAll(seen: seq<Seen>) {
      && (forall name :: name in expectedDeployments ==> exists d :: SawDeployment(name, d) in seen)
      && (exists r :: SawRoutes(r) in seen)
      && (forall name :: name in watchedSecrets ==> SecretAsked(seen, name))
    }

    /** The conditions the cluster calls for as it is now. */
    ghost function Actual(): Conditions
      reads cluster
    {
      var deploymentsUp := forall name :: name in expectedDeployments ==>
        name in cluster.deployments && uid in cluster.deployments[name].owners && cluster.deployments[name].available;
      var hostsReady := HostsReady(cluster.routes);
      var secretsExist := forall name :: name in watchedSecrets ==> name in cluster.secrets;
      Conditions(deploymentsUp, hostsReady, secretsExist, deploymentsUp && hostsReady && secretsExist)
    }

    /** What is computed from true answers is what the cluster calls for. */
    lemma {:induction false} ComputedIsActual(seen: seq<Seen>, s: APIManagerStatus)
      requires cluster.AllTrue(seen) && AskedForAll(seen) && Computed(seen, s)
      ensures s.conditions == Some(Actual())
    {
      hide HostsReady;
      forall name | name in expectedDeployments
        ensures DeploymentDown(seen, name) <==>
                !(name in cluster.deployments && uid in cluster.deployments[name].owners &&
                  cluster.deployments[name].available)
      {
        var d :| SawDeployment(name, d) in seen;
      }
      forall name | name in watchedSecrets ensures SecretDown(seen, name) <==> name !in cluster.secrets {
        assert SecretAsked(seen, name);
      }
      var r :| SawRoutes(r) in seen;
      assert HostsDown(seen) <==> !HostsReady(cluster.routes);
    }

    /** Whether every expected deployment exists, is owned by the APIManager and available. */
    method DeploymentsAvailable() returns (err: bool, available: bool, notReady: seq<string>, ghost added: seq<Seen>)
      modifies cluster`deployments, cluster`routes, cluster`secrets, cluster`version, cluster`seen
      ensures cluster.Answered(added) && forall x :: x in added ==> x.SawDeployment?
      ensures !err ==> forall name :: name in notReady <==> DeploymentDown(added, name)
      ensures !err ==> (available <==> notReady == [])
      ensures !err && available ==> DeploymentsUp(added)
      ensures !err ==> forall name :: name in expectedDeployments ==> exists d :: SawDeployment(name, d) in added
      ensures cluster.reliable ==> !err
    {
      err, available, notReady, added := false, false, [], [];
      for i := 0 to |expectedDeployments|
        invariant cluster.Answered(added) && forall x :: x in added ==> x.SawDeployment?
        invariant forall name :: name in notReady <==> DeploymentDown(added, name)
        invariant forall name :: name in expectedDeployments[..i] ==> exists d :: SawDeployment(name, d) in added
      {
        var name := expectedDeployments[i];
        assert expectedDeployments[..i + 1] == expectedDeployments[..i] + [name];
        var found;
        err, found := cluster.GetDeployment(name);
        if err { return; }
        ghost var before := added;
        added := added + [SawDeployment(name, found)];
        assert forall x :: x in added <==> x in before || x == SawDeployment(name, found);
        if !Up(found, uid) { notReady := notReady + [name]; }
      }
      assert expectedDeployments[..|expectedDeployments|] == expectedDeployments;
      available := |notReady| == 0;
      forall name | available && name in expectedDeployments
        ensures exists d :: SawDeployment(name, d) in added && Up(d, uid)
      {
        var d :| SawDeployment(name, d) in added;
        assert !DeploymentDown(added, name);
      }
    }

    method RoutesReady() returns (err: bool, ready: bool, ghost added: seq<Seen>)
      modifies cluster`deployments, cluster`routes, cluster`secrets, cluster`version, cluster`seen
      ensures cluster.Answered(added) && forall x :: x in added ==> x.SawRoutes?
      ensures !err ==> exists r :: added == [SawRoutes(r)] && (ready <==> HostsReady(r))
      ensures cluster.reliable ==> !err
    {
      var routes;
      err, routes := cluster.ListRoutes();
      ready, added := false, [];
      if err { return; }
      added := [SawRoutes(routes)];
      if expectedHosts.Some? {
        var notReady;
        ready, notReady := CheckRoutesReady(expectedHosts.value, routes);
      }
    }

    method WatchedSecretsExist() returns (exist: bool, missing: seq<string>, ghost added: seq<Seen>)
      modifies cluster`deployments, cluster`routes, cluster`secrets, cluster`version, cluster`seen
      ensures cluster.Answered(added) && forall x :: x in added ==> x.SawSecret?
      ensures exist ==> SecretsUp(added)
      ensures exist <==> missing == []
      ensures forall name :: name in missing <==> SecretDown(added, name)
      ensures forall name :: name in watchedSecrets ==> SecretAsked(added, name)
    {
      exist, missing, added := true, [], [];
      for i := 0 to |watchedSecrets|
        invariant cluster.Answered(added) && forall x :: x in added ==> x.SawSecret?
        invariant exist ==> forall j :: 0 <= j < i ==> SawSecret(watchedSecrets[j], true) in added
        invariant exist <==> missing == []
        invariant forall name :: name in missing <==> SecretDown(added, name)
        invariant forall j :: 0 <= j < i ==> SecretAsked(added, watchedSecrets[j])
      {
        var found := cluster.GetSecret(watchedSecrets[i]);
        ghost var before := added;
        added := added + [SawSecret(watchedSecrets[i], found)];
        assert forall x :: x in added <==> x in before || x == SawSecret(watchedSecrets[i], found);
        if !found {
          exist := false;
          missing := missing + [watchedSecrets[i]];
        }
      }
    }

    /** Every kind of answer counts for one condition. */
    lemma {:induction false} KindsApart(a: seq<Seen>, b: seq<Seen>, r: seq<Route>, c: seq<Seen>)
      requires forall x :: x in a ==> x.SawDeployment?
      requires b == [SawRoutes(r)]
      requires forall x :: x in c ==> x.SawSecret?
      requires forall name :: name in expectedDeployments ==> exists d :: SawDeployment(name, d) in a
      requires forall name :: name in watchedSecrets ==> SecretAsked(c, name)
      ensures AskedForAll(a + b + c)
      ensures DeploymentsUp(a) && HostsReady(r) && SecretsUp(c) ==> SawAllUp(a + b + c)
      ensures forall name :: DeploymentDown(a + b + c, name) <==> DeploymentDown(a, name)
      ensures HostsDown(a + b + c) <==> !HostsReady(r)
      ensures forall name :: SecretDown(a + b + c, name) <==> SecretDown(c, name)
      ensures forall x :: x in a + b + c <==> x in a || x in b || x in c
    {
      hide HostsReady;
      assert forall x :: x in a + b + c <==> x in a || x in b || x in c;
      assert SawRoutes(r) in b;
      assert SawRoutes(r) in a + b + c;
    }

    /** Available is computed only if everything was seen up, and refused only if something was seen down. */
    method CalculateStatus(rest: string) returns (err: bool, s: APIManagerStatus, ghost added: seq<Seen>)
      modifies cluster`deployments, cluster`routes, cluster`secrets, cluster`version, cluster`seen
      ensures cluster.Answered(added) && (cluster.reliable ==> !err)
      ensures !err ==> Computed(added, s) && AskedForAll(added) && s.rest == rest
      ensures !err && IsAvailable(s) ==> SawAllUp(added)
      ensures !err ==> (IsAvailable(s) <==>
                        && s.conditions.value.deploymentsAvailable && s.conditions.value.routesReady
                        && s.conditions.value.secretsAvailable)
    {
      hide HostsReady, DeploymentDown, SecretDown, DeploymentsUp, SecretsUp, SecretAsked;
      s := APIManagerStatus(None, "");
      var deploymentsUp, notReady;
      ghost var first, second, third;
      err, deploymentsUp, notReady, first := DeploymentsAvailable();
      added := first;
      if err { return; }
      var routesReady;
      err, routesReady, second := RoutesReady();
      added := first + second;
      if err { return; }
      var secretsExist, missing;
      secretsExist, missing, third := WatchedSecretsExist();
      added := first + second + third;
      var ok, applied := Fate(cluster.reliable);
      if !ok { return true, s, added; }
      ghost var r :| second == [SawRoutes(r)];
      KindsApart(first, second, r, third);
      if !deploymentsUp { assert notReady[0] in notReady; }
      if !secretsExist { assert missing[0] in missing; }
      s := APIManagerStatus(Some(Conditions(deploymentsUp, routesReady, secretsExist,
                                            deploymentsUp && routesReady && secretsExist)), rest);
      err := false;
    }

    /**
     A pass that ends without error and without asking to come back has seen everything up. The stored status then is
     available exactly if the pass wrote it or it was so before; and the pass goes without a write only if what it
     computed is what its snapshot says. So a pass goes quiet on an unavailable status only if its snapshot, itself
     available, is not the stored status. A pass that comes back without a write had an old snapshot. When nobody else
     changes anything and no call fails, a pass with the stored status leaves exactly the conditions the cluster calls
     for, and comes back exactly if it is not available.
     */
    method Reconcile(read: Snapshot, rest: string) returns (err: bool, requeue: bool, wrote: bool,
                                                           ghost added: seq<Seen>)
      requires cluster.Past(read)
      modifies cluster`deployments, cluster`routes, cluster`secrets, cluster`version, cluster`seen, cluster`status
      ensures cluster.seen == old(cluster.seen) + added
      ensures !err && !requeue ==> SawAllUp(added) && !SawDown(added)
      ensures !err && !requeue ==> (IsAvailable(cluster.status) <==> wrote || IsAvailable(old(cluster.status)))
      ensures !err && !requeue && !wrote ==> IsAvailable(read.status) && cluster.status == old(cluster.status)
      ensures !err && !requeue && !IsAvailable(cluster.status) ==>
                && IsAvailable(read.status) && !IsAvailable(old(cluster.status))
                && read.version < old(cluster.version)
      ensures wrote ==> !err && Computed(added, cluster.status) && cluster.status.rest == rest
      ensures wrote ==> (requeue <==> SawDown(added))
      ensures cluster.reliable ==> !err
      ensures !err && requeue && !wrote ==> cluster.status == old(cluster.status) && read.version != cluster.version
      ensures cluster.quiet && cluster.reliable && read.version == old(cluster.version) ==>
                && !err && (requeue <==> !Actual().available)
                && cluster.status == APIManagerStatus(Some(Actual()), rest)
                && (wrote <==> requeue || old(cluster.status) != cluster.status)
      ensures cluster.reliable && !SawDown(added) && read.status == APIManagerStatus(Some(ALL_UP), rest) ==>
                !err && !requeue && !wrote
    {
      hide DeploymentsUp, SecretsUp, DeploymentDown, SecretDown, HostsDown, AskedForAll, HostsReady;
      hide SawAllUp, SawDown;
      wrote := false;
      var s;
      err, s, added := CalculateStatus(rest);
      if err { return true, false, false, added; }
      if cluster.quiet && cluster.reliable { ComputedIsActual(added, s); }
      var available := IsAvailable(s);
      if read.status == s && available { return false, false, false, added; }
      var conflict;
      err, conflict := cluster.UpdateStatus(read.version, s);
      if conflict { return false, true, false, added; }
      if err { return true, false, false, added; }
      return false, !available, true, added;
    }
  }

  /**
     A stale snapshot that happens to be what the pass computes: the pass goes quiet although the stored status is
     unavailable, and no call has failed.
   */
  method QuietOnStaleSnapshot() returns (cluster: Cluster, err: bool, requeue: bool)
    ensures fresh(cluster) && cluster.reliable && cluster.quiet
    ensures !err && !requeue && !IsAvailable(cluster.status)
  {
    var down := Conditions(false, true, true, false);
    cluster := new Cluster(map[], [], {}, Snapshot(2, APIManagerStatus(Some(down), "")), true, true);
    var reconciler := new StatusReconciler(cluster, "uid", [], Some([]), []);
    var wrote;
    ghost var added;
    err, requeue, wrote, added := reconciler.Reconcile(Snapshot(1, APIManagerStatus(Some(ALL_UP), "")), "");
  }
}
