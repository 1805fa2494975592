/** The whole build of `kubetree` (kubetree.go:117-163) as a value: the per-kind
    ingestion loops as folds of the steps of module Forest, run in the source's fixed
    order over the fetched record lists. */
module Build {
  import opened Base
  import opened Kinds
  import opened Records
  import opened Health
  import opened Forest

  /** A workload record reduced to what its loop reads: metadata and health. */
  datatype Workload = Workload(meta: Meta, health: Health)

  function DeploymentWorkload(r: DeploymentRecord): Workload {
    Workload(r.meta, DeploymentHealth(r.available, r.updated, r.replicas))
  }

  function ReplicaSetWorkload(r: ReplicaSetRecord): Workload {
    Workload(r.meta, ReplicaSetHealth(r.available, r.ready, r.replicas))
  }

  function StatefulSetWorkload(r: StatefulSetRecord): Workload {
    Workload(r.meta, StatefulSetHealth(r.current, r.ready, r.replicas))
  }

  function DaemonSetWorkload(r: DaemonSetRecord): Workload {
    Workload(r.meta, DaemonSetHealth(r.current, r.ready, r.misscheduled, r.desired))
  }

  /** The tables of two indexes agree on every kind but `except`. */
  ghost predicate SameTables(a: Index, b: Index, except: Kind) {
    forall k :: k in a && k in b && k != except ==> a[k] == b[k]
  }

  /** `addNamespaces` (kubetree.go:410-416). */
  function AddNamespaces(g: Graph, ns: seq<NamespaceRecord>): (r: Graph)
    requires WellFormed(g)
    ensures WellFormed(r) && SameTables(r.lookup, g.lookup, Namespace)
    ensures |r.nodes| == |g.nodes| + |ns|
    decreases |ns|
  {
    if ns == [] then g else NamespaceStep(AddNamespaces(g, ns[..|ns| - 1]), ns[|ns| - 1])
  }

  /** `addDeployments`, `addReplicaSets`, `addStatefulSets`, `addDaemonSets`
      (kubetree.go:270-297, 307-326, 336-358, 368-390): the first record whose namespace
      element is missing aborts the build. */
  function AddWorkloads(g: Graph, kind: Kind, prefix: string, ws: seq<Workload>): (r: Result<Graph, BuildError>)
    requires WellFormed(g) && IsController(kind)
    ensures r.Success? ==> WellFormed(r.value) && SameTables(r.value.lookup, g.lookup, kind)
    ensures r.Success? ==> |r.value.nodes| == |g.nodes| + |ws|
    ensures r.Failure? ==> r.error.MissingNamespace?
    decreases |ws|
  {
    if ws == [] then Success(g)
    else
      var g1 :- AddWorkloads(g, kind, prefix, ws[..|ws| - 1]);
      WorkloadStep(g1, kind, prefix, ws[|ws| - 1].meta, ws[|ws| - 1].health)
  }

  /** `addPersistentVolumeClaims` (kubetree.go:244-260). */
  function AddClaims(g: Graph, cs: seq<ClaimRecord>): (r: Graph)
    requires WellFormed(g)
    ensures WellFormed(r) && SameTables(r.lookup, g.lookup, PersistentVolumeClaim)
    ensures |r.nodes| == |g.nodes| + |cs|
    decreases |cs|
  {
    if cs == [] then g else ClaimStep(AddClaims(g, cs[..|cs| - 1]), cs[|cs| - 1])
  }

  /** A bound volume record without a claim reference. */
  predicate Unclaimed(v: VolumeRecord) {
    v.phase == VolumeBound && v.claimRef.None?
  }

  /** Some record of the list is an unclaimed bound volume, scanning from the end. */
  predicate AnyUnclaimed(vs: seq<VolumeRecord>)
    decreases |vs|
  {
    vs != [] && (AnyUnclaimed(vs[..|vs| - 1]) || Unclaimed(vs[|vs| - 1]))
  }

  lemma {:induction false} AnyUnclaimedExists(vs: seq<VolumeRecord>)
    ensures AnyUnclaimed(vs) <==> exists i :: 0 <= i < |vs| && Unclaimed(vs[i])
    decreases |vs|
  {
    if vs != [] {
      var init, v := vs[..|vs| - 1], vs[|vs| - 1];
      AnyUnclaimedExists(init);
      if exists i :: 0 <= i < |init| && Unclaimed(init[i]) {
        var i :| 0 <= i < |init| && Unclaimed(init[i]);
        assert vs[i] == init[i];
      } else if !Unclaimed(v) {
        forall i | 0 <= i < |vs|
          ensures !Unclaimed(vs[i])
        {
          if i < |init| {
            assert vs[i] == init[i];
          }
        }
      }
    }
  }

  /** `addPersistentVolumes` (kubetree.go:209-234): aborts exactly when some record is
      a bound volume without a claim reference (see AddVolumesFails). */
  function AddVolumes(g: Graph, vs: seq<VolumeRecord>): (r: Result<Graph, BuildError>)
    requires WellFormed(g)
    ensures r.Success? ==> WellFormed(r.value) && SameTables(r.value.lookup, g.lookup, PersistentVolume)
    ensures r.Success? ==> |r.value.nodes| == |g.nodes| + |vs|
    ensures r.Failure? ==> r.error.MissingClaimRef?
    decreases |vs|
  {
    if vs == [] then Success(g)
    else
      var g1 :- AddVolumes(g, vs[..|vs| - 1]);
      VolumeStep(g1, vs[|vs| - 1])
  }

  /** The volume stage aborts exactly when some record is a bound volume without a
      claim reference. */
  lemma {:induction false} AddVolumesFails(g: Graph, vs: seq<VolumeRecord>)
    requires WellFormed(g)
    ensures AddVolumes(g, vs).Failure? <==> AnyUnclaimed(vs)
    decreases |vs|
  {
    if vs != [] {
      AddVolumesFails(g, vs[..|vs| - 1]);
    }
  }

  /** One more record of each stage is one more step. */
  lemma AddNamespacesNext(g: Graph, ns: seq<NamespaceRecord>, i: nat)
    requires WellFormed(g) && i < |ns|
    ensures AddNamespaces(g, ns[..i + 1]) == NamespaceStep(AddNamespaces(g, ns[..i]), ns[i])
  {
    TakeNext(ns, i);
  }

  lemma AddWorkloadsNext(g: Graph, kind: Kind, prefix: string, ws: seq<Workload>, i: nat)
    requires WellFormed(g) && IsController(kind) && i < |ws|
    requires AddWorkloads(g, kind, prefix, ws[..i]).Success?
    ensures AddWorkloads(g, kind, prefix, ws[..i + 1]) ==
              WorkloadStep(AddWorkloads(g, kind, prefix, ws[..i]).value, kind, prefix, ws[i].meta, ws[i].health)
  {
    TakeNext(ws, i);
  }

  lemma AddClaimsNext(g: Graph, cs: seq<ClaimRecord>, i: nat)
    requires WellFormed(g) && i < |cs|
    ensures AddClaims(g, cs[..i + 1]) == ClaimStep(AddClaims(g, cs[..i]), cs[i])
  {
    TakeNext(cs, i);
  }

  lemma AddVolumesNext(g: Graph, vs: seq<VolumeRecord>, i: nat)
    requires WellFormed(g) && i < |vs|
    requires AddVolumes(g, vs[..i]).Success?
    ensures AddVolumes(g, vs[..i + 1]) == VolumeStep(AddVolumes(g, vs[..i]).value, vs[i])
  {
    TakeNext(vs, i);
  }

  lemma AddPodsNext(g: Graph, ps: seq<PodRecord>, i: nat)
    requires WellFormed(g) && i < |ps|
    requires AddPods(g, ps[..i]).Success?
    ensures AddPods(g, ps[..i + 1]) == PodStep(AddPods(g, ps[..i]).value, ps[i])
  {
    TakeNext(ps, i);
  }

  lemma AddServicesNext(g: Graph, ss: seq<ServiceRecord>, orders: seq<seq<string>>, order: seq<string>, i: nat)
    requires WellFormed(g) && i < |ss| && |orders| == i
    ensures AddServices(g, ss[..i + 1], orders + [order]) == ServiceStep(AddServices(g, ss[..i], orders), ss[i], order)
  {
    TakeNext(ss, i);
    assert (orders + [order])[..i] == orders;
  }

  /** A workload stage stops at its first failing record: the records after it are
      never looked at. */
  lemma {:induction false} AddWorkloadsAbort(g: Graph, kind: Kind, prefix: string, ws: seq<Workload>, n: nat)
    requires WellFormed(g) && IsController(kind) && n <= |ws|
    requires AddWorkloads(g, kind, prefix, ws[..n]).Failure?
    ensures AddWorkloads(g, kind, prefix, ws) == AddWorkloads(g, kind, prefix, ws[..n])
    decreases |ws|
  {
    if n < |ws| {
      var init := ws[..|ws| - 1];
      assert init[..n] == ws[..n];
      AddWorkloadsAbort(g, kind, prefix, init, n);
    } else {
      assert ws[..n] == ws;
    }
  }

  /** The volume stage stops at its first failing record. */
  lemma {:induction false} AddVolumesAbort(g: Graph, vs: seq<VolumeRecord>, n: nat)
    requires WellFormed(g) && n <= |vs|
    requires AddVolumes(g, vs[..n]).Failure?
    ensures AddVolumes(g, vs) == AddVolumes(g, vs[..n])
    decreases |vs|
  {
    if n < |vs| {
      var init := vs[..|vs| - 1];
      assert init[..n] == vs[..n];
      AddVolumesAbort(g, init, n);
    } else {
      assert vs[..n] == vs;
    }
  }

  /** `addServices` (kubetree.go:170-199); `orders[i]` is the pod-table visit order of
      the i-th record's selector loop. */
  function AddServices(g: Graph, ss: seq<ServiceRecord>, orders: seq<seq<string>>): (r: Graph)
    requires WellFormed(g) && |orders| == |ss|
    ensures WellFormed(r) && SameTables(r.lookup, g.lookup, Service)
    ensures |r.nodes| == |g.nodes| + |ss|
    decreases |ss|
  {
    if ss == [] then g
    else
      var n := |ss| - 1;
      var g1 := AddServices(g, ss[..n], orders[..n]);
      ServiceStep(g1, ss[n], orders[n])
  }

  /** `addPods` (kubetree.go:425-472). */
  function AddPods(g: Graph, ps: seq<PodRecord>): (r: Result<Graph, BuildError>)
    requires WellFormed(g)
    ensures r.Success? ==> WellFormed(r.value)
    ensures r.Success? ==> |r.value.nodes| == |g.nodes| + |ps|
    ensures r.Failure? ==> r.error.MissingNamespace?
    decreases |ps|
  {
    if ps == [] then Success(g)
    else
      var g1 :- AddPods(g, ps[..|ps| - 1]);
      PodStep(g1, ps[|ps| - 1])
  }

  /** The pod stage stops at its first failing record. */
  lemma {:induction false} AddPodsAbort(g: Graph, ps: seq<PodRecord>, n: nat)
    requires WellFormed(g) && n <= |ps|
    requires AddPods(g, ps[..n]).Failure?
    ensures AddPods(g, ps) == AddPods(g, ps[..n])
    decreases |ps|
  {
    if n < |ps| {
      var init := ps[..|ps| - 1];
      assert init[..n] == ps[..n];
      AddPodsAbort(g, init, n);
    } else {
      assert ps[..n] == ps;
    }
  }

  /** The record lists the client returns, or the reason a listing failed. */
  datatype Inputs = Inputs(
    namespaces: Result<seq<NamespaceRecord>, string>,
    deployments: Result<seq<DeploymentRecord>, string>,
    replicaSets: Result<seq<ReplicaSetRecord>, string>,
    statefulSets: Result<seq<StatefulSetRecord>, string>,
    daemonSets: Result<seq<DaemonSetRecord>, string>,
    claims: Result<seq<ClaimRecord>, string>,
    volumes: Result<seq<VolumeRecord>, string>,
    services: Result<seq<ServiceRecord>, string>,
    pods: Result<seq<PodRecord>, string>)

  /** A listing, with its failure turned into the abort of the build. */
  function Fetched<T>(r: Result<seq<T>, string>, kind: Kind): (f: Result<seq<T>, BuildError>)
    ensures f.Success? <==> r.Success?
    ensures f.Success? ==> f.value == r.value
    ensures f.Failure? ==> f.error == FetchFailed(kind, r.error)
  {
    match r
    case Success(xs) => Success(xs)
    case Failure(why) => Failure(FetchFailed(kind, why))
  }

  function Deployments(rs: seq<DeploymentRecord>): (ws: seq<Workload>)
    ensures |ws| == |rs| && forall i :: 0 <= i < |rs| ==> ws[i] == DeploymentWorkload(rs[i])
  {
    seq(|rs|, i requires 0 <= i < |rs| => DeploymentWorkload(rs[i]))
  }

  function ReplicaSets(rs: seq<ReplicaSetRecord>): (ws: seq<Workload>)
    ensures |ws| == |rs| && forall i :: 0 <= i < |rs| ==> ws[i] == ReplicaSetWorkload(rs[i])
  {
    seq(|rs|, i requires 0 <= i < |rs| => ReplicaSetWorkload(rs[i]))
  }

  function StatefulSets(rs: seq<StatefulSetRecord>): (ws: seq<Workload>)
    ensures |ws| == |rs| && forall i :: 0 <= i < |rs| ==> ws[i] == StatefulSetWorkload(rs[i])
  {
    seq(|rs|, i requires 0 <= i < |rs| => StatefulSetWorkload(rs[i]))
  }

  function DaemonSets(rs: seq<DaemonSetRecord>): (ws: seq<Workload>)
    ensures |ws| == |rs| && forall i :: 0 <= i < |rs| ==> ws[i] == DaemonSetWorkload(rs[i])
  {
    seq(|rs|, i requires 0 <= i < |rs| => DaemonSetWorkload(rs[i]))
  }

  /* The build of kubetree.go:121-156 as a chain of stages, one per `add` call, each
     fetching its records and aborting the build on a failed fetch or a panic. Every
     stage before pods leaves the pod table empty. */

  function AfterNamespaces(inputs: Inputs): (r: Result<Graph, BuildError>)
    ensures r.Success? ==> WellFormed(r.value) && r.value.lookup[Pod] == map[]
  {
    var ns :- Fetched(inputs.namespaces, Namespace);
    Success(AddNamespaces(Initial(), ns))
  }

  function AfterDeployments(inputs: Inputs): (r: Result<Graph, BuildError>)
    ensures r.Success? ==> WellFormed(r.value) && r.value.lookup[Pod] == map[]
  {
    var g :- AfterNamespaces(inputs);
    var rs :- Fetched(inputs.deployments, Deployment);
    AddWorkloads(g, Deployment, "deploy/", Deployments(rs))
  }

  function AfterReplicaSets(inputs: Inputs): (r: Result<Graph, BuildError>)
    ensures r.Success? ==> WellFormed(r.value) && r.value.lookup[Pod] == map[]
  {
    var g :- AfterDeployments(inputs);
    var rs :- Fetched(inputs.replicaSets, ReplicaSet);
    AddWorkloads(g, ReplicaSet, "rs/", ReplicaSets(rs))
  }

  function AfterStatefulSets(inputs: Inputs): (r: Result<Graph, BuildError>)
    ensures r.Success? ==> WellFormed(r.value) && r.value.lookup[Pod] == map[]
  {
    var g :- AfterReplicaSets(inputs);
    var rs :- Fetched(inputs.statefulSets, StatefulSet);
    AddWorkloads(g, StatefulSet, "statefulsets/", StatefulSets(rs))
  }

  function AfterDaemonSets(inputs: Inputs): (r: Result<Graph, BuildError>)
    ensures r.Success? ==> WellFormed(r.value) && r.value.lookup[Pod] == map[]
  {
    var g :- AfterStatefulSets(inputs);
    var rs :- Fetched(inputs.daemonSets, DaemonSet);
    AddWorkloads(g, DaemonSet, "ds/", DaemonSets(rs))
  }

  function AfterClaims(inputs: Inputs): (r: Result<Graph, BuildError>)
    ensures r.Success? ==> WellFormed(r.value) && r.value.lookup[Pod] == map[]
  {
    var g :- AfterDaemonSets(inputs);
    var cs :- Fetched(inputs.claims, PersistentVolumeClaim);
    Success(AddClaims(g, cs))
  }

  function AfterVolumes(inputs: Inputs): (r: Result<Graph, BuildError>)
    ensures r.Success? ==> WellFormed(r.value) && r.value.lookup[Pod] == map[]
  {
    var g :- AfterClaims(inputs);
    var vs :- Fetched(inputs.volumes, PersistentVolume);
    AddVolumes(g, vs)
  }

  /** One empty pod-table visit per service. */
  function NoVisits(n: nat): (orders: seq<seq<string>>)
    ensures |orders| == n && forall i :: 0 <= i < n ==> orders[i] == []
  {
    seq(n, i => [])
  }

  /** Services run while the pod table is still empty, so every selector loop visits
      nothing (see Tree.Kubetree.AddServices, whose visit orders are all empty here). */
  function AfterServices(inputs: Inputs): (r: Result<Graph, BuildError>)
    ensures r.Success? ==> WellFormed(r.value) && r.value.lookup[Pod] == map[]
  {
    var g :- AfterVolumes(inputs);
    var ss :- Fetched(inputs.services, Service);
    Success(AddServices(g, ss, NoVisits(|ss|)))
  }

  /** The graph `kubetree` prints (kubetree.go:121-156). */
  function BuildGraph(inputs: Inputs): (r: Result<Graph, BuildError>)
    ensures r.Success? ==> WellFormed(r.value)
  {
    var g :- AfterServices(inputs);
    var ps :- Fetched(inputs.pods, Pod);
    AddPods(g, ps)
  }
}
