/** What the fixed build order guarantees about the finished graph: no service is
    ever attached, neither given a parent nor entered as anyone's child (services are
    added while the pod table is still empty, kubetree.go:152-156), while namespaces,
    workloads and pods always have a parent (parents never returns an empty list,
    kubetree.go:541-561). */
module Shape {
  import opened Base
  import opened Kinds
  import opened Records
  import opened Health
  import opened Forest
  import opened Build

  /** The kinds whose add loop always sets a parent. */
  predicate AlwaysPlaced(k: Kind) {
    k == Namespace || IsController(k) || k == Pod
  }

  /** A service has no parent; a namespace, workload or pod has one. */
  predicate ShapedNode(e: Element) {
    && (e.kind == Service ==> e.parent.None?)
    && (AlwaysPlaced(e.kind) ==> e.parent.Some?)
  }

  /** c names an element that is not a service. */
  predicate NotService(nodes: seq<Element>, c: nat) {
    c < |nodes| && nodes[c].kind != Service
  }

  /** No element's children map holds a service. */
  ghost predicate NoServiceChild(nodes: seq<Element>) {
    forall i, k :: 0 <= i < |nodes| && k in nodes[i].children ==> NotService(nodes, nodes[i].children[k])
  }

  ghost predicate Shaped(nodes: seq<Element>) {
    && (forall i :: 0 <= i < |nodes| ==> ShapedNode(nodes[i]))
    && NoServiceChild(nodes)
  }

  /** Inserting children never changes a kind or a parent. */
  lemma AttachAllShaped(nodes: seq<Element>, ps: seq<nat>, key: string, c: nat)
    requires forall i :: 0 <= i < |ps| ==> ps[i] < |nodes|
    requires Shaped(nodes) && NotService(nodes, c)
    ensures Shaped(AttachAll(nodes, ps, key, c))
  {
    var r := AttachAll(nodes, ps, key, c);
    forall i | 0 <= i < |r| ensures ShapedNode(r[i]) {
      assert ShapedNode(nodes[i]);
    }
    assert forall j :: 0 <= j < |r| ==> r[j].kind == nodes[j].kind;
    forall i, k | 0 <= i < |r| && k in r[i].children ensures NotService(r, r[i].children[k]) {
      if !(i in ps && k == key) {
        assert k in nodes[i].children && r[i].children[k] == nodes[i].children[k];
        assert NotService(nodes, nodes[i].children[k]);
      }
    }
  }

  /** Adding a child to one element keeps the shape. */
  lemma AddChildShaped(nodes: seq<Element>, c: nat, key: string, id: nat)
    requires c < |nodes| && Shaped(nodes) && NotService(nodes, id)
    ensures Shaped(nodes[c := AddChild(nodes[c], key, id)])
  {
    var r := nodes[c := AddChild(nodes[c], key, id)];
    forall i | 0 <= i < |r| ensures ShapedNode(r[i]) {
      assert ShapedNode(nodes[i]);
    }
    forall i, k | 0 <= i < |r| && k in r[i].children ensures NotService(r, r[i].children[k]) {
      if !(i == c && k == key) {
        assert k in nodes[i].children && r[i].children[k] == nodes[i].children[k];
        assert NotService(nodes, nodes[i].children[k]);
      }
    }
  }

  lemma NamespaceStepShaped(g: Graph, n: NamespaceRecord)
    requires WellFormed(g) && Shaped(g.nodes)
    ensures Shaped(NamespaceStep(g, n).nodes)
  {
    var e := NewElement(n.name, map[], Namespace, "ns/" + n.name, Some(Root), "", Health(Unset, ""));
    AppendShaped(g.nodes, e);
    assert (g.nodes + [e])[|g.nodes|] == e;
    AddChildShaped(g.nodes + [e], Root, n.name, |g.nodes|);
  }

  lemma WorkloadStepShaped(g: Graph, kind: Kind, prefix: string, m: Meta, h: Health)
    requires WellFormed(g) && IsController(kind) && Shaped(g.nodes)
    requires WorkloadStep(g, kind, prefix, m, h).Success?
    ensures Shaped(WorkloadStep(g, kind, prefix, m, h).value.nodes)
  {
    var ps := CandidateParents(g, m.namespace, m.owners).value;
    var e := NewElement(m.name, m.labels, kind, prefix + m.name, Some(ps[0]), m.namespace, h);
    AppendShaped(g.nodes, e);
    assert (g.nodes + [e])[|g.nodes|] == e;
    AttachAllShaped(g.nodes + [e], ps, prefix + m.name, |g.nodes|);
  }

  lemma AppendShaped(nodes: seq<Element>, e: Element)
    requires Shaped(nodes) && ShapedNode(e) && e.children == map[]
    ensures Shaped(nodes + [e])
  {
    var r := nodes + [e];
    forall i | 0 <= i < |r| ensures ShapedNode(r[i]) {
      if i < |nodes| {
        assert r[i] == nodes[i];
      }
    }
    forall i, k | 0 <= i < |r| && k in r[i].children ensures NotService(r, r[i].children[k]) {
      assert r[i] == nodes[i];
      assert NotService(nodes, nodes[i].children[k]);
      assert r[nodes[i].children[k]] == nodes[nodes[i].children[k]];
    }
  }

  /** Linking claims only gives parents to claim elements, and only claims become
      children. */
  lemma LinkClaimsShaped(g: Graph, pod: nat, namespace: string, vols: seq<Volume>)
    requires WellFormed(g) && pod < |g.nodes| && g.nodes[pod].kind == Pod && Shaped(g.nodes)
    ensures Shaped(LinkClaims(g.nodes, pod, namespace, vols, g.lookup[PersistentVolumeClaim]))
  {
    LinkClaimsNodesShaped(g, pod, namespace, vols);
    LinkClaimsNoServiceChild(g, pod, namespace, vols);
  }

  lemma LinkClaimsNodesShaped(g: Graph, pod: nat, namespace: string, vols: seq<Volume>)
    requires WellFormed(g) && pod < |g.nodes| && g.nodes[pod].kind == Pod && Shaped(g.nodes)
    ensures var r := LinkClaims(g.nodes, pod, namespace, vols, g.lookup[PersistentVolumeClaim]);
      forall i :: 0 <= i < |r| ==> ShapedNode(r[i])
  {
    var claims := g.lookup[PersistentVolumeClaim];
    var r := LinkClaims(g.nodes, pod, namespace, vols, claims);
    LinkClaimsEffect(g.nodes, pod, namespace, vols, claims);
    var links := ClaimLinks(namespace, vols, claims);
    forall i | 0 <= i < |r| ensures ShapedNode(r[i]) {
      assert ShapedNode(g.nodes[i]);
      if i != pod && i in links.Values {
        var k :| k in links && links[k] == i;
        assert g.nodes[claims[k]].kind == PersistentVolumeClaim;
      }
    }
  }

  lemma LinkClaimsNoServiceChild(g: Graph, pod: nat, namespace: string, vols: seq<Volume>)
    requires WellFormed(g) && pod < |g.nodes| && g.nodes[pod].kind == Pod && Shaped(g.nodes)
    ensures NoServiceChild(LinkClaims(g.nodes, pod, namespace, vols, g.lookup[PersistentVolumeClaim]))
  {
    var claims := g.lookup[PersistentVolumeClaim];
    var r := LinkClaims(g.nodes, pod, namespace, vols, claims);
    LinkClaimsEffect(g.nodes, pod, namespace, vols, claims);
    LinkClaimsKinds(g.nodes, pod, namespace, vols, claims);
    var links := ClaimLinks(namespace, vols, claims);
    forall i, k | 0 <= i < |r| && k in r[i].children ensures NotService(r, r[i].children[k]) {
      if i == pod && k in links {
        assert r[i].children[k] == claims[k];
        assert g.nodes[claims[k]].kind == PersistentVolumeClaim;
      } else {
        assert k in g.nodes[i].children && r[i].children[k] == g.nodes[i].children[k];
        assert NotService(g.nodes, g.nodes[i].children[k]);
      }
    }
  }

  /** Linking claims changes no element's kind. */
  lemma LinkClaimsKinds(nodes: seq<Element>, pod: nat, namespace: string, vols: seq<Volume>, claims: map<string, nat>)
    requires pod < |nodes|
    requires forall k :: k in claims ==> claims[k] < |nodes| && claims[k] != pod
    ensures var r := LinkClaims(nodes, pod, namespace, vols, claims);
      forall j :: 0 <= j < |r| ==> r[j].kind == nodes[j].kind
  {
    LinkClaimsEffect(nodes, pod, namespace, vols, claims);
  }

  lemma PodStepShaped(g: Graph, p: PodRecord)
    requires WellFormed(g) && Shaped(g.nodes) && PodStep(g, p).Success?
    ensures Shaped(PodStep(g, p).value.nodes)
  {
    var ps := CandidateParents(g, p.meta.namespace, p.meta.owners).value;
    var e := NewElement(p.meta.name, p.meta.labels, Pod, "po/" + p.meta.name, Some(ps[0]), p.meta.namespace, PodStatus(p));
    var g1 := Append(g, e, ObjectKey(p.meta));
    AppendShaped(g.nodes, e);
    LinkClaimsShaped(g1, |g.nodes|, p.meta.namespace, p.volumes);
    assert g1.lookup[PersistentVolumeClaim] == g.lookup[PersistentVolumeClaim];
    var linked := LinkClaims(g.nodes + [e], |g.nodes|, p.meta.namespace, p.volumes, g.lookup[PersistentVolumeClaim]);
    LinkClaimsKinds(g1.nodes, |g.nodes|, p.meta.namespace, p.volumes, g.lookup[PersistentVolumeClaim]);
    AttachAllShaped(linked, ps, "po/" + p.meta.name, |g.nodes|);
  }

  lemma VolumeStepShaped(g: Graph, v: VolumeRecord)
    requires WellFormed(g) && Shaped(g.nodes) && VolumeStep(g, v).Success?
    ensures Shaped(VolumeStep(g, v).value.nodes)
  {
    var claim := BoundClaim(g, v).value;
    var e := NewElement(v.name, map[], PersistentVolume, "pv/" + v.name, claim, "", VolumeHealth(v.phase));
    AppendShaped(g.nodes, e);
    assert (g.nodes + [e])[|g.nodes|] == e;
    if claim.Some? {
      AddChildShaped(g.nodes + [e], claim.value, "pv/" + v.name, |g.nodes|);
    }
  }

  lemma {:induction false} AddNamespacesShaped(g: Graph, ns: seq<NamespaceRecord>)
    requires WellFormed(g) && Shaped(g.nodes)
    ensures Shaped(AddNamespaces(g, ns).nodes)
    decreases |ns|
  {
    if ns != [] {
      AddNamespacesShaped(g, ns[..|ns| - 1]);
      NamespaceStepShaped(AddNamespaces(g, ns[..|ns| - 1]), ns[|ns| - 1]);
    }
  }

  lemma {:induction false} AddWorkloadsShaped(g: Graph, kind: Kind, prefix: string, ws: seq<Workload>)
    requires WellFormed(g) && IsController(kind) && Shaped(g.nodes)
    requires AddWorkloads(g, kind, prefix, ws).Success?
    ensures Shaped(AddWorkloads(g, kind, prefix, ws).value.nodes)
    decreases |ws|
  {
    if ws != [] {
      var g1 := AddWorkloads(g, kind, prefix, ws[..|ws| - 1]).value;
      AddWorkloadsShaped(g, kind, prefix, ws[..|ws| - 1]);
      WorkloadStepShaped(g1, kind, prefix, ws[|ws| - 1].meta, ws[|ws| - 1].health);
    }
  }

  lemma ClaimStepShaped(g: Graph, c: ClaimRecord)
    requires WellFormed(g) && Shaped(g.nodes)
    ensures Shaped(ClaimStep(g, c).nodes)
  {
    AppendShaped(g.nodes, NewElement(c.meta.name, map[], PersistentVolumeClaim, "pvc/" + c.meta.name,
                                     None, c.meta.namespace, ClaimHealth(c.phase)));
  }

  lemma {:induction false} AddClaimsShaped(g: Graph, cs: seq<ClaimRecord>)
    requires WellFormed(g) && Shaped(g.nodes)
    ensures Shaped(AddClaims(g, cs).nodes)
    decreases |cs|
  {
    if cs != [] {
      AddClaimsShaped(g, cs[..|cs| - 1]);
      ClaimStepShaped(AddClaims(g, cs[..|cs| - 1]), cs[|cs| - 1]);
    }
  }

  lemma {:induction false} AddVolumesShaped(g: Graph, vs: seq<VolumeRecord>)
    requires WellFormed(g) && Shaped(g.nodes) && AddVolumes(g, vs).Success?
    ensures Shaped(AddVolumes(g, vs).value.nodes)
    decreases |vs|
  {
    if vs != [] {
      var g1 := AddVolumes(g, vs[..|vs| - 1]).value;
      AddVolumesShaped(g, vs[..|vs| - 1]);
      VolumeStepShaped(g1, vs[|vs| - 1]);
    }
  }

  lemma ServiceStepShaped(g: Graph, s: ServiceRecord)
    requires WellFormed(g) && Shaped(g.nodes)
    ensures Shaped(ServiceStep(g, s, []).nodes)
  {
    AppendShaped(g.nodes, ServiceElement(s));
  }

  /** With every selector visit empty, a service is only appended, without a parent. */
  lemma {:induction false} AddServicesShaped(g: Graph, ss: seq<ServiceRecord>)
    requires WellFormed(g) && Shaped(g.nodes)
    ensures Shaped(AddServices(g, ss, NoVisits(|ss|)).nodes)
    decreases |ss|
  {
    if ss != [] {
      var n := |ss| - 1;
      assert NoVisits(|ss|)[..n] == NoVisits(n);
      AddServicesShaped(g, ss[..n]);
      ServiceStepShaped(AddServices(g, ss[..n], NoVisits(n)), ss[n]);
    }
  }

  lemma {:induction false} AddPodsShaped(g: Graph, ps: seq<PodRecord>)
    requires WellFormed(g) && Shaped(g.nodes) && AddPods(g, ps).Success?
    ensures Shaped(AddPods(g, ps).value.nodes)
    decreases |ps|
  {
    if ps != [] {
      var g1 := AddPods(g, ps[..|ps| - 1]).value;
      AddPodsShaped(g, ps[..|ps| - 1]);
      PodStepShaped(g1, ps[|ps| - 1]);
    }
  }

  /* Each stage of the build keeps the shape. */

  lemma InitialShaped()
    ensures Shaped(Initial().nodes)
  {
    assert ShapedNode(Initial().nodes[0]);
    assert Initial().nodes[0].children == map[];
  }

  lemma AfterNamespacesShaped(inputs: Inputs)
    requires AfterNamespaces(inputs).Success?
    ensures Shaped(AfterNamespaces(inputs).value.nodes)
  {
    InitialShaped();
    AddNamespacesShaped(Initial(), inputs.namespaces.value);
  }

  lemma AfterDeploymentsShaped(inputs: Inputs)
    requires AfterDeployments(inputs).Success?
    ensures Shaped(AfterDeployments(inputs).value.nodes)
  {
    AfterNamespacesShaped(inputs);
    AddWorkloadsShaped(AfterNamespaces(inputs).value, Deployment, "deploy/", Deployments(inputs.deployments.value));
  }

  lemma AfterReplicaSetsShaped(inputs: Inputs)
    requires AfterReplicaSets(inputs).Success?
    ensures Shaped(AfterReplicaSets(inputs).value.nodes)
  {
    AfterDeploymentsShaped(inputs);
    AddWorkloadsShaped(AfterDeployments(inputs).value, ReplicaSet, "rs/", ReplicaSets(inputs.replicaSets.value));
  }

  lemma AfterStatefulSetsShaped(inputs: Inputs)
    requires AfterStatefulSets(inputs).Success?
    ensures Shaped(AfterStatefulSets(inputs).value.nodes)
  {
    AfterReplicaSetsShaped(inputs);
    AddWorkloadsShaped(AfterReplicaSets(inputs).value, StatefulSet, "statefulsets/", StatefulSets(inputs.statefulSets.value));
  }

  lemma AfterDaemonSetsShaped(inputs: Inputs)
    requires AfterDaemonSets(inputs).Success?
    ensures Shaped(AfterDaemonSets(inputs).value.nodes)
  {
    AfterStatefulSetsShaped(inputs);
    AddWorkloadsShaped(AfterStatefulSets(inputs).value, DaemonSet, "ds/", DaemonSets(inputs.daemonSets.value));
  }

  lemma AfterClaimsShaped(inputs: Inputs)
    requires AfterClaims(inputs).Success?
    ensures Shaped(AfterClaims(inputs).value.nodes)
  {
    AfterDaemonSetsShaped(inputs);
    AddClaimsShaped(AfterDaemonSets(inputs).value, inputs.claims.value);
  }

  lemma AfterVolumesShaped(inputs: Inputs)
    requires AfterVolumes(inputs).Success?
    ensures Shaped(AfterVolumes(inputs).value.nodes)
  {
    AfterClaimsShaped(inputs);
    AddVolumesShaped(AfterClaims(inputs).value, inputs.volumes.value);
  }

  lemma AfterServicesShaped(inputs: Inputs)
    requires AfterServices(inputs).Success?
    ensures Shaped(AfterServices(inputs).value.nodes)
  {
    AfterVolumesShaped(inputs);
    AddServicesShaped(AfterVolumes(inputs).value, inputs.services.value);
  }

  /** In every graph the build produces, no service has a parent and no element has a
      service among its children, so no service is printed; every namespace, workload
      and pod has a parent. */
  lemma BuildGraphShaped(inputs: Inputs)
    requires BuildGraph(inputs).Success?
    ensures var nodes := BuildGraph(inputs).value.nodes;
      && (forall i :: 0 <= i < |nodes| ==>
            (nodes[i].kind == Service ==> nodes[i].parent.None?) && (AlwaysPlaced(nodes[i].kind) ==> nodes[i].parent.Some?))
      && (forall i, k :: 0 <= i < |nodes| && k in nodes[i].children ==> NotService(nodes, nodes[i].children[k]))
  {
    AfterServicesShaped(inputs);
    AddPodsShaped(AfterServices(inputs).value, inputs.pods.value);
    ShapedMeans(BuildGraph(inputs).value.nodes);
  }

  /** Shaped spelled out. */
  lemma ShapedMeans(nodes: seq<Element>)
    requires Shaped(nodes)
    ensures forall i :: 0 <= i < |nodes| ==>
              (nodes[i].kind == Service ==> nodes[i].parent.None?) && (AlwaysPlaced(nodes[i].kind) ==> nodes[i].parent.Some?)
    ensures forall i, k :: 0 <= i < |nodes| && k in nodes[i].children ==> NotService(nodes, nodes[i].children[k])
  {
    forall i | 0 <= i < |nodes|
      ensures (nodes[i].kind == Service ==> nodes[i].parent.None?) && (AlwaysPlaced(nodes[i].kind) ==> nodes[i].parent.Some?)
    {
      assert ShapedNode(nodes[i]);
    }
  }
}
