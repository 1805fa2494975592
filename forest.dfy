/** The ownership graph as a value: elements addressed by their position in `nodes`
    (the root is position 0), and the two-level lookup index kind -> key -> element
    (kubetree.go:28-47, 100-115). The functions here say what each ingestion step of
    the builder produces; the `Kubetree` class performs the same steps in place. */
module Forest {
  import opened Base
  import opened Kinds
  import opened Records
  import opened Health

  /** One tree element (kubetree.go:28-38). `labels` is what the element's record
      contributes later on: the pod labels read by the service selector. */
  datatype Element = Element(
    name: string,
    namespace: string,
    kind: Kind,
    title: string,
    labels: map<string, string>,
    parent: Option<nat>,
    children: map<string, nat>,
    state: State,
    stateDesc: string)

  type Index = map<Kind, map<string, nat>>

  datatype Graph = Graph(nodes: seq<Element>, lookup: Index)

  /** Why a build aborts: a failed fetch, or a panic of the source (a nil namespace
      element, a bound volume without a claim reference, an exhausted stack). */
  datatype BuildError =
    | FetchFailed(kind: Kind, reason: string)
    | MissingNamespace(namespace: string)
    | MissingClaimRef(volume: string)
    | StackExhausted

  const Root: nat := 0

  /** `newElement` (kubetree.go:477-487) followed by the state and description the
      caller assigns. */
  function NewElement(name: string, labels: map<string, string>, kind: Kind, title: string,
                      parent: Option<nat>, namespace: string, h: Health): (e: Element)
    ensures e.children == map[] && e.kind == kind && e.title == title && e.parent == parent
    ensures e.state == h.state && e.stateDesc == h.desc
  {
    Element(name, namespace, kind, title, labels, parent, map[], h.state, h.desc)
  }

  function AddChild(e: Element, key: string, c: nat): Element {
    e.(children := e.children[key := c])
  }

  /** Every reference an element holds points at an existing element. */
  ghost predicate Linked(e: Element, n: nat) {
    && (e.parent.Some? ==> e.parent.value < n)
    && (forall k :: k in e.children ==> e.children[k] < n)
  }

  /** Element i of n is linked, and unless it is a claim its parent is older. */
  ghost predicate NodeOk(e: Element, i: nat, n: nat) {
    && Linked(e, n)
    && (e.kind != PersistentVolumeClaim && e.parent.Some? ==> e.parent.value < i)
  }

  /** What every stage of the build keeps: the root is the cluster element, the index
      has exactly the nine tracked tables and files each element under its own kind,
      references stay in range, and every parent link except a claim's (which points at
      the pod that mounts it) points at an older element. */
  ghost predicate WellFormed(g: Graph) {
    && |g.nodes| > 0
    && g.nodes[Root].kind == Cluster
    && g.lookup.Keys == TrackedKinds
    && (forall i :: 0 <= i < |g.nodes| ==> NodeOk(g.nodes[i], i, |g.nodes|))
    && (forall k, key :: k in g.lookup && key in g.lookup[k] ==>
          g.lookup[k][key] < |g.nodes| && g.nodes[g.lookup[k][key]].kind == k)
  }

  /** `New` plus the root element created at kubetree.go:121-122: the cluster element
      alone, titled "kubernetes", without state, parent or children, and nine empty tables. */
  function Initial(): (g: Graph)
    ensures WellFormed(g)
    ensures forall k :: k in TrackedKinds ==> g.lookup[k] == map[]
    ensures |g.nodes| == 1
    ensures g.nodes[Root].name == "kubernetes" && g.nodes[Root].title == "kubernetes" && g.nodes[Root].namespace == ""
    ensures g.nodes[Root].state == Unset && g.nodes[Root].stateDesc == ""
    ensures g.nodes[Root].parent.None? && g.nodes[Root].children == map[] && g.nodes[Root].labels == map[]
  {
    Graph([Element("kubernetes", "", Cluster, "kubernetes", map[], None, map[], Unset, "")],
          map k | k in TrackedKinds :: map[])
  }

  /** Index key of a namespaced object. */
  function ObjectKey(m: Meta): string {
    m.namespace + "/" + m.name
  }

  function Register(lookup: Index, kind: Kind, key: string, id: nat): Index
    requires kind in lookup
  {
    var table: map<string, nat> := lookup[kind][key := id];
    lookup[kind := table]
  }

  /** Filing an element adds exactly one entry to one table and leaves every other
      entry of the index as it was. */
  lemma RegisterEffect(lookup: Index, kind: Kind, key: string, id: nat, k: Kind, x: string)
    requires kind in lookup
    ensures var r := Register(lookup, kind, key, id);
      && r.Keys == lookup.Keys
      && (k in r && x in r[k] <==> (k == kind && x == key) || (k in lookup && x in lookup[k]))
      && (k in r && x in r[k] ==> r[k][x] == if k == kind && x == key then id else lookup[k][x])
  {
  }

  /** The element an owner reference names, if its kind has a table and the table
      has `namespace/name` (kubetree.go:549-553). */
  function ResolveOwner(g: Graph, namespace: string, o: OwnerRef): (r: Option<nat>)
    ensures WellFormed(g) && r.Some? ==> r.value < |g.nodes|
  {
    match KindOf(o.kind)
    case None => None
    case Some(k) =>
      if k in g.lookup && namespace + "/" + o.name in g.lookup[k] then
        Some(g.lookup[k][namespace + "/" + o.name])
      else None
  }

  /** The owners that resolve, in reference order. */
  function ResolveOwners(g: Graph, namespace: string, owners: seq<OwnerRef>): (r: seq<nat>)
    ensures |r| <= |owners|
    ensures r == [] <==> forall i :: 0 <= i < |owners| ==> ResolveOwner(g, namespace, owners[i]).None?
    ensures WellFormed(g) ==> forall j :: 0 <= j < |r| ==> r[j] < |g.nodes|
    decreases |owners|
  {
    if owners == [] then []
    else
      var init := owners[..|owners| - 1];
      var prev := ResolveOwners(g, namespace, init);
      assert forall i :: 0 <= i < |init| ==> init[i] == owners[i];
      match ResolveOwner(g, namespace, owners[|owners| - 1])
      case Some(p) => prev + [p]
      case None => prev
  }

  /** An element is among the resolved owners exactly when some owner reference
      resolves to it. */
  lemma ResolveOwnersMembers(g: Graph, namespace: string, owners: seq<OwnerRef>, x: nat)
    ensures x in ResolveOwners(g, namespace, owners) <==>
              exists i :: 0 <= i < |owners| && ResolveOwner(g, namespace, owners[i]) == Some(x)
  {
    if x in ResolveOwners(g, namespace, owners) {
      var i := ResolveOwnersSound(g, namespace, owners, x);
    }
    if exists i :: 0 <= i < |owners| && ResolveOwner(g, namespace, owners[i]) == Some(x) {
      var i :| 0 <= i < |owners| && ResolveOwner(g, namespace, owners[i]) == Some(x);
      ResolveOwnersComplete(g, namespace, owners, i);
    }
  }

  /** Every resolved owner comes from some owner reference. */
  lemma {:induction false} ResolveOwnersSound(g: Graph, namespace: string, owners: seq<OwnerRef>, x: nat)
      returns (i: nat)
    requires x in ResolveOwners(g, namespace, owners)
    ensures i < |owners| && ResolveOwner(g, namespace, owners[i]) == Some(x)
    decreases |owners|
  {
    var init := owners[..|owners| - 1];
    if x in ResolveOwners(g, namespace, init) {
      i := ResolveOwnersSound(g, namespace, init, x);
      assert owners[i] == init[i];
    } else {
      i := |owners| - 1;
    }
  }

  /** Every owner reference that resolves contributes its element. */
  lemma {:induction false} ResolveOwnersComplete(g: Graph, namespace: string, owners: seq<OwnerRef>, i: nat)
    requires i < |owners| && ResolveOwner(g, namespace, owners[i]).Some?
    ensures ResolveOwner(g, namespace, owners[i]).value in ResolveOwners(g, namespace, owners)
    decreases |owners|
  {
    var init := owners[..|owners| - 1];
    var prev := ResolveOwners(g, namespace, init);
    var r := ResolveOwners(g, namespace, owners);
    assert prev <= r;
    if i < |init| {
      assert owners[i] == init[i];
      ResolveOwnersComplete(g, namespace, init, i);
    } else {
      assert r[|r| - 1] == ResolveOwner(g, namespace, owners[i]).value;
    }
  }

  /** The namespace element as sole candidate; a missing one is the nil element the
      source then dereferences. */
  function NamespaceParent(g: Graph, namespace: string): (r: Result<seq<nat>, BuildError>)
    requires Namespace in g.lookup
  {
    if namespace in g.lookup[Namespace] then Success([g.lookup[Namespace][namespace]])
    else Failure(MissingNamespace(namespace))
  }

  /** `parents` (kubetree.go:541-561). */
  function CandidateParents(g: Graph, namespace: string, owners: seq<OwnerRef>): (r: Result<seq<nat>, BuildError>)
    requires WellFormed(g)
    ensures r.Success? ==> |r.value| > 0
    ensures r.Success? ==> forall i :: 0 <= i < |r.value| ==> r.value[i] < |g.nodes|
    ensures r.Failure? <==> namespace != "" && namespace !in g.lookup[Namespace] &&
                            forall i :: 0 <= i < |owners| ==> ResolveOwner(g, namespace, owners[i]).None?
    ensures r.Failure? ==> r.error == MissingNamespace(namespace)
  {
    if namespace == "" then Success([Root])
    else if owners == [] then NamespaceParent(g, namespace)
    else
      var p := ResolveOwners(g, namespace, owners);
      if |p| > 0 then Success(p)
      else
        NamespaceParent(g, namespace)
  }

  /** The cases of `parents`: the root for a cluster-scoped object, the namespace
      element when no owner resolves (none declared, or only untracked kinds), and
      otherwise exactly the resolved owners. */
  lemma CandidateParentsCases(g: Graph, namespace: string, owners: seq<OwnerRef>)
    requires WellFormed(g)
    ensures namespace == "" ==> CandidateParents(g, namespace, owners) == Success([Root])
    ensures namespace != "" && (forall i :: 0 <= i < |owners| ==> ResolveOwner(g, namespace, owners[i]).None?) ==>
              CandidateParents(g, namespace, owners) == NamespaceParent(g, namespace)
    ensures namespace != "" && (exists i :: 0 <= i < |owners| && ResolveOwner(g, namespace, owners[i]).Some?) ==>
              CandidateParents(g, namespace, owners) == Success(ResolveOwners(g, namespace, owners))
  {
  }

  /** An owner reference whose kind has no table never resolves. */
  lemma UntrackedOwner(g: Graph, namespace: string, o: OwnerRef)
    requires WellFormed(g)
    requires KindOf(o.kind).None? || KindOf(o.kind) == Some(Cluster)
    ensures ResolveOwner(g, namespace, o).None?
  {
  }

  /** The child insertion loop `for _, p := range parents { p.children[key] = e }`. */
  function AttachAll(nodes: seq<Element>, ps: seq<nat>, key: string, c: nat): (r: seq<Element>)
    requires forall i :: 0 <= i < |ps| ==> ps[i] < |nodes|
    ensures |r| == |nodes|
    ensures forall i :: 0 <= i < |nodes| ==> r[i] == if i in ps then AddChild(nodes[i], key, c) else nodes[i]
    decreases |ps|
  {
    if ps == [] then nodes
    else
      var init := ps[..|ps| - 1];
      var q := AttachAll(nodes, init, key, c);
      var p := ps[|ps| - 1];
      assert forall i :: i in ps <==> i in init || i == p;
      q[p := AddChild(q[p], key, c)]
  }

  /** Appending a fresh element and filing it in its kind's table. */
  function Append(g: Graph, e: Element, key: string): (g': Graph)
    requires WellFormed(g) && e.kind in TrackedKinds && e.children == map[]
    requires e.parent.Some? ==> e.parent.value < |g.nodes|
    ensures WellFormed(g')
    ensures g'.nodes == g.nodes + [e] && g'.lookup == Register(g.lookup, e.kind, key, |g.nodes|)
  {
    var g' := Graph(g.nodes + [e], Register(g.lookup, e.kind, key, |g.nodes|));
    assert forall i :: 0 <= i < |g.nodes| ==> g'.nodes[i] == g.nodes[i];
    assert Linked(e, |g'.nodes|);
    g'
  }

  /** Inserting element c under every candidate keeps the graph well formed. */
  function Attach(g: Graph, ps: seq<nat>, key: string, c: nat): (g': Graph)
    requires WellFormed(g) && c < |g.nodes|
    requires forall i :: 0 <= i < |ps| ==> ps[i] < |g.nodes|
    ensures WellFormed(g')
    ensures g'.lookup == g.lookup && g'.nodes == AttachAll(g.nodes, ps, key, c)
  {
    var g' := Graph(AttachAll(g.nodes, ps, key, c), g.lookup);
    assert forall i :: 0 <= i < |g.nodes| ==> g'.nodes[i].kind == g.nodes[i].kind && g'.nodes[i].parent == g.nodes[i].parent;
    assert forall i :: 0 <= i < |g.nodes| ==> Linked(g'.nodes[i], |g'.nodes|) by {
      forall i | 0 <= i < |g.nodes| ensures Linked(g'.nodes[i], |g'.nodes|) {
        assert Linked(g.nodes[i], |g.nodes|);
      }
    }
    g'
  }

  /** Adding a Deployment, ReplicaSet, StatefulSet or DaemonSet record
      (kubetree.go:270-297, 307-325, 336-357, 368-389). */
  function WorkloadStep(g: Graph, kind: Kind, prefix: string, m: Meta, h: Health): (r: Result<Graph, BuildError>)
    requires WellFormed(g) && IsController(kind)
    ensures r.Success? <==> CandidateParents(g, m.namespace, m.owners).Success?
    ensures r.Failure? ==> r.error == CandidateParents(g, m.namespace, m.owners).error
    ensures r.Success? ==> WellFormed(r.value)
    ensures r.Success? ==>
      var ps := CandidateParents(g, m.namespace, m.owners).value;
      var e := NewElement(m.name, m.labels, kind, prefix + m.name, Some(ps[0]), m.namespace, h);
      && r.value.nodes == AttachAll(g.nodes + [e], ps, prefix + m.name, |g.nodes|)
      && r.value.lookup == Register(g.lookup, kind, ObjectKey(m), |g.nodes|)
  {
    match CandidateParents(g, m.namespace, m.owners)
    case Failure(err) => Failure(err)
    case Success(ps) =>
      var id := |g.nodes|;
      var title := prefix + m.name;
      var g1 := Append(g, NewElement(m.name, m.labels, kind, title, Some(ps[0]), m.namespace, h), ObjectKey(m));
      Success(Attach(g1, ps, title, id))
  }

  /** Adding a namespace record (kubetree.go:410-415): a new element with no state,
      entered in the root's children under its bare name and filed under its name. */
  function NamespaceStep(g: Graph, n: NamespaceRecord): (g': Graph)
    requires WellFormed(g)
    ensures WellFormed(g')
    ensures |g'.nodes| == |g.nodes| + 1
    ensures g'.nodes == (g.nodes + [NewElement(n.name, map[], Namespace, "ns/" + n.name, Some(Root), "", Health(Unset, ""))])
                          [Root := AddChild(g.nodes[Root], n.name, |g.nodes|)]
    ensures g'.lookup == Register(g.lookup, Namespace, n.name, |g.nodes|)
  {
    var id := |g.nodes|;
    var g1 := Append(g, NewElement(n.name, map[], Namespace, "ns/" + n.name, Some(Root), "", Health(Unset, "")), n.name);
    Attach(g1, [Root], n.name, id)
  }

  /** Adding a claim record (kubetree.go:244-260): a new element without a parent,
      filed under `namespace/name`; it enters the tree only when a pod mounts it. */
  function ClaimStep(g: Graph, c: ClaimRecord): (g': Graph)
    requires WellFormed(g)
    ensures WellFormed(g')
    ensures g'.nodes == g.nodes + [NewElement(c.meta.name, map[], PersistentVolumeClaim, "pvc/" + c.meta.name,
                                              None, c.meta.namespace, ClaimHealth(c.phase))]
    ensures g'.lookup == Register(g.lookup, PersistentVolumeClaim, ObjectKey(c.meta), |g.nodes|)
  {
    Append(g, NewElement(c.meta.name, map[], PersistentVolumeClaim, "pvc/" + c.meta.name,
                         None, c.meta.namespace, ClaimHealth(c.phase)), ObjectKey(c.meta))
  }

  /** The claim a volume record attaches to (kubetree.go:227-232): only a bound volume
      whose claim reference has kind PersistentVolumeClaim and names an indexed claim.
      A bound volume without a claim reference is the nil dereference of the source. */
  function BoundClaim(g: Graph, v: VolumeRecord): (r: Result<Option<nat>, BuildError>)
    requires WellFormed(g)
    ensures r.Failure? <==> v.phase == VolumeBound && v.claimRef.None?
    ensures r.Failure? ==> r.error == MissingClaimRef(v.name)
    ensures r.Success? && r.value.Some? <==>
              v.phase == VolumeBound && v.claimRef.Some? && v.claimRef.value.kind == "PersistentVolumeClaim" &&
              v.claimRef.value.namespace + "/" + v.claimRef.value.name in g.lookup[PersistentVolumeClaim]
    ensures r.Success? && r.value.Some? ==>
              r.value.value == g.lookup[PersistentVolumeClaim][v.claimRef.value.namespace + "/" + v.claimRef.value.name]
              && g.nodes[r.value.value].kind == PersistentVolumeClaim
  {
    if v.phase != VolumeBound then Success(None)
    else match v.claimRef
      case None => Failure(MissingClaimRef(v.name))
      case Some(ref) =>
        var key := ref.namespace + "/" + ref.name;
        if ref.kind == "PersistentVolumeClaim" && key in g.lookup[PersistentVolumeClaim] then
          Success(Some(g.lookup[PersistentVolumeClaim][key]))
        else Success(None)
  }

  /** Adding a volume record (kubetree.go:209-233): a new element filed under its bare
      name, made a child `pv/<name>` of its bound claim when there is one. */
  function VolumeStep(g: Graph, v: VolumeRecord): (r: Result<Graph, BuildError>)
    requires WellFormed(g)
    ensures r.Failure? <==> BoundClaim(g, v).Failure?
    ensures r.Failure? ==> r.error == MissingClaimRef(v.name)
    ensures r.Success? ==>
      var claim := BoundClaim(g, v).value;
      var id := |g.nodes|;
      var e := NewElement(v.name, map[], PersistentVolume, "pv/" + v.name, claim, "", VolumeHealth(v.phase));
      && WellFormed(r.value)
      && |r.value.nodes| == id + 1
      && r.value.nodes == (match claim
           case None => g.nodes + [e]
           case Some(c) => (g.nodes + [e])[c := AddChild(g.nodes[c], "pv/" + v.name, id)])
      && r.value.lookup == Register(g.lookup, PersistentVolume, v.name, id)
  {
    var claim :- BoundClaim(g, v);
    var id := |g.nodes|;
    var g1 := Append(g, NewElement(v.name, map[], PersistentVolume, "pv/" + v.name, claim, "", VolumeHealth(v.phase)), v.name);
    match claim
    case None => Success(g1)
    case Some(c) => Success(Attach(g1, [c], "pv/" + v.name, id))
  }

  /** The claims a pod's volumes name, keyed `namespace/claim` (the child key the source
      uses), restricted to the indexed ones. */
  function ClaimLinks(namespace: string, vols: seq<Volume>, claims: map<string, nat>): (r: map<string, nat>)
    ensures forall k :: k in r ==> k in claims && r[k] == claims[k]
    ensures forall k :: k in r <==>
              (k in claims && exists i :: 0 <= i < |vols| && vols[i].ClaimVolume? && k == namespace + "/" + vols[i].claimName)
    decreases |vols|
  {
    if vols == [] then map[]
    else
      var init := vols[..|vols| - 1];
      var prev := ClaimLinks(namespace, init, claims);
      assert forall i :: 0 <= i < |init| ==> init[i] == vols[i];
      match vols[|vols| - 1]
      case OtherVolume => prev
      case ClaimVolume(c) =>
        var key := namespace + "/" + c;
        if key in claims then prev[key := claims[key]] else prev
  }

  /** One mounted, indexed claim: the claim's parent becomes the pod and the pod gets the
      claim as child `key`. */
  function LinkClaim(nodes: seq<Element>, pod: nat, key: string, pvc: nat): (r: seq<Element>)
    requires pod < |nodes| && pvc < |nodes| && pvc != pod
    ensures |r| == |nodes|
    ensures r[pod] == AddChild(nodes[pod], key, pvc)
    ensures r[pvc] == nodes[pvc].(parent := Some(pod))
    ensures forall i :: 0 <= i < |nodes| && i != pod && i != pvc ==> r[i] == nodes[i]
  {
    var r1 := nodes[pvc := nodes[pvc].(parent := Some(pod))];
    r1[pod := AddChild(r1[pod], key, pvc)]
  }

  /** The volume loop of kubetree.go:458-466, over the pod's volumes in order. */
  function LinkClaims(nodes: seq<Element>, pod: nat, namespace: string, vols: seq<Volume>, claims: map<string, nat>): (r: seq<Element>)
    requires pod < |nodes|
    requires forall k :: k in claims ==> claims[k] < |nodes| && claims[k] != pod
    ensures |r| == |nodes|
    decreases |vols|
  {
    if vols == [] then nodes
    else
      var prev := LinkClaims(nodes, pod, namespace, vols[..|vols| - 1], claims);
      match vols[|vols| - 1]
      case OtherVolume => prev
      case ClaimVolume(c) =>
        var key := namespace + "/" + c;
        if key in claims then LinkClaim(prev, pod, key, claims[key]) else prev
  }

  /** What the volume loop leaves: the pod's children gain exactly the indexed claims its
      volumes name, every such claim has the pod as parent, and nothing else changes. */
  lemma {:induction false} LinkClaimsEffect(nodes: seq<Element>, pod: nat, namespace: string, vols: seq<Volume>, claims: map<string, nat>)
    requires pod < |nodes|
    requires forall k :: k in claims ==> claims[k] < |nodes| && claims[k] != pod
    ensures var r := LinkClaims(nodes, pod, namespace, vols, claims);
      && r[pod] == nodes[pod].(children := nodes[pod].children + ClaimLinks(namespace, vols, claims))
      && forall i :: 0 <= i < |nodes| && i != pod ==>
           r[i] == if i in ClaimLinks(namespace, vols, claims).Values then nodes[i].(parent := Some(pod)) else nodes[i]
    decreases |vols|
  {
    var r := LinkClaims(nodes, pod, namespace, vols, claims);
    var all := ClaimLinks(namespace, vols, claims);
    if vols == [] {
      assert nodes[pod].children + map[] == nodes[pod].children;
    } else {
      var init := vols[..|vols| - 1];
      var prev := LinkClaims(nodes, pod, namespace, init, claims);
      var links := ClaimLinks(namespace, init, claims);
      LinkClaimsEffect(nodes, pod, namespace, init, claims);
      var v := vols[|vols| - 1];
      if v.ClaimVolume? && namespace + "/" + v.claimName in claims {
        var key := namespace + "/" + v.claimName;
        var pvc := claims[key];
        assert r == LinkClaim(prev, pod, key, pvc);
        assert all == links[key := pvc];
        ValuesAfterUpdate(links, claims, key);
        assert r[pod].children == nodes[pod].children + all;
        forall i | 0 <= i < |nodes| && i != pod
          ensures r[i] == if i in all.Values then nodes[i].(parent := Some(pod)) else nodes[i]
        {
          if i != pvc {
            assert r[i] == prev[i];
          }
        }
      } else {
        assert r == prev && all == links;
      }
    }
  }

  /** Re-entering a key with the value the reference map has for it adds exactly that value. */
  lemma ValuesAfterUpdate(links: map<string, nat>, claims: map<string, nat>, key: string)
    requires forall k :: k in links ==> k in claims && links[k] == claims[k]
    requires key in claims
    ensures forall i :: i in links[key := claims[key]].Values <==> i in links.Values || i == claims[key]
  {
    var m := links[key := claims[key]];
    forall i | i in links.Values ensures i in m.Values {
      var k :| k in links && links[k] == i;
      assert m[k] == i;
    }
    forall i | i in m.Values ensures i in links.Values || i == claims[key] {
      var k :| k in m && m[k] == i;
      if k != key {
        assert links[k] == i;
      }
    }
    assert m[key] == claims[key];
  }

  /** The claims of a fresh pod element linked in place; the index is untouched. */
  function WithClaims(g: Graph, pod: nat, namespace: string, vols: seq<Volume>): (g': Graph)
    requires WellFormed(g) && pod == |g.nodes| - 1 && g.nodes[pod].kind == Pod
    ensures WellFormed(g')
    ensures g'.lookup == g.lookup
    ensures g'.nodes == LinkClaims(g.nodes, pod, namespace, vols, g.lookup[PersistentVolumeClaim])
  {
    var claims := g.lookup[PersistentVolumeClaim];
    var r := LinkClaims(g.nodes, pod, namespace, vols, claims);
    LinkClaimsEffect(g.nodes, pod, namespace, vols, claims);
    var links := ClaimLinks(namespace, vols, claims);
    forall i | 0 <= i < |g.nodes|
      ensures r[i].kind == g.nodes[i].kind && Linked(r[i], |r|)
      ensures r[i].kind != PersistentVolumeClaim ==> r[i].parent == g.nodes[i].parent
    {
      assert Linked(g.nodes[i], |g.nodes|);
      if i == pod {
        forall k | k in r[i].children ensures r[i].children[k] < |r| {
          if k in links {
            assert links[k] == claims[k];
          }
        }
      } else if i in links.Values {
        var k :| k in links && links[k] == i;
        assert claims[k] == i;
      }
    }
    Graph(r, g.lookup)
  }

  /** Adding a pod record (kubetree.go:425-471): like a workload, plus the claim links of
      its volumes, made before the pod is inserted under its candidates. */
  function PodStep(g: Graph, p: PodRecord): (r: Result<Graph, BuildError>)
    requires WellFormed(g)
    ensures r.Success? <==> CandidateParents(g, p.meta.namespace, p.meta.owners).Success?
    ensures r.Failure? ==> r.error == CandidateParents(g, p.meta.namespace, p.meta.owners).error
    ensures r.Success? ==> WellFormed(r.value)
    ensures r.Success? ==>
      var ps := CandidateParents(g, p.meta.namespace, p.meta.owners).value;
      var e := NewElement(p.meta.name, p.meta.labels, Pod, "po/" + p.meta.name, Some(ps[0]), p.meta.namespace, PodStatus(p));
      var linked := LinkClaims(g.nodes + [e], |g.nodes|, p.meta.namespace, p.volumes, g.lookup[PersistentVolumeClaim]);
      && r.value.nodes == AttachAll(linked, ps, "po/" + p.meta.name, |g.nodes|)
      && r.value.lookup == Register(g.lookup, Pod, ObjectKey(p.meta), |g.nodes|)
  {
    var ps :- CandidateParents(g, p.meta.namespace, p.meta.owners);
    var id := |g.nodes|;
    var title := "po/" + p.meta.name;
    var e := NewElement(p.meta.name, p.meta.labels, Pod, title, Some(ps[0]), p.meta.namespace, PodStatus(p));
    var g1 := Append(g, e, ObjectKey(p.meta));
    var g2 := WithClaims(g1, id, p.meta.namespace, p.volumes);
    Success(Attach(g2, ps, title, id))
  }

  /** A label the pod does not carry reads as "" (a Go map's zero value). */
  function LabelValue(labels: map<string, string>, l: string): string {
    if l in labels then labels[l] else ""
  }

  /** The selector keys whose value the pod's labels match. */
  function MatchingKeys(labels: map<string, string>, selector: map<string, string>): set<string> {
    set l | l in selector && LabelValue(labels, l) == selector[l]
  }

  /** A pod the selector loop looks at: it has labels and lives in the namespace. */
  predicate Eligible(e: Element, namespace: string) {
    |e.labels| > 0 && e.namespace == namespace
  }

  function Repeat(x: nat, n: nat): (r: seq<nat>)
    ensures |r| == n && forall i :: 0 <= i < n ==> r[i] == x
    decreases n
  {
    if n == 0 then [] else Repeat(x, n - 1) + [x]
  }

  /** `order` lists the keys of a map, each exactly once: one Go map iteration. */
  ghost predicate Enumerates(order: seq<string>, m: map<string, nat>) {
    multiset(order) == multiset(m.Keys)
  }

  /** `findPodsWithLabels` (kubetree.go:563-580) with the pod table visited in `order`:
      each eligible pod once per selector key its labels match. A key outside the table
      contributes nothing, so the function is total in `order`; when `order` enumerates
      the table it is exactly one pass of the source's loop. */
  function PodsWithLabels(g: Graph, order: seq<string>, namespace: string, selector: map<string, string>): (r: seq<nat>)
    requires WellFormed(g)
    ensures forall i :: 0 <= i < |r| ==> r[i] < |g.nodes| && g.nodes[r[i]].kind == Pod
    decreases |order|
  {
    if order == [] then []
    else
      var prev := PodsWithLabels(g, order[..|order| - 1], namespace, selector);
      var key := order[|order| - 1];
      if key !in g.lookup[Pod] then prev
      else
        var id := g.lookup[Pod][key];
        var e := g.nodes[id];
        prev + (if Eligible(e, namespace) then Repeat(id, |MatchingKeys(e.labels, selector)|) else [])
  }

  /** Visiting one more key of the pod table. */
  lemma PodsWithLabelsNext(g: Graph, order: seq<string>, key: string, namespace: string, selector: map<string, string>)
    requires WellFormed(g) && key in g.lookup[Pod]
    ensures var id := g.lookup[Pod][key];
      PodsWithLabels(g, order + [key], namespace, selector) ==
        PodsWithLabels(g, order, namespace, selector) +
        (if Eligible(g.nodes[id], namespace) then Repeat(id, |MatchingKeys(g.nodes[id].labels, selector)|) else [])
  {
    assert (order + [key])[..|order|] == order;
  }

  /** A pod is selected exactly when it is visited, eligible, and at least one selector
      key matches (any key, not all of them). */
  lemma {:induction false} PodsWithLabelsMembers(g: Graph, order: seq<string>, namespace: string, selector: map<string, string>, x: nat)
    requires WellFormed(g)
    ensures x in PodsWithLabels(g, order, namespace, selector) <==>
              exists i :: 0 <= i < |order| && order[i] in g.lookup[Pod] && g.lookup[Pod][order[i]] == x &&
                          Eligible(g.nodes[x], namespace) && MatchingKeys(g.nodes[x].labels, selector) != {}
    decreases |order|
  {
    if order != [] {
      var init := order[..|order| - 1];
      PodsWithLabelsMembers(g, init, namespace, selector, x);
      assert forall i :: 0 <= i < |init| ==> init[i] == order[i];
      var key := order[|order| - 1];
      if key in g.lookup[Pod] {
        var id := g.lookup[Pod][key];
        var n := |MatchingKeys(g.nodes[id].labels, selector)|;
        if x == id && Eligible(g.nodes[id], namespace) && n > 0 {
          assert Repeat(id, n)[0] == x;
        }
      }
    }
  }

  /** An empty selector selects nothing, and an empty pod table gives nothing to select. */
  lemma {:induction false} PodsWithLabelsEmpty(g: Graph, order: seq<string>, namespace: string, selector: map<string, string>)
    requires WellFormed(g)
    requires selector == map[] || g.lookup[Pod] == map[]
    ensures PodsWithLabels(g, order, namespace, selector) == []
    decreases |order|
  {
    if order != [] {
      PodsWithLabelsEmpty(g, order[..|order| - 1], namespace, selector);
      assert forall e :: MatchingKeys(e, map[]) == {};
    }
  }

  /** `controllerOf` (kubetree.go:582-587): climb parent links while the parent is a
      ReplicaSet, StatefulSet, DaemonSet or Deployment. */
  function Controller(g: Graph, e: nat): (c: nat)
    requires WellFormed(g) && e < |g.nodes|
    ensures c < |g.nodes|
    ensures c == e || IsController(g.nodes[c].kind)
    ensures g.nodes[c].parent.None? || !IsController(g.nodes[g.nodes[c].parent.value].kind)
    decreases if g.nodes[e].kind == PersistentVolumeClaim then |g.nodes| else e
  {
    assert Linked(g.nodes[e], |g.nodes|);
    match g.nodes[e].parent
    case None => e
    case Some(p) => if IsController(g.nodes[p].kind) then Controller(g, p) else e
  }

  /** The path p climbs parent links, and every element it climbs to is of a
      controller kind. */
  ghost predicate ControllerChain(g: Graph, p: seq<nat>)
    decreases |p|
  {
    && |p| > 0
    && p[0] < |g.nodes|
    && (|p| > 1 ==>
          && g.nodes[p[0]].parent == Some(p[1])
          && ControllerChain(g, p[1..])
          && IsController(g.nodes[p[1]].kind))
  }

  /** The controller of e is reached from e by climbing controller-kind parents; with
      the last ensures of Controller, it is the top of the longest such climb. */
  lemma {:induction false} ControllerIsAncestor(g: Graph, e: nat)
    requires WellFormed(g) && e < |g.nodes|
    ensures exists p :: ControllerChain(g, p) && p[0] == e && p[|p| - 1] == Controller(g, e)
    decreases if g.nodes[e].kind == PersistentVolumeClaim then |g.nodes| else e
  {
    assert Linked(g.nodes[e], |g.nodes|);
    var c := Controller(g, e);
    if g.nodes[e].parent.Some? && IsController(g.nodes[g.nodes[e].parent.value].kind) {
      var q := g.nodes[e].parent.value;
      assert c == Controller(g, q);
      ControllerIsAncestor(g, q);
      var p :| ControllerChain(g, p) && p[0] == q && p[|p| - 1] == Controller(g, q);
      ChainExtend(g, e, p);
    } else {
      assert c == e;
      assert ControllerChain(g, [e]);
    }
  }

  /** A chain from a controller-kind parent extends down to its child. */
  lemma ChainExtend(g: Graph, e: nat, p: seq<nat>)
    requires ControllerChain(g, p) && e < |g.nodes|
    requires g.nodes[e].parent == Some(p[0]) && IsController(g.nodes[p[0]].kind)
    ensures ControllerChain(g, [e] + p) && ([e] + p)[0] == e && ([e] + p)[|p|] == p[|p| - 1]
  {
    assert ([e] + p)[1..] == p;
  }

  /** Controller depends only on the kinds and the parent links of non-service elements. */
  lemma {:induction false} ControllerFrame(g: Graph, h: Graph, e: nat)
    requires WellFormed(g) && WellFormed(h) && |g.nodes| == |h.nodes| && e < |g.nodes|
    requires forall i :: 0 <= i < |g.nodes| ==> g.nodes[i].kind == h.nodes[i].kind
    requires forall i :: 0 <= i < |g.nodes| && g.nodes[i].kind != Service ==> g.nodes[i].parent == h.nodes[i].parent
    requires g.nodes[e].kind != Service
    ensures Controller(g, e) == Controller(h, e)
    decreases if g.nodes[e].kind == PersistentVolumeClaim then |g.nodes| else e
  {
    assert Linked(g.nodes[e], |g.nodes|);
    match g.nodes[e].parent
    case None =>
    case Some(p) =>
      if IsController(g.nodes[p].kind) {
        ControllerFrame(g, h, p);
      }
  }

  /** The controllers of the first n selected pods. */
  function Controllers(g: Graph, pods: seq<nat>, n: nat): set<nat>
    requires WellFormed(g) && n <= |pods| && forall i :: 0 <= i < |pods| ==> pods[i] < |g.nodes|
    decreases n
  {
    if n == 0 then {}
    else Controllers(g, pods, n - 1) + {Controller(g, pods[n - 1])}
  }

  /** The selected-pods loop of kubetree.go:195-198 over the first n selected pods: the
      service's parent becomes the controller of each pod in turn, and each controller
      gets the service as a child. */
  function LinkService(g: Graph, svc: nat, pods: seq<nat>, n: nat, key: string): (g': Graph)
    requires WellFormed(g) && svc == |g.nodes| - 1 && g.nodes[svc].kind == Service
    requires n <= |pods| && forall i :: 0 <= i < |pods| ==> pods[i] < |g.nodes| && g.nodes[pods[i]].kind == Pod
    ensures WellFormed(g') && g'.lookup == g.lookup && |g'.nodes| == |g.nodes|
    ensures forall i :: 0 <= i < |g.nodes| ==> g'.nodes[i].kind == g.nodes[i].kind
    ensures forall i :: 0 <= i < svc ==> g'.nodes[i].parent == g.nodes[i].parent
    ensures Unparented(g'.nodes[svc]) == Unparented(g.nodes[svc])
    decreases n
  {
    if n == 0 then g
    else HangUnderController(LinkService(g, svc, pods, n - 1, key), svc, pods[n - 1], key)
  }

  /** One selected pod: the service hangs under the pod's controller. */
  function HangUnderController(g: Graph, svc: nat, pod: nat, key: string): (g': Graph)
    requires WellFormed(g) && svc == |g.nodes| - 1 && g.nodes[svc].kind == Service
    requires pod < |g.nodes| && g.nodes[pod].kind == Pod
    ensures Controller(g, pod) < svc
    ensures g' == HangService(g, svc, Controller(g, pod), key)
  {
    HangService(g, svc, Controller(g, pod), key)
  }

  /** One selected pod: the service's parent becomes c and c gets the service as a child. */
  function HangService(g: Graph, svc: nat, c: nat, key: string): (g': Graph)
    requires WellFormed(g) && svc == |g.nodes| - 1 && c < svc
    ensures WellFormed(g') && g'.lookup == g.lookup && |g'.nodes| == |g.nodes|
    ensures g'.nodes[svc] == g.nodes[svc].(parent := Some(c))
    ensures g'.nodes[c] == AddChild(g.nodes[c], key, svc)
    ensures forall i :: 0 <= i < svc && i != c ==> g'.nodes[i] == g.nodes[i]
    ensures forall i :: 0 <= i < |g.nodes| ==> g'.nodes[i].kind == g.nodes[i].kind
    ensures forall i :: 0 <= i < svc ==> g'.nodes[i].parent == g.nodes[i].parent
  {
    var nodes := g.nodes[svc := g.nodes[svc].(parent := Some(c))];
    var g' := Graph(nodes[c := AddChild(nodes[c], key, svc)], g.lookup);
    assert forall i :: 0 <= i < |g.nodes| ==> Linked(g'.nodes[i], |g'.nodes|) by {
      forall i | 0 <= i < |g.nodes| ensures Linked(g'.nodes[i], |g'.nodes|) {
        assert Linked(g.nodes[i], |g.nodes|);
      }
    }
    g'
  }

  /** After m + 1 selected pods the service hangs under the controller of the last of
      them and is otherwise unchanged. */
  lemma LinkServiceParent(g: Graph, svc: nat, pods: seq<nat>, m: nat, key: string)
    requires WellFormed(g) && svc == |g.nodes| - 1 && g.nodes[svc].kind == Service
    requires m < |pods| && forall i :: 0 <= i < |pods| ==> pods[i] < |g.nodes| && g.nodes[pods[i]].kind == Pod
    ensures LinkService(g, svc, pods, m + 1, key).nodes[svc] == g.nodes[svc].(parent := Some(Controller(g, pods[m])))
  {
    LinkServiceLastParent(g, svc, pods, m, key);
    Reparented(LinkService(g, svc, pods, m + 1, key).nodes[svc], g.nodes[svc], Some(Controller(g, pods[m])));
  }

  /** Step m of the selected-pods loop sets the service's parent to the controller of pod m. */
  lemma LinkServiceLastParent(g: Graph, svc: nat, pods: seq<nat>, m: nat, key: string)
    requires WellFormed(g) && svc == |g.nodes| - 1 && g.nodes[svc].kind == Service
    requires m < |pods| && forall i :: 0 <= i < |pods| ==> pods[i] < |g.nodes| && g.nodes[pods[i]].kind == Pod
    ensures LinkService(g, svc, pods, m + 1, key).nodes[svc] ==
              LinkService(g, svc, pods, m, key).nodes[svc].(parent := Some(Controller(g, pods[m])))
  {
    LinkServiceStep(g, svc, pods, m, key);
  }

  /** An element is known from its parent link and everything else. */
  lemma Reparented(r: Element, e: Element, p: Option<nat>)
    requires Unparented(r) == Unparented(e) && r.parent == p
    ensures r == e.(parent := p)
  {
  }

  /** The element with its parent link dropped. */
  function Unparented(e: Element): Element
  {
    e.(parent := None)
  }

  /** After n selected pods every one of their controllers has the service as child
      `key`, and no other element changes. */
  lemma {:induction false} LinkServiceChildren(g: Graph, svc: nat, pods: seq<nat>, n: nat, key: string)
    requires WellFormed(g) && svc == |g.nodes| - 1 && g.nodes[svc].kind == Service
    requires n <= |pods| && forall i :: 0 <= i < |pods| ==> pods[i] < |g.nodes| && g.nodes[pods[i]].kind == Pod
    ensures var g' := LinkService(g, svc, pods, n, key);
      forall i :: 0 <= i < svc ==>
        g'.nodes[i] == if i in Controllers(g, pods, n) then AddChild(g.nodes[i], key, svc) else g.nodes[i]
    decreases n
  {
    if n > 0 {
      var m := n - 1;
      LinkServiceChildren(g, svc, pods, m, key);
      LinkServiceStep(g, svc, pods, m, key);
      HangServiceUpdate(g, LinkService(g, svc, pods, m, key), svc, Controller(g, pods[m]), key, Controllers(g, pods, m));
    }
  }

  lemma HangServiceUpdate(g: Graph, g1: Graph, svc: nat, c: nat, key: string, cs: set<nat>)
    requires WellFormed(g1) && svc == |g1.nodes| - 1 && c < svc && |g.nodes| == |g1.nodes|
    requires forall i :: 0 <= i < svc ==> g1.nodes[i] == if i in cs then AddChild(g.nodes[i], key, svc) else g.nodes[i]
    ensures var g' := HangService(g1, svc, c, key);
      forall i :: 0 <= i < svc ==> g'.nodes[i] == if i in cs + {c} then AddChild(g.nodes[i], key, svc) else g.nodes[i]
  {
    var e := g.nodes[c];
    assert e.children[key := svc][key := svc] == e.children[key := svc];
  }

  /** Step j of the selected-pods loop: the controller of pod j is the same in the
      graph reached so far as before the loop, and the step hangs the service under it. */
  lemma LinkServiceStep(g: Graph, svc: nat, pods: seq<nat>, j: nat, key: string)
    requires WellFormed(g) && svc == |g.nodes| - 1 && g.nodes[svc].kind == Service
    requires j < |pods| && forall i :: 0 <= i < |pods| ==> pods[i] < |g.nodes| && g.nodes[pods[i]].kind == Pod
    ensures var g1 := LinkService(g, svc, pods, j, key);
      && Controller(g1, pods[j]) == Controller(g, pods[j]) < svc
      && LinkService(g, svc, pods, j + 1, key) == HangService(g1, svc, Controller(g, pods[j]), key)
  {
    var g1 := LinkService(g, svc, pods, j, key);
    ControllerFrame(g1, g, pods[j]);
    assert LinkService(g, svc, pods, j + 1, key) == HangUnderController(g1, svc, pods[j], key);
  }

  /** The element a service record creates (kubetree.go:172-191). */
  function ServiceElement(s: ServiceRecord): (e: Element)
    ensures e.kind == Service && e.parent.None? && e.children == map[]
  {
    NewElement(s.meta.name, map[], Service, "svc/" + s.meta.name, None, s.meta.namespace,
               ServiceHealth(s.serviceType, s.ingress))
  }

  /** Adding a service record (kubetree.go:170-199) with the pod table visited in
      `order`: the service element is filed under `namespace/name` and then hung under
      the controller of every pod its selector picks. */
  function ServiceStep(g: Graph, s: ServiceRecord, order: seq<string>): (g': Graph)
    requires WellFormed(g)
    ensures WellFormed(g')
    ensures |g'.nodes| == |g.nodes| + 1
    ensures g'.lookup == Register(g.lookup, Service, ObjectKey(s.meta), |g.nodes|)
    ensures order == [] ==> g'.nodes == g.nodes + [ServiceElement(s)]
  {
    var id := |g.nodes|;
    var g1 := Append(g, ServiceElement(s), ObjectKey(s.meta));
    var pods := PodsWithLabels(g1, order, s.meta.namespace, s.selector);
    LinkService(g1, id, pods, |pods|, "svc/" + s.meta.name)
  }
}
