/** The builder itself (kubetree.go:19-47, 117-163, 170-587): an object holding the
    element arena and the lookup index, which its methods update in place. Each method
    is proved to leave the state the corresponding function of Forest and Build
    describes; a Go map iteration is a choice among the map's keys, and the order one
    run chose is returned as a ghost value. */
module Tree {
  import opened Base
  import opened Kinds
  import opened Records
  import opened Health
  import opened Forest
  import opened Build
  import opened Text

  /** `ElementSort` with `sort.Sort` (kubetree.go:491-507): the keys of one element's
      children, ordered by the kinds of the elements they name. Swaps are made
      exactly where Less holds, as in the insertion sort Go runs on short slices. */
  method SortByKind(a: array<string>, kindOf: map<string, Kind>)
    requires forall j :: 0 <= j < a.Length ==> a[j] in kindOf
    modifies a
    ensures multiset(a[..]) == multiset(old(a[..]))
    ensures forall j :: 0 <= j < a.Length ==> a[j] in kindOf
    ensures forall p, q :: 0 <= p < q < a.Length ==> KindLE(kindOf[a[p]], kindOf[a[q]])
  {
    assert Keyed(kindOf, a[..]);
    var i := 0;
    while i < a.Length
      invariant 0 <= i <= a.Length
      invariant multiset(a[..]) == multiset(old(a[..]))
      invariant Keyed(kindOf, a[..]) && SortedUpTo(kindOf, a[..], i)
    {
      ghost var _ := InsertAt(a, kindOf, i);
      i := i + 1;
    }
    assert forall j :: 0 <= j < a.Length ==> a[j] == a[..][j];
  }

  /** Every key in r has a kind. */
  ghost predicate Keyed(kindOf: map<string, Kind>, r: seq<string>) {
    forall j :: 0 <= j < |r| ==> r[j] in kindOf
  }

  /** The first n keys of r are ordered by kind. */
  ghost predicate SortedUpTo(kindOf: map<string, Kind>, r: seq<string>, n: nat)
    requires n <= |r| && Keyed(kindOf, r)
  {
    forall p, q :: 0 <= p < q < n ==> KindLE(kindOf[r[p]], kindOf[r[q]])
  }

  /** One pass of the insertion sort: a[i] moves left past every element it is Less
      than, leaving a[..i+1] in order. The ghost result is where it stops: a[i] is
      Less than each element it passed, and not Less than the one it stops behind. */
  method InsertAt(a: array<string>, kindOf: map<string, Kind>, i: nat) returns (ghost pos: nat)
    requires i < a.Length && Keyed(kindOf, a[..]) && SortedUpTo(kindOf, a[..], i)
    modifies a
    ensures pos <= i && a[..] == Moved(old(a[..]), i, pos)
    ensures PassedOver(kindOf, old(a[..]), i, pos)
    ensures pos > 0 ==> !Less(kindOf[old(a[i])], kindOf[old(a[pos - 1])])
    ensures multiset(a[..]) == multiset(old(a[..]))
    ensures Keyed(kindOf, a[..]) && SortedUpTo(kindOf, a[..], i + 1)
  {
    ghost var s := a[..];
    MovedNowhere(s, i);
    var j := i;
    while j > 0 && Less(kindOf[a[j]], kindOf[a[j - 1]])
      invariant 0 <= j <= i && a[..] == Moved(s, i, j)
      invariant Keyed(kindOf, s) && PassedOver(kindOf, s, i, j)
    {
      MoveLeftOnce(a, kindOf, s, i, j);
      PassedOneMore(kindOf, s, i, j);
      j := j - 1;
    }
    pos := j;
    Inserted(s, kindOf, i, pos);
  }

  /** One step of the pass: the moved element, Less than its left neighbour s[j-1],
      changes places with it. */
  method MoveLeftOnce(a: array<string>, kindOf: map<string, Kind>, ghost s: seq<string>, i: nat, j: nat)
    requires 0 < j <= i < |s| == a.Length && a[..] == Moved(s, i, j) && Keyed(kindOf, s)
    requires Less(kindOf[a[j]], kindOf[a[j - 1]])
    modifies a
    ensures a[..] == Moved(s, i, j - 1) && Less(kindOf[s[i]], kindOf[s[j - 1]])
  {
    assert a[j] == a[..][j] && a[j - 1] == a[..][j - 1];
    MovedEnds(s, i, j);
    MovedStep(s, i, j);
    SwapLeft(a, j);
  }

  /** s[i] is Less than each of s[j..i]. */
  ghost predicate PassedOver(kindOf: map<string, Kind>, s: seq<string>, i: nat, j: nat)
    requires j <= i < |s| && Keyed(kindOf, s)
  {
    forall k :: j <= k < i ==> Less(kindOf[s[i]], kindOf[s[k]])
  }

  lemma PassedOneMore(kindOf: map<string, Kind>, s: seq<string>, i: nat, j: nat)
    requires 0 < j <= i < |s| && Keyed(kindOf, s)
    requires PassedOver(kindOf, s, i, j) && Less(kindOf[s[i]], kindOf[s[j - 1]])
    ensures PassedOver(kindOf, s, i, j - 1)
  {
  }

  /** Swap a[j] with its left neighbour: exactly those two cells change. */
  method SwapLeft(a: array<string>, j: nat)
    requires 0 < j < a.Length
    modifies a
    ensures a[..] == old(a[..])[j := old(a[j - 1])][j - 1 := old(a[j])]
    ensures multiset(a[..]) == multiset(old(a[..]))
  {
    a[j], a[j - 1] := a[j - 1], a[j];
  }

  /** s with s[i] taken out and put back at position pos <= i. */
  function Moved(s: seq<string>, i: nat, pos: nat): (r: seq<string>)
    requires pos <= i < |s|
    ensures |r| == |s|
  {
    seq(|s|, k requires 0 <= k < |s| => if k < pos || i < k then s[k] else if k == pos then s[i] else s[k - 1])
  }

  lemma MovedNowhere(s: seq<string>, i: nat)
    requires i < |s|
    ensures Moved(s, i, i) == s
  {
  }

  /** Where the moved element stands, and its left neighbour. */
  lemma MovedEnds(s: seq<string>, i: nat, j: nat)
    requires 0 < j <= i < |s|
    ensures Moved(s, i, j)[j] == s[i] && Moved(s, i, j)[j - 1] == s[j - 1]
  {
  }

  /** Swapping the moved element with its left neighbour moves it one place further. */
  lemma MovedStep(s: seq<string>, i: nat, j: nat)
    requires 0 < j <= i < |s|
    ensures var r := Moved(s, i, j); r[j := r[j - 1]][j - 1 := r[j]] == Moved(s, i, j - 1)
  {
  }

  /** Moving s[i] to pos behind the last element it is not Less than keeps the keys,
      and leaves r[..i+1] in order when s[..i] was. */
  lemma Inserted(s: seq<string>, kindOf: map<string, Kind>, i: nat, pos: nat)
    requires pos <= i < |s| && Keyed(kindOf, s) && SortedUpTo(kindOf, s, i)
    requires PassedOver(kindOf, s, i, pos)
    requires pos > 0 ==> !Less(kindOf[s[i]], kindOf[s[pos - 1]])
    ensures var r := Moved(s, i, pos);
      multiset(r) == multiset(s) && Keyed(kindOf, r) && SortedUpTo(kindOf, r, i + 1)
  {
    var r := Moved(s, i, pos);
    MovedMultiset(s, i, pos);
    assert Keyed(kindOf, r) by {
      forall j | 0 <= j < |r| ensures r[j] in kindOf {
        MovedAt(s, i, pos, j);
      }
    }
    forall p, q | 0 <= p < q <= i ensures KindLE(kindOf[r[p]], kindOf[r[q]]) {
      InsertedPair(s, kindOf, i, pos, p, q);
    }
  }

  /** Where each element of s lands. */
  lemma MovedAt(s: seq<string>, i: nat, pos: nat, k: nat)
    requires pos <= i < |s| && k < |s|
    ensures Moved(s, i, pos)[k] == if k < pos || i < k then s[k] else if k == pos then s[i] else s[k - 1]
  {
  }

  /** Any two of the first i + 1 keys after the move are in order. */
  lemma InsertedPair(s: seq<string>, kindOf: map<string, Kind>, i: nat, pos: nat, p: nat, q: nat)
    requires pos <= i < |s| && Keyed(kindOf, s) && SortedUpTo(kindOf, s, i)
    requires PassedOver(kindOf, s, i, pos)
    requires pos > 0 ==> !Less(kindOf[s[i]], kindOf[s[pos - 1]])
    requires p < q <= i
    ensures Moved(s, i, pos)[p] in kindOf && Moved(s, i, pos)[q] in kindOf
    ensures KindLE(kindOf[Moved(s, i, pos)[p]], kindOf[Moved(s, i, pos)[q]])
  {
    MovedAt(s, i, pos, p);
    MovedAt(s, i, pos, q);
    if p == pos {
      LessDecidesKindLE(kindOf[s[i]], kindOf[s[q - 1]]);
    } else if q == pos {
      LessDecidesKindLE(kindOf[s[i]], kindOf[s[pos - 1]]);
      if p < pos - 1 {
        KindLETransitive(kindOf[s[p]], kindOf[s[pos - 1]], kindOf[s[i]]);
      }
    }
  }

  lemma MovedMultiset(s: seq<string>, i: nat, pos: nat)
    requires pos <= i < |s|
    ensures multiset(Moved(s, i, pos)) == multiset(s)
  {
    assert Moved(s, i, pos) == s[..pos] + [s[i]] + s[pos..i] + s[i + 1..];
    assert s == s[..pos] + s[pos..i] + [s[i]] + s[i + 1..];
  }

  /** Visiting one more selector key adds it to the matched keys exactly when the
      labels carry its value. */
  lemma MatchStep(labels: map<string, string>, selector: map<string, string>, rest: set<string>, l: string)
    requires l in rest && rest <= selector.Keys
    ensures var before := MatchingKeys(labels, selector) - rest;
      && l !in before
      && MatchingKeys(labels, selector) - (rest - {l}) ==
           if LabelValue(labels, l) == selector[l] then before + {l} else before
  {
  }

  /** Every recorded visit order lists the keys of `table` once each. */
  ghost predicate EnumerateAll(orders: seq<seq<string>>, table: map<string, nat>) {
    forall i :: 0 <= i < |orders| ==> Enumerates(orders[i], table)
  }

  /** Visiting one more key of a map iteration. */
  lemma VisitNext(order: seq<string>, keys: set<string>, rest: set<string>, key: string)
    requires rest <= keys && key in rest && multiset(order) == multiset(keys - rest)
    ensures multiset(order + [key]) == multiset(keys - (rest - {key}))
  {
    assert keys - (rest - {key}) == (keys - rest) + {key};
  }

  lemma EnumerateAllNext(orders: seq<seq<string>>, order: seq<string>, table: map<string, nat>)
    requires EnumerateAll(orders, table) && Enumerates(order, table)
    ensures EnumerateAll(orders + [order], table)
  {
    forall i | 0 <= i < |orders| + 1
      ensures Enumerates((orders + [order])[i], table)
    {
      if i < |orders| {
        assert (orders + [order])[i] == orders[i];
      }
    }
  }

  /** Visit orders of an empty table are all empty. */
  lemma EmptyVisits(orders: seq<seq<string>>)
    requires EnumerateAll(orders, map[])
    ensures orders == NoVisits(|orders|)
  {
    forall i | 0 <= i < |orders|
      ensures orders[i] == []
    {
      EnumeratesEmpty(orders[i]);
    }
  }

  class Kubetree {
    /** The elements; `nodes[Root]` is `k.root`. */
    var nodes: seq<Element>
    /** `k.lookup`: kind -> key -> element. */
    var lookup: Index

    function View(): Graph
      reads this
    {
      Graph(nodes, lookup)
    }

    ghost predicate Valid()
      reads this
    {
      WellFormed(View())
    }

    /** `New` followed by the creation of the root (kubetree.go:100-115, 121-122). */
    constructor ()
      ensures View() == Initial() && Valid()
    {
      nodes := Initial().nodes;
      lookup := Initial().lookup;
    }

    /** `parents` (kubetree.go:541-561). */
    method Parents(m: Meta) returns (r: Result<seq<nat>, BuildError>)
      requires Valid()
      ensures r == CandidateParents(View(), m.namespace, m.owners)
    {
      if m.namespace == "" {
        return Success([Root]);
      }
      if m.owners != [] {
        var p := ResolvedOwners(m.namespace, m.owners);
        if |p| > 0 {
          return Success(p);
        }
      }
      if m.namespace in lookup[Namespace] {
        r := Success([lookup[Namespace][m.namespace]]);
      } else {
        r := Failure(MissingNamespace(m.namespace));
      }
    }

    /** The owner loop of `parents` (kubetree.go:548-555): the owners whose kind has a
        table holding `namespace/name`, in reference order. */
    method ResolvedOwners(namespace: string, owners: seq<OwnerRef>) returns (p: seq<nat>)
      ensures p == ResolveOwners(View(), namespace, owners)
    {
      p := [];
      for i := 0 to |owners|
        invariant p == ResolveOwners(View(), namespace, owners[..i])
      {
        assert owners[..i + 1][..i] == owners[..i];
        var o := owners[i];
        var kind := KindOf(o.kind);
        if kind.Some? && kind.value in lookup {
          var key := namespace + "/" + o.name;
          if key in lookup[kind.value] {
            p := p + [lookup[kind.value][key]];
          }
        }
      }
      TakeAll(owners);
    }

    /** `for _, p := range parents { p.children[key] = e }`. */
    method InsertChild(ps: seq<nat>, key: string, c: nat)
      requires forall i :: 0 <= i < |ps| ==> ps[i] < |nodes|
      modifies this
      ensures lookup == old(lookup)
      ensures nodes == AttachAll(old(nodes), ps, key, c)
    {
      for i := 0 to |ps|
        invariant lookup == old(lookup)
        invariant nodes == AttachAll(old(nodes), ps[..i], key, c)
      {
        assert ps[..i + 1][..i] == ps[..i];
        nodes := nodes[ps[i] := AddChild(nodes[ps[i]], key, c)];
      }
      TakeAll(ps);
    }

    /** `controllerOf` (kubetree.go:582-587). */
    method ControllerOf(e: nat) returns (c: nat)
      requires Valid() && e < |nodes|
      ensures c == Controller(View(), e)
    {
      c := e;
      while nodes[c].parent.Some? && IsController(nodes[nodes[c].parent.value].kind)
        invariant c < |nodes|
        invariant Controller(View(), c) == Controller(View(), e)
        decreases if nodes[c].kind == PersistentVolumeClaim then |nodes| else c
      {
        assert Linked(nodes[c], |nodes|);
        c := nodes[c].parent.value;
      }
    }

    /** `findPodsWithLabels` (kubetree.go:563-580): one pass over the pod table in the
        order returned, each eligible pod entered once per selector key it matches. */
    method FindPodsWithLabels(namespace: string, selector: map<string, string>) returns (r: seq<nat>, ghost order: seq<string>)
      requires Valid()
      ensures Enumerates(order, lookup[Pod])
      ensures r == PodsWithLabels(View(), order, namespace, selector)
    {
      r, order := [], [];
      var rest := lookup[Pod].Keys;
      while rest != {}
        invariant rest <= lookup[Pod].Keys
        invariant multiset(order) == multiset(lookup[Pod].Keys - rest)
        invariant r == PodsWithLabels(View(), order, namespace, selector)
        decreases |rest|
      {
        var key :| key in rest;
        var id := lookup[Pod][key];
        var e := nodes[id];
        var found: seq<nat> := [];
        if |e.labels| > 0 && e.namespace == namespace {
          found := Matches(id, e.labels, selector);
        }
        PodsWithLabelsNext(View(), order, key, namespace, selector);
        VisitNext(order, lookup[Pod].Keys, rest, key);
        r := r + found;
        order := order + [key];
        rest := rest - {key};
      }
    }

    /** The selector loop for one pod: the pod once for every key whose value its
        labels carry. */
    static method Matches(id: nat, labels: map<string, string>, selector: map<string, string>) returns (r: seq<nat>)
      ensures r == Repeat(id, |MatchingKeys(labels, selector)|)
    {
      r := [];
      var rest := selector.Keys;
      ghost var matched: set<string> := {};
      while rest != {}
        invariant rest <= selector.Keys
        invariant matched == MatchingKeys(labels, selector) - rest
        invariant r == Repeat(id, |matched|)
        decreases |rest|
      {
        var l :| l in rest;
        MatchStep(labels, selector, rest, l);
        if (if l in labels then labels[l] else "") == selector[l] {
          r := r + [id];
          matched := matched + {l};
        }
        rest := rest - {l};
      }
      assert MatchingKeys(labels, selector) - {} == MatchingKeys(labels, selector);
    }

    /** `addNamespaces` (kubetree.go:410-416) over the listed namespaces. */
    method AddNamespaces(ns: seq<NamespaceRecord>)
      requires Valid()
      modifies this
      ensures Valid() && View() == Build.AddNamespaces(old(View()), ns)
    {
      ghost var g := View();
      for i := 0 to |ns|
        invariant Valid()
        invariant View() == Build.AddNamespaces(g, ns[..i])
      {
        AddNamespacesNext(g, ns, i);
        AddNamespace(ns[i]);
      }
      TakeAll(ns);
    }

    /** One namespace: a stateless element under the root, keyed by its bare name. */
    method AddNamespace(n: NamespaceRecord)
      requires Valid()
      modifies this
      ensures Valid() && View() == NamespaceStep(old(View()), n)
    {
      ghost var g' := NamespaceStep(View(), n);
      var id := |nodes|;
      nodes := nodes + [NewElement(n.name, map[], Namespace, "ns/" + n.name, Some(Root), "", Health(Unset, ""))];
      nodes := nodes[Root := AddChild(nodes[Root], n.name, id)];
      lookup := Register(lookup, Namespace, n.name, id);
      assert View() == g';
    }

    /** The loop shared by `addDeployments`, `addReplicaSets`, `addStatefulSets` and
        `addDaemonSets` (kubetree.go:270-297, 307-326, 336-358, 368-390), the health of
        each record already computed. A missing namespace element ends the stage with
        the error the source panics on; the state it leaves then is not described. */
    method AddWorkloads(kind: Kind, prefix: string, ws: seq<Workload>) returns (err: Option<BuildError>)
      requires Valid() && IsController(kind)
      modifies this
      ensures err.None? <==> Build.AddWorkloads(old(View()), kind, prefix, ws).Success?
      ensures err.None? ==> Valid() && View() == Build.AddWorkloads(old(View()), kind, prefix, ws).value
      ensures err.Some? ==> err.value == Build.AddWorkloads(old(View()), kind, prefix, ws).error
    {
      ghost var g := View();
      for i := 0 to |ws|
        invariant Valid()
        invariant Build.AddWorkloads(g, kind, prefix, ws[..i]) == Success(View())
      {
        err := AddWorkloadAt(kind, prefix, ws, i, g);
        if err.Some? {
          return;
        }
      }
      TakeAll(ws);
      return None;
    }

    /** Record i of a workload stage, the first i having succeeded from g. */
    method AddWorkloadAt(kind: Kind, prefix: string, ws: seq<Workload>, i: nat, ghost g: Graph) returns (err: Option<BuildError>)
      requires Valid() && IsController(kind) && WellFormed(g) && i < |ws|
      requires Build.AddWorkloads(g, kind, prefix, ws[..i]) == Success(View())
      modifies this
      ensures err.None? ==> Valid() && Build.AddWorkloads(g, kind, prefix, ws[..i + 1]) == Success(View())
      ensures err.Some? ==> Build.AddWorkloads(g, kind, prefix, ws) == Failure(err.value)
    {
      AddWorkloadsNext(g, kind, prefix, ws, i);
      err := AddWorkload(kind, prefix, ws[i]);
      if err.Some? {
        AddWorkloadsAbort(g, kind, prefix, ws, i + 1);
      }
    }

    /** One workload record: filed under `namespace/name`, then entered in the
        children of every candidate parent. */
    method AddWorkload(kind: Kind, prefix: string, w: Workload) returns (err: Option<BuildError>)
      requires Valid() && IsController(kind)
      modifies this
      ensures err.None? <==> WorkloadStep(old(View()), kind, prefix, w.meta, w.health).Success?
      ensures err.None? ==> Valid() && View() == WorkloadStep(old(View()), kind, prefix, w.meta, w.health).value
      ensures err.Some? ==> err.value == WorkloadStep(old(View()), kind, prefix, w.meta, w.health).error
    {
      var parents := Parents(w.meta);
      if parents.Failure? {
        return Some(parents.error);
      }
      var ps := parents.value;
      var id := |nodes|;
      var title := prefix + w.meta.name;
      nodes := nodes + [NewElement(w.meta.name, w.meta.labels, kind, title, Some(ps[0]), w.meta.namespace, w.health)];
      lookup := Register(lookup, kind, ObjectKey(w.meta), id);
      InsertChild(ps, title, id);
      return None;
    }

    /** `addPersistentVolumeClaims` (kubetree.go:244-260). */
    method AddClaims(cs: seq<ClaimRecord>)
      requires Valid()
      modifies this
      ensures Valid() && View() == Build.AddClaims(old(View()), cs)
    {
      ghost var g := View();
      for i := 0 to |cs|
        invariant Valid()
        invariant View() == Build.AddClaims(g, cs[..i])
      {
        AddClaimsNext(g, cs, i);
        AddClaim(cs[i]);
      }
      TakeAll(cs);
    }

    /** One claim: an element without a parent, filed under `namespace/name`. */
    method AddClaim(c: ClaimRecord)
      requires Valid()
      modifies this
      ensures Valid() && View() == ClaimStep(old(View()), c)
    {
      ghost var g' := ClaimStep(View(), c);
      var id := |nodes|;
      nodes := nodes + [NewElement(c.meta.name, map[], PersistentVolumeClaim, "pvc/" + c.meta.name,
                                   None, c.meta.namespace, ClaimHealth(c.phase))];
      lookup := Register(lookup, PersistentVolumeClaim, ObjectKey(c.meta), id);
      assert View() == g';
    }

    /** `addPersistentVolumes` (kubetree.go:209-234): a bound volume without a claim
        reference ends the stage with the error the source panics on. */
    method AddVolumes(vs: seq<VolumeRecord>) returns (err: Option<BuildError>)
      requires Valid()
      modifies this
      ensures err.None? <==> Build.AddVolumes(old(View()), vs).Success?
      ensures err.None? ==> Valid() && View() == Build.AddVolumes(old(View()), vs).value
      ensures err.Some? ==> err.value == Build.AddVolumes(old(View()), vs).error
    {
      ghost var g := View();
      for i := 0 to |vs|
        invariant Valid()
        invariant Build.AddVolumes(g, vs[..i]) == Success(View())
      {
        AddVolumesNext(g, vs, i);
        var e := AddVolume(vs[i]);
        if e.Some? {
          AddVolumesAbort(g, vs, i + 1);
          return e;
        }
      }
      TakeAll(vs);
      return None;
    }
    /** One volume record: the element is filed, then hung under its bound claim. */
    method AddVolume(v: VolumeRecord) returns (err: Option<BuildError>)
      requires Valid()
      modifies this
      ensures err.None? <==> VolumeStep(old(View()), v).Success?
      ensures err.None? ==> Valid() && View() == VolumeStep(old(View()), v).value
      ensures err.Some? ==> err.value == VolumeStep(old(View()), v).error
    {
      ghost var g := View();
      var id := |nodes|;
      var e := NewElement(v.name, map[], PersistentVolume, "pv/" + v.name, None, "", VolumeHealth(v.phase));
      nodes := nodes + [e];
      lookup := Register(lookup, PersistentVolume, v.name, id);
      if v.phase == VolumeBound {
        if v.claimRef.None? {
          return Some(MissingClaimRef(v.name));
        }
        var ref := v.claimRef.value;
        var key := ref.namespace + "/" + ref.name;
        if ref.kind == "PersistentVolumeClaim" && key in lookup[PersistentVolumeClaim] {
          var c := lookup[PersistentVolumeClaim][key];
          assert c == BoundClaim(g, v).value.value;
          nodes := nodes[id := nodes[id].(parent := Some(c))];
          nodes := nodes[c := AddChild(nodes[c], "pv/" + v.name, id)];
          assert nodes == (g.nodes + [e.(parent := Some(c))])[c := AddChild(g.nodes[c], "pv/" + v.name, id)];
        }
      }
      return None;
    }

    /** `addServices` (kubetree.go:170-199). `orders[i]` is the order in which the i-th
        record's selector loop visited the pod table, which the stage leaves as it was. */
    method AddServices(ss: seq<ServiceRecord>) returns (ghost orders: seq<seq<string>>)
      requires Valid()
      modifies this
      ensures Valid() && |orders| == |ss|
      ensures EnumerateAll(orders, old(lookup)[Pod])
      ensures View() == Build.AddServices(old(View()), ss, orders)
    {
      ghost var g := View();
      orders := [];
      var i := 0;
      while i < |ss|
        invariant i <= |ss| && Valid() && |orders| == i
        invariant EnumerateAll(orders, g.lookup[Pod])
        invariant View() == Build.AddServices(g, ss[..i], orders)
      {
        orders := AddServiceAt(ss, i, orders, g);
        i := i + 1;
      }
      TakeAll(ss);
    }

    /** Record i of the service stage, the first i having been added from g. */
    method AddServiceAt(ss: seq<ServiceRecord>, i: nat, ghost orders: seq<seq<string>>, ghost g: Graph) returns (ghost orders': seq<seq<string>>)
      requires Valid() && WellFormed(g) && i < |ss| && |orders| == i
      requires lookup[Pod] == g.lookup[Pod] && EnumerateAll(orders, g.lookup[Pod])
      requires View() == Build.AddServices(g, ss[..i], orders)
      modifies this
      ensures Valid() && lookup[Pod] == g.lookup[Pod] && |orders'| == i + 1 && EnumerateAll(orders', g.lookup[Pod])
      ensures View() == Build.AddServices(g, ss[..i + 1], orders')
    {
      ghost var order := AddService(ss[i]);
      AddServicesNext(g, ss, orders, order, i);
      EnumerateAllNext(orders, order, g.lookup[Pod]);
      orders' := orders + [order];
    }

    /** One service record: the element with its load-balancer state, filed under
        `namespace/name`, then hung under the controller of every selected pod. */
    method AddService(s: ServiceRecord) returns (ghost order: seq<string>)
      requires Valid()
      modifies this
      ensures Valid() && lookup[Pod] == old(lookup)[Pod]
      ensures Enumerates(order, old(lookup)[Pod])
      ensures View() == ServiceStep(old(View()), s, order)
    {
      ghost var g := View();
      var id := |nodes|;
      var h := Health(OK, "");
      if s.serviceType == LoadBalancer {
        var desc, ok := IngressAddress(s.ingress);
        h := if ok then Health(OK, desc) else Health(Warning, "pending");
      }
      nodes := nodes + [NewElement(s.meta.name, map[], Service, "svc/" + s.meta.name, None, s.meta.namespace, h)];
      lookup := Register(lookup, Service, ObjectKey(s.meta), id);
      assert View() == Append(g, ServiceElement(s), ObjectKey(s.meta));
      var pods;
      pods, order := FindPodsWithLabels(s.meta.namespace, s.selector);
      LinkPods(id, pods, "svc/" + s.meta.name);
    }

    /** The selected-pods loop of kubetree.go:195-198. */
    method LinkPods(svc: nat, pods: seq<nat>, key: string)
      requires Valid() && svc == |nodes| - 1 && nodes[svc].kind == Service
      requires forall i :: 0 <= i < |pods| ==> pods[i] < |nodes| && nodes[pods[i]].kind == Pod
      modifies this
      ensures Valid() && View() == LinkService(old(View()), svc, pods, |pods|, key)
    {
      ghost var g := View();
      for j := 0 to |pods|
        invariant Valid() && View() == LinkService(g, svc, pods, j, key)
      {
        LinkPodAt(svc, pods, j, key, g);
      }
    }

    /** Pod j of the selected-pods loop, the first j having been linked from g. */
    method LinkPodAt(svc: nat, pods: seq<nat>, j: nat, key: string, ghost g: Graph)
      requires WellFormed(g) && svc == |g.nodes| - 1 && g.nodes[svc].kind == Service
      requires j < |pods| && forall i :: 0 <= i < |pods| ==> pods[i] < |g.nodes| && g.nodes[pods[i]].kind == Pod
      requires Valid() && View() == LinkService(g, svc, pods, j, key)
      modifies this
      ensures Valid() && View() == LinkService(g, svc, pods, j + 1, key)
    {
      LinkServiceStep(g, svc, pods, j, key);
      ghost var prev := View();
      var c := ControllerOf(pods[j]);
      nodes := nodes[svc := nodes[svc].(parent := Some(c))];
      nodes := nodes[c := AddChild(nodes[c], key, svc)];
      assert View() == HangService(prev, svc, c, key);
    }

    /** `addPods` (kubetree.go:425-472): a missing namespace element ends the stage with
        the error the source panics on. */
    method AddPods(ps: seq<PodRecord>) returns (err: Option<BuildError>)
      requires Valid()
      modifies this
      ensures err.None? <==> Build.AddPods(old(View()), ps).Success?
      ensures err.None? ==> Valid() && View() == Build.AddPods(old(View()), ps).value
      ensures err.Some? ==> err.value == Build.AddPods(old(View()), ps).error
    {
      ghost var g := View();
      for i := 0 to |ps|
        invariant Valid()
        invariant Build.AddPods(g, ps[..i]) == Success(View())
      {
        err := AddPodAt(ps, i, g);
        if err.Some? {
          return;
        }
      }
      TakeAll(ps);
      return None;
    }

    /** Record i of the pod stage, the first i having succeeded from g. */
    method AddPodAt(ps: seq<PodRecord>, i: nat, ghost g: Graph) returns (err: Option<BuildError>)
      requires Valid() && WellFormed(g) && i < |ps|
      requires Build.AddPods(g, ps[..i]) == Success(View())
      modifies this
      ensures err.None? ==> Valid() && Build.AddPods(g, ps[..i + 1]) == Success(View())
      ensures err.Some? ==> Build.AddPods(g, ps) == Failure(err.value)
    {
      AddPodsNext(g, ps, i);
      err := AddPod(ps[i]);
      if err.Some? {
        AddPodsAbort(g, ps, i + 1);
      }
    }

    /** One pod record: counted containers, claim links of its volumes, then filed and
        entered in the children of every candidate parent. */
    method AddPod(p: PodRecord) returns (err: Option<BuildError>)
      requires Valid()
      modifies this
      ensures err.None? <==> PodStep(old(View()), p).Success?
      ensures err.None? ==> Valid() && View() == PodStep(old(View()), p).value
      ensures err.Some? ==> err.value == PodStep(old(View()), p).error
    {
      var parents := Parents(p.meta);
      if parents.Failure? {
        return Some(parents.error);
      }
      var ps := parents.value;
      var id := |nodes|;
      var title := "po/" + p.meta.name;
      var ready, running, total := CountContainers(p.containers);
      var h := PodHealth(p.phase, ready, running, total);
      nodes := nodes + [NewElement(p.meta.name, p.meta.labels, Pod, title, Some(ps[0]), p.meta.namespace, h)];
      LinkVolumes(id, p.meta.namespace, p.volumes);
      lookup := Register(lookup, Pod, ObjectKey(p.meta), id);
      InsertChild(ps, title, id);
      return None;
    }

    /** The volume loop of kubetree.go:458-466 for the pod element `pod`. */
    method LinkVolumes(pod: nat, namespace: string, vols: seq<Volume>)
      requires PersistentVolumeClaim in lookup && pod < |nodes|
      requires forall k :: k in lookup[PersistentVolumeClaim] ==>
                 lookup[PersistentVolumeClaim][k] < |nodes| && lookup[PersistentVolumeClaim][k] != pod
      modifies this
      ensures lookup == old(lookup)
      ensures nodes == LinkClaims(old(nodes), pod, namespace, vols, lookup[PersistentVolumeClaim])
    {
      for j := 0 to |vols|
        invariant lookup == old(lookup) && |nodes| == |old(nodes)|
        invariant nodes == LinkClaims(old(nodes), pod, namespace, vols[..j], lookup[PersistentVolumeClaim])
      {
        assert vols[..j + 1][..j] == vols[..j];
        match vols[j] {
          case ClaimVolume(c) =>
            var key := namespace + "/" + c;
            if key in lookup[PersistentVolumeClaim] {
              var pvc := lookup[PersistentVolumeClaim][key];
              nodes := nodes[pvc := nodes[pvc].(parent := Some(pod))];
              nodes := nodes[pod := AddChild(nodes[pod], key, pvc)];
            }
          case OtherVolume =>
        }
      }
      TakeAll(vols);
    }

    /** `for _, c := range e.children` (kubetree.go:531-534): the keys of element id's
        children, each once, in the order this run of the map iteration chose. */
    method ChildKeys(id: nat) returns (keys: seq<string>)
      requires id < |nodes|
      ensures Enumerates(keys, nodes[id].children)
    {
      var children := nodes[id].children;
      keys := [];
      var rest := children.Keys;
      while rest != {}
        invariant rest <= children.Keys
        invariant multiset(keys) == multiset(children.Keys - rest)
        decreases |rest|
      {
        var key :| key in rest;
        VisitNext(keys, children.Keys, rest, key);
        keys := keys + [key];
        rest := rest - {key};
      }
    }

    /** `sort.Sort(ElementSort(cc))` (kubetree.go:535): the child keys of element id,
        ordered by the kinds of the elements they name. */
    method SortedChildren(id: nat) returns (keys: seq<string>)
      requires Valid() && id < |nodes|
      ensures Enumerates(keys, nodes[id].children)
      ensures forall i :: 0 <= i < |keys| ==> keys[i] in nodes[id].children
      ensures forall i, j :: 0 <= i < j < |keys| ==>
                KindLE(nodes[nodes[id].children[keys[i]]].kind, nodes[nodes[id].children[keys[j]]].kind)
    {
      var children := nodes[id].children;
      assert Linked(nodes[id], |nodes|);
      var kindOf := map k | k in children :: nodes[children[k]].kind;
      var found := ChildKeys(id);
      var a := new string[|found|](i requires 0 <= i < |found| => found[i]);
      assert a[..] == found;
      forall j | 0 <= j < a.Length
        ensures a[j] in kindOf
      {
        assert a[j] in multiset(found);
      }
      SortByKind(a, kindOf);
      keys := a[..];
      forall i | 0 <= i < |keys|
        ensures keys[i] in children
      {
        assert keys[i] in kindOf;
      }
    }

    /** `printTree` (kubetree.go:509-539) with `depth` frames of stack left: the
        element's line, then each child's text two spaces further in, children sorted
        by kind. A run whose recursion outgrows the frames reports it; otherwise the
        trace of the run conforms and the text is its rendering. */
    method PrintTree(id: nat, indent: string, depth: nat) returns (text: string, ok: bool, ghost v: Visit)
      requires Valid() && id < |nodes|
      ensures ok <==> !Deep(View(), id, depth)
      ensures ok ==> v.id == id && Conforms(View(), v, depth) && text == Render(View(), v, indent)
      decreases depth, 2
    {
      v := Visit(id, [], []);
      if depth == 0 {
        return "", false, v;
      }
      assert Linked(nodes[id], |nodes|);
      var keys := SortedChildren(id);
      var rest;
      ghost var kids, texts;
      rest, ok, kids, texts := PrintChildren(id, keys, indent + "  ", depth);
      text := Line(nodes[id], indent) + rest;
      if ok {
        PrintedAll(View(), id, keys, kids, texts, indent, depth);
        v := Visit(id, keys, kids);
      }
    }

    /** The loop over the sorted children of element id (kubetree.go:536-538): each
        child printed `inner` deep with one frame less, until one runs out of frames. */
    method PrintChildren(id: nat, keys: seq<string>, inner: string, depth: nat)
      returns (text: string, ok: bool, ghost kids: seq<Visit>, ghost texts: seq<string>)
      requires Valid() && id < |nodes| && depth > 0
      requires forall i :: 0 <= i < |keys| ==> keys[i] in nodes[id].children && nodes[id].children[keys[i]] < |nodes|
      ensures !ok ==> Deep(View(), id, depth)
      ensures ok ==> |kids| == |keys| && text == Concat(texts)
      ensures ok ==> PrintedSoFar(View(), id, keys, kids, texts, inner, depth - 1)
      decreases depth, 1
    {
      kids, texts, text := [], [], "";
      var i := 0;
      while i < |keys|
        invariant i <= |keys| && |kids| == i
        invariant text == Concat(texts)
        invariant PrintedSoFar(View(), id, keys, kids, texts, inner, depth - 1)
      {
        text, ok, kids, texts := PrintChild(id, keys, i, inner, depth, text, kids, texts);
        if !ok {
          return;
        }
        i := i + 1;
      }
      ok := true;
    }

    /** Child i of the loop, the first i having been printed. */
    method PrintChild(id: nat, keys: seq<string>, i: nat, inner: string, depth: nat,
                      text: string, ghost kids: seq<Visit>, ghost texts: seq<string>)
      returns (text': string, ok: bool, ghost kids': seq<Visit>, ghost texts': seq<string>)
      requires Valid() && id < |nodes| && depth > 0 && i < |keys| && |kids| == i
      requires keys[i] in nodes[id].children && nodes[id].children[keys[i]] < |nodes|
      requires text == Concat(texts) && PrintedSoFar(View(), id, keys, kids, texts, inner, depth - 1)
      ensures !ok ==> Deep(View(), id, depth)
      ensures ok ==> |kids'| == i + 1 && text' == Concat(texts')
      ensures ok ==> PrintedSoFar(View(), id, keys, kids', texts', inner, depth - 1)
      decreases depth, 0
    {
      var t;
      ghost var vc;
      var c := nodes[id].children[keys[i]];
      t, ok, vc := PrintTree(c, inner, depth - 1);
      ChildOutcome(View(), id, keys, kids, texts, inner, depth, ok, vc, t);
      ConcatNext(texts, t);
      text', kids', texts' := text + t, kids + [vc], texts + [t];
    }

    /** The namespace listing and `addNamespaces` (kubetree.go:396-416), on a builder
        fresh from `New`. */
    method NamespaceStage(inputs: Inputs) returns (err: Option<BuildError>)
      requires View() == Initial()
      modifies this
      ensures err.None? <==> AfterNamespaces(inputs).Success?
      ensures err.Some? ==> err.value == AfterNamespaces(inputs).error
      ensures err.None? ==> Valid() && View() == AfterNamespaces(inputs).value
    {
      match inputs.namespaces {
        case Failure(why) =>
          assert AfterNamespaces(inputs) == Failure(FetchFailed(Namespace, why));
          err := Some(FetchFailed(Namespace, why));
        case Success(rs) =>
          assert AfterNamespaces(inputs) == Success(Build.AddNamespaces(View(), rs));
          AddNamespaces(rs);
          err := None;
      }
    }

    /** The Deployment listing and `addDeployments` (kubetree.go:270-297). */
    method DeploymentStage(inputs: Inputs) returns (err: Option<BuildError>)
      requires Valid() && AfterNamespaces(inputs) == Success(View())
      modifies this
      ensures err.None? <==> AfterDeployments(inputs).Success?
      ensures err.Some? ==> err.value == AfterDeployments(inputs).error
      ensures err.None? ==> Valid() && View() == AfterDeployments(inputs).value
    {
      match inputs.deployments {
        case Failure(why) =>
          err := Some(FetchFailed(Deployment, why));
        case Success(rs) =>
          err := AddWorkloads(Deployment, "deploy/", Deployments(rs));
      }
    }

    /** The ReplicaSet listing and `addReplicaSets` (kubetree.go:307-326). */
    method ReplicaSetStage(inputs: Inputs) returns (err: Option<BuildError>)
      requires Valid() && AfterDeployments(inputs) == Success(View())
      modifies this
      ensures err.None? <==> AfterReplicaSets(inputs).Success?
      ensures err.Some? ==> err.value == AfterReplicaSets(inputs).error
      ensures err.None? ==> Valid() && View() == AfterReplicaSets(inputs).value
    {
      match inputs.replicaSets {
        case Failure(why) =>
          err := Some(FetchFailed(ReplicaSet, why));
        case Success(rs) =>
          err := AddWorkloads(ReplicaSet, "rs/", ReplicaSets(rs));
      }
    }

    /** The StatefulSet listing and `addStatefulSets` (kubetree.go:336-358). */
    method StatefulSetStage(inputs: Inputs) returns (err: Option<BuildError>)
      requires Valid() && AfterReplicaSets(inputs) == Success(View())
      modifies this
      ensures err.None? <==> AfterStatefulSets(inputs).Success?
      ensures err.Some? ==> err.value == AfterStatefulSets(inputs).error
      ensures err.None? ==> Valid() && View() == AfterStatefulSets(inputs).value
    {
      match inputs.statefulSets {
        case Failure(why) =>
          err := Some(FetchFailed(StatefulSet, why));
        case Success(rs) =>
          err := AddWorkloads(StatefulSet, "statefulsets/", StatefulSets(rs));
      }
    }

    /** The DaemonSet listing and `addDaemonSets` (kubetree.go:368-390). */
    method DaemonSetStage(inputs: Inputs) returns (err: Option<BuildError>)
      requires Valid() && AfterStatefulSets(inputs) == Success(View())
      modifies this
      ensures err.None? <==> AfterDaemonSets(inputs).Success?
      ensures err.Some? ==> err.value == AfterDaemonSets(inputs).error
      ensures err.None? ==> Valid() && View() == AfterDaemonSets(inputs).value
    {
      match inputs.daemonSets {
        case Failure(why) =>
          err := Some(FetchFailed(DaemonSet, why));
        case Success(rs) =>
          err := AddWorkloads(DaemonSet, "ds/", DaemonSets(rs));
      }
    }

    /** The claim listing and `addPersistentVolumeClaims` (kubetree.go:244-260). */
    method ClaimStage(inputs: Inputs) returns (err: Option<BuildError>)
      requires Valid() && AfterDaemonSets(inputs) == Success(View())
      modifies this
      ensures err.None? <==> AfterClaims(inputs).Success?
      ensures err.Some? ==> err.value == AfterClaims(inputs).error
      ensures err.None? ==> Valid() && View() == AfterClaims(inputs).value
    {
      match inputs.claims {
        case Failure(why) =>
          err := Some(FetchFailed(PersistentVolumeClaim, why));
        case Success(rs) =>
          AddClaims(rs);
          err := None;
      }
    }

    /** The PersistentVolume listing and `addPersistentVolumes` (kubetree.go:209-234). */
    method VolumeStage(inputs: Inputs) returns (err: Option<BuildError>)
      requires Valid() && AfterClaims(inputs) == Success(View())
      modifies this
      ensures err.None? <==> AfterVolumes(inputs).Success?
      ensures err.Some? ==> err.value == AfterVolumes(inputs).error
      ensures err.None? ==> Valid() && View() == AfterVolumes(inputs).value
    {
      match inputs.volumes {
        case Failure(why) =>
          err := Some(FetchFailed(PersistentVolume, why));
        case Success(rs) =>
          err := AddVolumes(rs);
      }
    }

    /** The Service listing and `addServices` (kubetree.go:170-199): the pod table is still empty, so every
        selector loop visits nothing. */
    method ServiceStage(inputs: Inputs) returns (err: Option<BuildError>)
      requires Valid() && AfterVolumes(inputs) == Success(View())
      modifies this
      ensures err.None? <==> AfterServices(inputs).Success?
      ensures err.Some? ==> err.value == AfterServices(inputs).error
      ensures err.None? ==> Valid() && View() == AfterServices(inputs).value
    {
      match inputs.services {
        case Failure(why) =>
          err := Some(FetchFailed(Service, why));
        case Success(rs) =>
          ghost var orders := AddServices(rs);
          EmptyVisits(orders);
          err := None;
      }
    }

    /** The Pod listing and `addPods` (kubetree.go:425-472). */
    method PodStage(inputs: Inputs) returns (err: Option<BuildError>)
      requires Valid() && AfterServices(inputs) == Success(View())
      modifies this
      ensures err.None? <==> BuildGraph(inputs).Success?
      ensures err.Some? ==> err.value == BuildGraph(inputs).error
      ensures err.None? ==> Valid() && View() == BuildGraph(inputs).value
    {
      match inputs.pods {
        case Failure(why) =>
          err := Some(FetchFailed(Pod, why));
        case Success(rs) =>
          err := AddPods(rs);
      }
    }

    /** The stages of `kubetree` (kubetree.go:121-156) in the source's order, on a
        builder fresh from `New`; the first error ends the build. */
    method BuildTree(inputs: Inputs) returns (err: Option<BuildError>)
      requires View() == Initial()
      modifies this
      ensures err.None? <==> BuildGraph(inputs).Success?
      ensures err.Some? ==> err.value == BuildGraph(inputs).error
      ensures err.None? ==> Valid() && View() == BuildGraph(inputs).value
    {
      err := NamespaceStage(inputs);
      if err.Some? { return; }
      err := DeploymentStage(inputs);
      if err.Some? { return; }
      err := ReplicaSetStage(inputs);
      if err.Some? { return; }
      err := StatefulSetStage(inputs);
      if err.Some? { return; }
      err := DaemonSetStage(inputs);
      if err.Some? { return; }
      err := ClaimStage(inputs);
      if err.Some? { return; }
      err := VolumeStage(inputs);
      if err.Some? { return; }
      err := ServiceStage(inputs);
      if err.Some? { return; }
      err := PodStage(inputs);
      if err.Some? { return; }
    }
  }

  /** `New` followed by `kubetree` (kubetree.go:100-163): the text printed for the
      cluster the listings describe. A failed listing or stage is the error the
      source panics with; `StackExhausted` is a printTree recursion deeper than
      `depth` frames, which the source only ends on a cycle of children links. */
  method Run(inputs: Inputs, depth: nat) returns (r: Result<string, BuildError>, ghost v: Visit)
    ensures BuildGraph(inputs).Failure? ==> r == Failure(BuildGraph(inputs).error)
    ensures BuildGraph(inputs).Success? ==>
              && (r.Success? <==> !Deep(BuildGraph(inputs).value, Root, depth))
              && (r.Failure? ==> r.error == StackExhausted)
    ensures BuildGraph(inputs).Success? && r.Success? ==>
              && v.id == Root && Conforms(BuildGraph(inputs).value, v, depth)
              && r.value == Render(BuildGraph(inputs).value, v, "")
  {
    v := Visit(Root, [], []);
    var k := new Kubetree();
    var err := k.BuildTree(inputs);
    if err.Some? {
      return Failure(err.value), v;
    }
    var text, ok;
    text, ok, v := k.PrintTree(Root, "", depth);
    r := if ok then Success(text) else Failure(StackExhausted);
  }
}
