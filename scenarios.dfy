/** Whole runs on small clusters: the graph the build produces and the text printed
    for it. */
module Scenarios {
  import opened Base
  import opened Kinds
  import opened Records
  import opened Health
  import opened Forest
  import opened Build
  import opened Text

  /** Listings with the given namespaces and nothing else. */
  function NamespacesOnly(ns: seq<NamespaceRecord>): Inputs {
    Inputs(Success(ns), Success([]), Success([]), Success([]), Success([]),
           Success([]), Success([]), Success([]), Success([]))
  }

  /** When only namespaces are listed, the build adds them to the root and nothing else. */
  lemma NamespacesOnlyBuild(ns: seq<NamespaceRecord>)
    ensures BuildGraph(NamespacesOnly(ns)) == Success(AddNamespaces(Initial(), ns))
  {
    var inputs := NamespacesOnly(ns);
    var g := AddNamespaces(Initial(), ns);
    assert AfterNamespaces(inputs) == Success(g);
    assert AfterDeployments(inputs) == Success(g);
    assert AfterReplicaSets(inputs) == Success(g);
    assert AfterStatefulSets(inputs) == Success(g);
    assert AfterDaemonSets(inputs) == Success(g);
    assert AfterClaims(inputs) == Success(g);
    assert AfterVolumes(inputs) == Success(g);
    assert NoVisits(0) == [];
    assert AfterServices(inputs) == Success(g);
  }

  /** An empty cluster builds to the root alone. */
  lemma EmptyClusterBuild()
    ensures BuildGraph(NamespacesOnly([])) == Success(Initial())
  {
    NamespacesOnlyBuild([]);
  }

  /** An empty cluster prints the root's title alone. */
  lemma EmptyClusterText(v: Visit, depth: nat)
    requires Conforms(Initial(), v, depth)
    ensures Render(Initial(), v, "") == "kubernetes\n"
  {
    LeafRender(Initial(), v, "", depth);
  }

  /** The graph of a cluster holding the one namespace `kube-system`. */
  function KubeSystem(): Graph {
    AddNamespaces(Initial(), [NamespaceRecord("kube-system")])
  }

  /** Listing the one namespace `kube-system` builds that graph. */
  lemma KubeSystemBuild()
    ensures BuildGraph(NamespacesOnly([NamespaceRecord("kube-system")])) == Success(KubeSystem())
  {
    NamespacesOnlyBuild([NamespaceRecord("kube-system")]);
  }

  lemma KubeSystemNodes()
    ensures |KubeSystem().nodes| == 2
    ensures KubeSystem().nodes[Root].title == "kubernetes" && KubeSystem().nodes[Root].stateDesc == ""
    ensures KubeSystem().nodes[Root].children == map["kube-system" := 1]
    ensures KubeSystem().nodes[1].title == "ns/kube-system" && KubeSystem().nodes[1].stateDesc == ""
    ensures KubeSystem().nodes[1].children == map[]
  {
    var ns := NamespaceRecord("kube-system");
    assert [ns][..0] == [];
    assert KubeSystem() == NamespaceStep(Initial(), ns);
    NewNamespaceNode(Initial(), ns);
    NamespaceTitle();
  }

  /** The element a namespace step adds. */
  lemma NewNamespaceNode(g: Graph, n: NamespaceRecord)
    requires WellFormed(g)
    ensures var e := NamespaceStep(g, n).nodes[|g.nodes|];
      e.title == "ns/" + n.name && e.stateDesc == "" && e.children == map[]
  {
  }

  lemma NamespaceTitle()
    ensures "ns/" + NamespaceRecord("kube-system").name == "ns/kube-system"
  {
  }

  /** An element whose one child has no children prints as its line and the child's
      line two spaces further in. */
  lemma OneLeafText(g: Graph, v: Visit, depth: nat, indent: string, key: string, c: nat)
    requires Conforms(g, v, depth)
    requires g.nodes[v.id].children == map[key := c] && c < |g.nodes| && g.nodes[c].children == map[]
    ensures Render(g, v, indent) == Line(g.nodes[v.id], indent) + Line(g.nodes[c], indent + "  ")
  {
    assert multiset(v.keys) == multiset{key};
    assert |v.keys| == 1;
    assert v.keys[0] in g.nodes[v.id].children;
    LeafRender(g, v.kids[0], indent + "  ", depth - 1);
    var rs := seq(|v.kids|, i requires 0 <= i < |v.kids| => Render(g, v.kids[i], indent + "  "));
    assert rs == [Line(g.nodes[c], indent + "  ")];
    assert Concat(rs) == Concat([]) + rs[0];
  }

  /** A root whose one child is the namespace `kube-system` prints as two lines. */
  lemma KubeSystemShapeText(g: Graph, v: Visit, depth: nat)
    requires Conforms(g, v, depth) && v.id == Root && |g.nodes| == 2
    requires g.nodes[Root].title == "kubernetes" && g.nodes[Root].stateDesc == ""
    requires g.nodes[Root].children == map["kube-system" := 1]
    requires g.nodes[1].title == "ns/kube-system" && g.nodes[1].stateDesc == ""
    requires g.nodes[1].children == map[]
    ensures Render(g, v, "") == "kubernetes\n  ns/kube-system\n"
  {
    OneLeafText(g, v, depth, "", "kube-system", 1);
    PlainLine(g.nodes[Root], "");
    PlainLine(g.nodes[1], "  ");
    KubeSystemLines();
  }

  /** One namespace prints as the root line and the namespace two spaces in. */
  lemma KubeSystemText(v: Visit, depth: nat)
    requires Conforms(KubeSystem(), v, depth) && v.id == Root
    ensures Render(KubeSystem(), v, "") == "kubernetes\n  ns/kube-system\n"
  {
    KubeSystemNodes();
    KubeSystemShapeText(KubeSystem(), v, depth);
  }

  lemma KubeSystemLines()
    ensures ("" + "kubernetes" + "\n") + ("  " + "ns/kube-system" + "\n") == "kubernetes\n  ns/kube-system\n"
  {
  }

  lemma PlainLine(e: Element, indent: string)
    requires e.stateDesc == ""
    ensures Line(e, indent) == indent + e.title + "\n"
  {
  }
}
