/** The text `printTree` writes (kubetree.go:509-539), as a function of the graph and
    of the trace of its recursive calls. Go visits a children map in no fixed order and
    `sort.Sort` is not stable, so the order among siblings of one kind is not a
    function of the graph; a `Visit` records the order one run chose, and `Conforms`
    says which traces a run can produce. */
module Text {
  import opened Base
  import opened Kinds
  import opened Forest

  /** One printTree call: the element printed, the child keys in the order their
      elements were printed, and the calls made for them. */
  datatype Visit = Visit(id: nat, keys: seq<string>, kids: seq<Visit>)

  /** One element's line (kubetree.go:523-528); colouring is the identity. */
  function Line(e: Element, indent: string): string {
    indent + e.title + (if |e.stateDesc| > 0 then " -- " + e.stateDesc else "") + "\n"
  }

  function Concat(ss: seq<string>): string
    decreases |ss|
  {
    if ss == [] then "" else Concat(ss[..|ss| - 1]) + ss[|ss| - 1]
  }

  /** The text of one call: the element's line, then each child's text two spaces
      further in, in the visit's order. */
  function Render(g: Graph, v: Visit, indent: string): string
    decreases v
  {
    (if v.id < |g.nodes| then Line(g.nodes[v.id], indent) else "") +
    Concat(seq(|v.kids|, i requires 0 <= i < |v.kids| => Render(g, v.kids[i], indent + "  ")))
  }

  /** A trace printTree can produce with `depth` frames left: every child key of the
      element is visited exactly once, in an order sorted by ElementSort.Less (services
      first, then ascending kind name), and each child's own call conforms with one
      frame less. */
  ghost predicate Conforms(g: Graph, v: Visit, depth: nat)
    decreases v
  {
    && depth > 0
    && v.id < |g.nodes|
    && |v.keys| == |v.kids|
    && Enumerates(v.keys, g.nodes[v.id].children)
    && (forall i :: 0 <= i < |v.kids| ==>
          v.keys[i] in g.nodes[v.id].children && v.kids[i].id == g.nodes[v.id].children[v.keys[i]])
    && (forall i :: 0 <= i < |v.kids| ==> v.kids[i].id < |g.nodes|)
    && (forall i, j :: 0 <= i < j < |v.kids| ==> KindLE(g.nodes[v.kids[i].id].kind, g.nodes[v.kids[j].id].kind))
    && (forall i :: 0 <= i < |v.kids| ==> Conforms(g, v.kids[i], depth - 1))
  }

  /** Printing `id` with `depth` frames left runs out of frames: the recursion of the
      source does not end on a cycle of children links. */
  ghost predicate Deep(g: Graph, id: nat, depth: nat)
    requires id < |g.nodes|
    decreases depth
  {
    depth == 0 ||
    exists k :: k in g.nodes[id].children && g.nodes[id].children[k] < |g.nodes| &&
                Deep(g, g.nodes[id].children[k], depth - 1)
  }

  /** A call whose parts conform is a conforming trace. */
  lemma ConformsParts(g: Graph, id: nat, keys: seq<string>, kids: seq<Visit>, depth: nat)
    requires depth > 0 && id < |g.nodes| && |keys| == |kids|
    requires Enumerates(keys, g.nodes[id].children)
    requires forall i :: 0 <= i < |kids| ==> keys[i] in g.nodes[id].children && kids[i].id == g.nodes[id].children[keys[i]]
    requires forall i :: 0 <= i < |kids| ==> kids[i].id < |g.nodes|
    requires forall i, j :: 0 <= i < j < |kids| ==> KindLE(g.nodes[kids[i].id].kind, g.nodes[kids[j].id].kind)
    requires forall i :: 0 <= i < |kids| ==> Conforms(g, kids[i], depth - 1)
    ensures Conforms(g, Visit(id, keys, kids), depth)
  {
  }

  /** The text of a call is its line followed by the texts of its children's calls. */
  lemma RenderParts(g: Graph, v: Visit, indent: string, texts: seq<string>)
    requires v.id < |g.nodes| && |texts| == |v.kids|
    requires forall i :: 0 <= i < |texts| ==> texts[i] == Render(g, v.kids[i], indent + "  ")
    ensures Render(g, v, indent) == Line(g.nodes[v.id], indent) + Concat(texts)
  {
    assert texts == seq(|v.kids|, i requires 0 <= i < |v.kids| => Render(g, v.kids[i], indent + "  "));
  }

  /** A child that runs out of frames makes its parent run out of them. */
  lemma DeepChild(g: Graph, id: nat, depth: nat, k: string)
    requires id < |g.nodes| && depth > 0
    requires k in g.nodes[id].children && g.nodes[id].children[k] < |g.nodes|
    requires Deep(g, g.nodes[id].children[k], depth - 1)
    ensures Deep(g, id, depth)
  {
  }

  /** A call with frames left does not run out of them when no child's call does;
      `keys` lists the children once each. */
  lemma NotDeep(g: Graph, id: nat, depth: nat, keys: seq<string>)
    requires id < |g.nodes| && depth > 0 && Enumerates(keys, g.nodes[id].children)
    requires forall i :: 0 <= i < |keys| ==> keys[i] in g.nodes[id].children
    requires forall i :: 0 <= i < |keys| ==> g.nodes[id].children[keys[i]] < |g.nodes|
    requires forall i :: 0 <= i < |keys| ==> !Deep(g, g.nodes[id].children[keys[i]], depth - 1)
    ensures !Deep(g, id, depth)
  {
    var children := g.nodes[id].children;
    forall k | k in children && children[k] < |g.nodes|
      ensures !Deep(g, children[k], depth - 1)
    {
      assert k in multiset(children.Keys);
      assert k in multiset(keys);
      var i :| 0 <= i < |keys| && keys[i] == k;
    }
  }

  /** The loop over an element's sorted children has printed the first |kids| of
      `keys`: each call had `depth` frames, conforms, wrote `texts[j]`, and did not
      run out of frames. */
  ghost predicate PrintedSoFar(g: Graph, id: nat, keys: seq<string>, kids: seq<Visit>, texts: seq<string>, inner: string, depth: nat)
    requires id < |g.nodes|
  {
    && |kids| == |texts| <= |keys|
    && forall j :: 0 <= j < |kids| ==>
         && keys[j] in g.nodes[id].children
         && kids[j].id == g.nodes[id].children[keys[j]] < |g.nodes|
         && Conforms(g, kids[j], depth)
         && texts[j] == Render(g, kids[j], inner)
         && !Deep(g, kids[j].id, depth)
  }

  /** One more child printed. */
  lemma PrintedNext(g: Graph, id: nat, keys: seq<string>, kids: seq<Visit>, texts: seq<string>, inner: string, depth: nat,
                    kid: Visit, text: string)
    requires id < |g.nodes| && PrintedSoFar(g, id, keys, kids, texts, inner, depth) && |kids| < |keys|
    requires keys[|kids|] in g.nodes[id].children && kid.id == g.nodes[id].children[keys[|kids|]] < |g.nodes|
    requires Conforms(g, kid, depth) && text == Render(g, kid, inner) && !Deep(g, kid.id, depth)
    ensures PrintedSoFar(g, id, keys, kids + [kid], texts + [text], inner, depth)
  {
    var kids', texts' := kids + [kid], texts + [text];
    forall j | 0 <= j < |kids'|
      ensures keys[j] in g.nodes[id].children && kids'[j].id == g.nodes[id].children[keys[j]] < |g.nodes|
      ensures Conforms(g, kids'[j], depth) && texts'[j] == Render(g, kids'[j], inner) && !Deep(g, kids'[j].id, depth)
    {
      if j < |kids| {
        assert kids'[j] == kids[j] && texts'[j] == texts[j];
      }
    }
  }

  /** The call for child i of the loop, when it does not run out of frames, extends
      what has been printed. */
  lemma PrintedChild(g: Graph, id: nat, keys: seq<string>, kids: seq<Visit>, texts: seq<string>, inner: string, depth: nat,
                     ok: bool, kid: Visit, text: string)
    requires id < |g.nodes| && PrintedSoFar(g, id, keys, kids, texts, inner, depth) && |kids| < |keys|
    requires keys[|kids|] in g.nodes[id].children
    requires ok ==> kid.id == g.nodes[id].children[keys[|kids|]] < |g.nodes| && !Deep(g, kid.id, depth)
    requires ok ==> Conforms(g, kid, depth) && text == Render(g, kid, inner)
    ensures ok ==> PrintedSoFar(g, id, keys, kids + [kid], texts + [text], inner, depth)
  {
    if ok {
      PrintedNext(g, id, keys, kids, texts, inner, depth, kid, text);
    }
  }

  /** The call for a child, when it runs out of frames, makes its parent run out. */
  lemma FailedChild(g: Graph, id: nat, depth: nat, k: string, ok: bool)
    requires id < |g.nodes| && depth > 0
    requires k in g.nodes[id].children && g.nodes[id].children[k] < |g.nodes|
    requires !ok ==> Deep(g, g.nodes[id].children[k], depth - 1)
    ensures !ok ==> Deep(g, id, depth)
  {
    if !ok {
      DeepChild(g, id, depth, k);
    }
  }

  /** What the call for child i of the loop reports, in terms of the loop. */
  lemma ChildOutcome(g: Graph, id: nat, keys: seq<string>, kids: seq<Visit>, texts: seq<string>, inner: string, depth: nat,
                     ok: bool, kid: Visit, text: string)
    requires id < |g.nodes| && depth > 0 && PrintedSoFar(g, id, keys, kids, texts, inner, depth - 1) && |kids| < |keys|
    requires keys[|kids|] in g.nodes[id].children && g.nodes[id].children[keys[|kids|]] < |g.nodes|
    requires ok <==> !Deep(g, g.nodes[id].children[keys[|kids|]], depth - 1)
    requires ok ==> kid.id == g.nodes[id].children[keys[|kids|]] && Conforms(g, kid, depth - 1) && text == Render(g, kid, inner)
    ensures !ok ==> Deep(g, id, depth)
    ensures ok ==> PrintedSoFar(g, id, keys, kids + [kid], texts + [text], inner, depth - 1)
  {
    FailedChild(g, id, depth, keys[|kids|], ok);
    PrintedChild(g, id, keys, kids, texts, inner, depth - 1, ok, kid, text);
  }

  /** When every child has been printed, in an order sorted by kind that lists each
      child once, the call conforms, does not run out of frames, and its text is its
      line followed by the children's texts. */
  lemma PrintedAll(g: Graph, id: nat, keys: seq<string>, kids: seq<Visit>, texts: seq<string>, indent: string, depth: nat)
    requires id < |g.nodes| && depth > 0 && |kids| == |keys|
    requires PrintedSoFar(g, id, keys, kids, texts, indent + "  ", depth - 1)
    requires Enumerates(keys, g.nodes[id].children)
    requires forall i, j :: 0 <= i < j < |keys| ==>
               KindLE(g.nodes[g.nodes[id].children[keys[i]]].kind, g.nodes[g.nodes[id].children[keys[j]]].kind)
    ensures Conforms(g, Visit(id, keys, kids), depth) && !Deep(g, id, depth)
    ensures Render(g, Visit(id, keys, kids), indent) == Line(g.nodes[id], indent) + Concat(texts)
  {
    NotDeep(g, id, depth, keys);
    ConformsParts(g, id, keys, kids, depth);
    RenderParts(g, Visit(id, keys, kids), indent, texts);
  }

  /** Appending one text to a concatenation. */
  lemma ConcatNext(ss: seq<string>, s: string)
    ensures Concat(ss + [s]) == Concat(ss) + s
  {
    assert (ss + [s])[..|ss|] == ss;
  }

  /** An element without children is printed as its line alone, whatever the depth. */
  lemma LeafRender(g: Graph, v: Visit, indent: string, depth: nat)
    requires Conforms(g, v, depth) && g.nodes[v.id].children == map[]
    ensures v.keys == [] && v.kids == []
    ensures Render(g, v, indent) == Line(g.nodes[v.id], indent)
  {
    EnumeratesEmpty(v.keys);
    assert Concat([]) == "";
  }

  lemma EnumeratesEmpty(keys: seq<string>)
    requires Enumerates(keys, map[])
    ensures keys == []
  {
    assert multiset(keys) == multiset{};
  }

  /** In a conforming trace a service child never follows a child of another kind. */
  lemma ServicesFirst(g: Graph, v: Visit, depth: nat, i: nat, j: nat)
    requires Conforms(g, v, depth) && i < j < |v.kids|
    requires g.nodes[v.kids[j].id].kind == Service
    ensures g.nodes[v.kids[i].id].kind == Service
  {
    assert KindLE(g.nodes[v.kids[i].id].kind, g.nodes[v.kids[j].id].kind);
  }

  /** Number of newline characters. */
  function Newlines(s: string): nat
    decreases |s|
  {
    if s == [] then 0 else Newlines(s[..|s| - 1]) + (if s[|s| - 1] == '\n' then 1 else 0)
  }

  lemma {:induction false} NewlinesAppend(a: string, b: string)
    ensures Newlines(a + b) == Newlines(a) + Newlines(b)
    decreases |b|
  {
    if b != [] {
      var b' := b[..|b| - 1];
      assert (a + b)[..|a + b| - 1] == a + b';
      NewlinesAppend(a, b');
    } else {
      assert a + b == a;
    }
  }

  predicate NoNewline(s: string) {
    forall i :: 0 <= i < |s| ==> s[i] != '\n'
  }

  lemma {:induction false} NoNewlines(s: string)
    requires NoNewline(s)
    ensures Newlines(s) == 0
    decreases |s|
  {
    if s != [] {
      NoNewlines(s[..|s| - 1]);
    }
  }

  /** A line holds exactly one newline when neither indent, title nor description has one. */
  lemma LineNewlines(e: Element, indent: string)
    requires NoNewline(indent) && NoNewline(e.title) && NoNewline(e.stateDesc)
    ensures Newlines(Line(e, indent)) == 1
  {
    var desc := if |e.stateDesc| > 0 then " -- " + e.stateDesc else "";
    assert NoNewline(" -- ");
    NoNewlines(indent);
    NoNewlines(e.title);
    NoNewlines(e.stateDesc);
    NoNewlines(" -- ");
    NewlinesAppend(indent, e.title);
    if |e.stateDesc| > 0 {
      NewlinesAppend(" -- ", e.stateDesc);
    }
    NewlinesAppend(indent + e.title, desc);
    NewlinesAppend(indent + e.title + desc, "\n");
    assert Newlines("\n") == Newlines("") + 1;
  }

  function Sum(ns: seq<nat>): nat
    decreases |ns|
  {
    if ns == [] then 0 else Sum(ns[..|ns| - 1]) + ns[|ns| - 1]
  }

  /** Number of calls in a trace. */
  function Size(v: Visit): nat
    decreases v
  {
    1 + Sum(seq(|v.kids|, i requires 0 <= i < |v.kids| => Size(v.kids[i])))
  }

  lemma {:induction false} ConcatNewlines(ss: seq<string>, ns: seq<nat>)
    requires |ss| == |ns| && forall i :: 0 <= i < |ss| ==> Newlines(ss[i]) == ns[i]
    ensures Newlines(Concat(ss)) == Sum(ns)
    decreases |ss|
  {
    if ss != [] {
      var n := |ss| - 1;
      ConcatNewlines(ss[..n], ns[..n]);
      NewlinesAppend(Concat(ss[..n]), ss[n]);
    }
  }

  /** Elements whose titles and descriptions fit on one line. */
  ghost predicate SingleLines(g: Graph) {
    forall i :: 0 <= i < |g.nodes| ==> NoNewline(g.nodes[i].title) && NoNewline(g.nodes[i].stateDesc)
  }

  lemma NoNewlineIndent(indent: string)
    requires NoNewline(indent)
    ensures NoNewline(indent + "  ")
  {
    assert forall i :: |indent| <= i < |indent| + 2 ==> (indent + "  ")[i] == ' ';
  }

  /** Each call of a conforming trace writes exactly one line. */
  lemma {:induction false} RenderLines(g: Graph, v: Visit, indent: string, depth: nat)
    requires Conforms(g, v, depth) && SingleLines(g) && NoNewline(indent)
    ensures Newlines(Render(g, v, indent)) == Size(v)
    decreases v
  {
    var inner := indent + "  ";
    NoNewlineIndent(indent);
    var rs := seq(|v.kids|, i requires 0 <= i < |v.kids| => Render(g, v.kids[i], inner));
    var ns := seq(|v.kids|, i requires 0 <= i < |v.kids| => Size(v.kids[i]));
    forall i | 0 <= i < |v.kids|
      ensures Newlines(rs[i]) == ns[i]
    {
      RenderLines(g, v.kids[i], inner, depth - 1);
    }
    ConcatNewlines(rs, ns);
    LineNewlines(g.nodes[v.id], indent);
    NewlinesAppend(Line(g.nodes[v.id], indent), Concat(rs));
  }
}
