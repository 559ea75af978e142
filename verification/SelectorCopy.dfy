/**
The generated deep copy of purpose selectors. For every acyclic graph the copy is a tree of new requirements that shares
nothing with the original or within itself, and that has the same unfolding, so that it matches the same purposes.
 */
module SelectorCopy {
  import opened Options
  import opened SelectorGraph
  import Selectors

  type Requirement = Selectors.Requirement

  /** The requirements that an unfolding visits. */
  ghost function Reach(g: Graph, r: Node, t: Requirement): set<Node>
    requires Unfolds(g, r, t)
    decreases t, 0
  {
    {r}
    + (if t.not.Some? then Reach(g, g[r].not, t.not.value) else {})
    + (if t.and.Items? then ReachAll(g, g[r].and.nodes, t.and.items) else {})
    + (if t.or.Items? then ReachAll(g, g[r].or.nodes, t.or.items) else {})
  }

  ghost function ReachAll(g: Graph, nodes: seq<Node>, items: seq<Requirement>): set<Node>
    requires UnfoldsAll(g, nodes, items)
    decreases items, 1
  {
    if items == [] then {} else Reach(g, nodes[0], items[0]) + ReachAll(g, nodes[1..], items[1..])
  }

  ghost predicate Part(g: Graph, h: Graph) { forall n :: n in g ==> n in h && h[n] == g[n] }

  lemma {:induction false} UnfoldsInLarger(g: Graph, h: Graph, r: Node, t: Requirement)
    requires Part(g, h) && Unfolds(g, r, t)
    ensures Unfolds(h, r, t) && Reach(h, r, t) == Reach(g, r, t)
    decreases t, 0
  {
    if t.not.Some? { UnfoldsInLarger(g, h, g[r].not, t.not.value); }
    if t.and.Items? { UnfoldsAllInLarger(g, h, g[r].and.nodes, t.and.items); }
    if t.or.Items? { UnfoldsAllInLarger(g, h, g[r].or.nodes, t.or.items); }
  }

  lemma {:induction false} UnfoldsAllInLarger(g: Graph, h: Graph, nodes: seq<Node>, items: seq<Requirement>)
    requires Part(g, h) && UnfoldsAll(g, nodes, items)
    ensures UnfoldsAll(h, nodes, items) && ReachAll(h, nodes, items) == ReachAll(g, nodes, items)
    decreases items, 1
  {
    if items != [] {
      UnfoldsInLarger(g, h, nodes[0], items[0]);
      UnfoldsAllInLarger(g, h, nodes[1..], items[1..]);
      forall i | 0 <= i < |items| ensures Unfolds(h, nodes[i], items[i]) {
        if i > 0 { assert nodes[i] == nodes[1..][i - 1] && items[i] == items[1..][i - 1]; }
      }
    }
  }

  // ---------------------------------------------------------------- trees and forests

  /** The graph is a tree below r: it unfolds to t, every requirement of it is used, and none is used twice. */
  ghost predicate TreeIn(g: Graph, r: Node, t: Requirement) {
    Closed(g) && Unfolds(g, r, t) && g.Keys == Reach(g, r, t) && |g.Keys| == Size(t)
  }

  ghost predicate ForestIn(g: Graph, nodes: seq<Node>, items: seq<Requirement>) {
    Closed(g) && UnfoldsAll(g, nodes, items) && g.Keys == ReachAll(g, nodes, items) && |g.Keys| == SizeAll(items)
  }

  lemma Merged(a: Graph, b: Graph)
    requires a.Keys !! b.Keys
    ensures Part(a, a + b) && Part(b, a + b) && (a + b).Keys == a.Keys + b.Keys && |(a + b).Keys| == |a.Keys| + |b.Keys|
    ensures Closed(a) && Closed(b) ==> Closed(a + b)
  {
    assert (a + b).Keys == a.Keys + b.Keys;
    if Closed(a) && Closed(b) { MergedClosed(a, b); }
    hide Closed;
  }

  lemma MergedClosed(a: Graph, b: Graph)
    requires Closed(a) && Closed(b)
    ensures Closed(a + b)
  {
  }

  lemma ClosedAbove(r: Node, f: Fields, below: Graph)
    requires Closed(below) && LinksIn(f.and, below.Keys) && LinksIn(f.or, below.Keys)
             && (f.not != null ==> f.not in below)
    ensures Closed(below[r := f])
  {
  }

  lemma {:induction false} AllButLast(g: Graph, nodes: seq<Node>, items: seq<Requirement>, r: Node, t: Requirement)
    requires UnfoldsAll(g, nodes, items) && Unfolds(g, r, t)
    ensures UnfoldsAll(g, nodes + [r], items + [t])
    ensures ReachAll(g, nodes + [r], items + [t]) == ReachAll(g, nodes, items) + Reach(g, r, t)
    ensures SizeAll(items + [t]) == SizeAll(items) + Size(t)
  {
    if items == [] {
      assert nodes + [r] == [r] && items + [t] == [t];
    } else {
      AllButLast(g, nodes[1..], items[1..], r, t);
      assert (nodes + [r])[1..] == nodes[1..] + [r] && (items + [t])[1..] == items[1..] + [t];
    }
  }

  lemma ForestGrows(nodes: seq<Node>, items: seq<Requirement>, own: Graph, r: Node, t: Requirement, more: Graph)
    requires ForestIn(own, nodes, items) && TreeIn(more, r, t) && own.Keys !! more.Keys
    ensures ForestIn(own + more, nodes + [r], items + [t])
  {
    Merged(own, more);
    UnfoldsAllInLarger(own, own + more, nodes, items);
    UnfoldsInLarger(more, own + more, r, t);
    AllButLast(own + more, nodes, items, r, t);
  }

  /** What one part of a requirement (not, and, or) contributes to its tree. */
  ghost predicate PartIn(g: Graph, l: Links, s: Selectors.Slice) {
    match s
    case Nil => l == Nowhere && g == map[]
    case Items(items) => l.Elements? && ForestIn(g, l.nodes, items)
  }

  ghost predicate NotIn(g: Graph, n: Node?, t: Option<Requirement>) {
    match t
    case None => n == null && g == map[]
    case Some(r) => n != null && TreeIn(g, n, r)
  }

  /** The fields of a requirement that unfolds to t. */
  ghost predicate Shows(f: Fields, g: Graph, t: Requirement) {
    && f.name == t.name
    && (f.and.Nowhere? <==> t.and.Nil?) && (t.and.Items? ==> UnfoldsAll(g, f.and.nodes, t.and.items))
    && (f.or.Nowhere? <==> t.or.Nil?) && (t.or.Items? ==> UnfoldsAll(g, f.or.nodes, t.or.items))
    && (f.not == null <==> t.not.None?) && (t.not.Some? ==> Unfolds(g, f.not, t.not.value))
  }

  ghost function ReachBelow(f: Fields, g: Graph, t: Requirement): set<Node>
    requires Shows(f, g, t)
  {
    (if t.and.Items? then ReachAll(g, f.and.nodes, t.and.items) else {})
    + (if t.or.Items? then ReachAll(g, f.or.nodes, t.or.items) else {})
    + (if t.not.Some? then Reach(g, f.not, t.not.value) else {})
  }

  /** The fields of a requirement together with the trees below it. */
  ghost predicate Above(f: Fields, t: Requirement, below: Graph) {
    Closed(below) && Shows(f, below, t) && below.Keys == ReachBelow(f, below, t) && |below.Keys| + 1 == Size(t)
  }

  lemma ShowsInLarger(f: Fields, g: Graph, h: Graph, t: Requirement)
    requires Part(g, h) && Shows(f, g, t)
    ensures Shows(f, h, t) && ReachBelow(f, h, t) == ReachBelow(f, g, t)
  {
    if t.and.Items? { UnfoldsAllInLarger(g, h, f.and.nodes, t.and.items); }
    if t.or.Items? { UnfoldsAllInLarger(g, h, f.or.nodes, t.or.items); }
    if t.not.Some? { UnfoldsInLarger(g, h, f.not, t.not.value); }
  }

  lemma Contributes(l: Links, s: Selectors.Slice, own: Graph, all: Graph)
    requires PartIn(own, l, s) && Part(own, all)
    ensures (l.Nowhere? <==> s.Nil?) && Closed(own)
    ensures s.Items? ==>
              && UnfoldsAll(all, l.nodes, s.items) && ReachAll(all, l.nodes, s.items) == own.Keys
              && |own.Keys| == SizeAll(s.items)
    ensures s.Nil? ==> own.Keys == {}
  {
    if s.Items? { UnfoldsAllInLarger(own, all, l.nodes, s.items); }
  }

  lemma ContributesNot(n: Node?, t: Option<Requirement>, own: Graph, all: Graph)
    requires NotIn(own, n, t) && Part(own, all)
    ensures (n == null <==> t.None?) && Closed(own)
    ensures t.Some? ==> Unfolds(all, n, t.value) && Reach(all, n, t.value) == own.Keys && |own.Keys| == Size(t.value)
    ensures t.None? ==> own.Keys == {}
  {
    if t.Some? { UnfoldsInLarger(own, all, n, t.value); }
  }

  lemma TogetherShows(f: Fields, t: Requirement, ands: Graph, ors: Graph, nots: Graph, all: Graph)
    requires f.name == t.name && PartIn(ands, f.and, t.and) && PartIn(ors, f.or, t.or) && NotIn(nots, f.not, t.not)
    requires Part(ands, all) && Part(ors, all) && Part(nots, all)
    ensures Shows(f, all, t) && ReachBelow(f, all, t) == ands.Keys + ors.Keys + nots.Keys
    ensures Size(t) == 1 + |ands.Keys| + |ors.Keys| + |nots.Keys|
    ensures Closed(ands) && Closed(ors) && Closed(nots)
  {
    hide PartIn, NotIn, UnfoldsAll, Unfolds, Reach, ReachAll, SizeAll, Closed, Part;
    Contributes(f.and, t.and, ands, all);
    Contributes(f.or, t.or, ors, all);
    ContributesNot(f.not, t.not, nots, all);
  }

  lemma Together(f: Fields, t: Requirement, ands: Graph, ors: Graph, nots: Graph)
    requires f.name == t.name && PartIn(ands, f.and, t.and) && PartIn(ors, f.or, t.or) && NotIn(nots, f.not, t.not)
    requires ands.Keys !! ors.Keys && ands.Keys !! nots.Keys && ors.Keys !! nots.Keys
    ensures Above(f, t, ands + ors + nots)
  {
    var below := ands + ors + nots;
    hide PartIn, NotIn, Shows, ReachBelow, Size, Closed, Part;
    AllThree(ands, ors, nots);
    TogetherShows(f, t, ands, ors, nots, below);
    MergedClosed(ands, ors);
    MergedClosed(ands + ors, nots);
  }

  lemma AllThree(a: Graph, b: Graph, c: Graph)
    requires a.Keys !! b.Keys && a.Keys !! c.Keys && b.Keys !! c.Keys
    ensures var g := a + b + c;
            && Part(a, g) && Part(b, g) && Part(c, g)
            && g.Keys == a.Keys + b.Keys + c.Keys && |g.Keys| == |a.Keys| + |b.Keys| + |c.Keys|
  {
  }

  lemma LinksBelow(f: Fields, t: Requirement, below: Graph)
    requires Above(f, t, below)
    ensures LinksIn(f.and, below.Keys) && LinksIn(f.or, below.Keys) && (f.not != null ==> f.not in below)
  {
  }

  /** A requirement whose links lead to trees of their own, apart from each other, is a tree with them. */
  lemma Rooted(r: Node, f: Fields, t: Requirement, below: Graph)
    requires Above(f, t, below) && r !in below
    ensures TreeIn(below[r := f], r, t)
  {
    var g := below[r := f];
    LinksBelow(f, t, below);
    hide Closed, LinksIn, Part, Shows, Size, Unfolds, Reach, ReachBelow;
    WithRoot(r, f, below);
    ClosedAbove(r, f, below);
    ShowsInLarger(f, below, g, t);
    Unfolded(g, r, t);
  }

  lemma WithRoot(r: Node, f: Fields, below: Graph)
    requires r !in below
    ensures var g := below[r := f];
            Part(below, g) && g[r] == f && g.Keys == {r} + below.Keys && |g.Keys| == |below.Keys| + 1
  {
  }

  lemma Unfolded(g: Graph, r: Node, t: Requirement)
    requires r in g && Shows(g[r], g, t)
    ensures Unfolds(g, r, t) && Reach(g, r, t) == {r} + ReachBelow(g[r], g, t)
  {
  }

  // ---------------------------------------------------------------- the copy

  /** The graph is what the heap holds. */
  ghost predicate Holds(g: Graph)
    reads g.Keys
  {
    forall n :: n in g ==> n.fields == g[n]
  }

  /** make([]PurposeSelectorRequirement, n): new, empty requirements. */
  method Make(n: nat) returns (elements: seq<Node>)
    ensures |elements| == n && (forall i :: 0 <= i < n ==> fresh(elements[i]))
    ensures forall i, j :: 0 <= i < j < n ==> elements[i] != elements[j]
  {
    elements := [];
    while |elements| < n
      invariant |elements| <= n && (forall i :: 0 <= i < |elements| ==> fresh(elements[i]))
      invariant forall i, j :: 0 <= i < j < |elements| ==> elements[i] != elements[j]
    {
      var e := new Node();
      elements := elements + [e];
    }
  }

  /** The loops that copy the elements of a slice into the new one. */
  method CopyElements(sources: seq<Node>, elements: seq<Node>, ghost g: Graph, ghost items: seq<Requirement>)
      returns (ghost own: Graph)
    requires Holds(g) && Closed(g) && UnfoldsAll(g, sources, items) && |elements| == |sources|
    requires forall e :: e in elements ==> e !in g
    requires forall i, j :: 0 <= i < j < |elements| ==> elements[i] != elements[j]
    modifies elements
    ensures Holds(own) && ForestIn(own, elements, items)
    ensures forall n :: n in own && n !in elements ==> fresh(n)
    decreases items, 1
  {
    own := map[];
    hide ForestIn, TreeIn, Holds;
    NothingToCopy();
    for i := 0 to |elements|
      invariant Holds(g) && Holds(own) && ForestIn(own, elements[..i], items[..i])
      invariant forall n :: n in own && n !in elements ==> fresh(n)
      invariant forall j :: i <= j < |elements| ==> elements[j] !in own
    {
      assert elements[i] in elements;
      TreeIsUnique(g, sources[i], items[i]);
      ghost var tree := DeepCopyInto(sources[i], elements[i], g);
      ForestGrows(elements[..i], items[..i], own, elements[i], items[i], tree);
      HoldsBoth(own, tree);
      OneMore(elements, i);
      OneMore(items, i);
      own := own + tree;
    }
    assert elements[..|elements|] == elements && items[..|items|] == items;
  }

  lemma OneMore<T>(s: seq<T>, i: nat)
    requires i < |s|
    ensures s[..i] + [s[i]] == s[..i + 1]
  {
  }

  lemma NothingToCopy()
    ensures Holds(map[]) && ForestIn(map[], [], [])
  {
  }

  lemma HoldsBoth(a: Graph, b: Graph)
    requires Holds(a) && Holds(b)
    ensures Holds(a + b)
  {
  }

  lemma HoldsOne(r: Node, f: Fields, below: Graph)
    requires Holds(below) && r.fields == f
    ensures Holds(below[r := f])
  {
  }

  /** One of the blocks that replace a slice by a copy; a nil slice stays nil. */
  method CopySlice(source: Links, ghost g: Graph, ghost s: Selectors.Slice) returns (copy: Links, ghost own: Graph)
    requires Holds(g) && Closed(g) && (source.Nowhere? <==> s.Nil?)
             && (s.Items? ==> UnfoldsAll(g, source.nodes, s.items))
    ensures Holds(own) && PartIn(own, copy, s) && fresh(own.Keys)
    decreases s, 0
  {
    copy, own := source, map[];
    NothingToCopy();
    hide UnfoldsAll, Holds, ForestIn;
    if source.Elements? {
      var elements := Make(|source.nodes|);
      copy := Elements(elements);
      own := CopyElements(source.nodes, elements, g, s.items);
    }
  }

  /** The block that replaces the negated requirement by a copy; nil stays nil. */
  method CopyNot(source: Node?, ghost g: Graph, ghost t: Option<Requirement>) returns (copy: Node?, ghost own: Graph)
    requires Holds(g) && Closed(g) && (source == null <==> t.None?) && (t.Some? ==> Unfolds(g, source, t.value))
    ensures Holds(own) && NotIn(own, copy, t) && fresh(own.Keys)
    ensures copy != null ==> copy in own
    decreases t, 0
  {
    copy, own := null, map[];
    NothingToCopy();
    hide Unfolds, Holds, TreeIn, Closed, Acyclic;
    if source != null {
      copy := new Node();
      TreeIsUnique(g, source, t.value);
      own := DeepCopyInto(source, copy, g);
    }
  }

  /** The three blocks, one after the other. */
  method CopyLinks(source: Fields, ghost g: Graph, ghost t: Requirement) returns (copy: Fields, ghost below: Graph)
    requires Holds(g) && Closed(g) && Shows(source, g, t)
    ensures Holds(below) && Above(copy, t, below) && fresh(below.Keys)
    decreases t, 0
  {
    hide PartIn, NotIn, Holds, Unfolds, UnfoldsAll, Above;
    var and, ands := CopySlice(source.and, g, t.and);
    var or, ors := CopySlice(source.or, g, t.or);
    var not, nots := CopyNot(source.not, g, t.not);
    copy := Fields(source.name, not, and, or);
    Together(copy, t, ands, ors, nots);
    HoldsBoth(ands, ors);
    HoldsBoth(ands + ors, nots);
    below := ands + ors + nots;
  }

  lemma UnfoldedShows(source: Node, g: Graph, t: Requirement)
    requires Holds(g) && Unfolds(g, source, t)
    ensures source in g && Shows(source.fields, g, t)
  {
  }

  /**
  DeepCopyInto: copies all fields, then replaces every link by a link to a copy. Where no cycle can be reached from the
  source it ends; what it writes is `out` and new requirements only, and these are the tree into which the source
  unfolds.
   */
  method DeepCopyInto(source: Node, out: Node, ghost g: Graph) returns (ghost tree: Graph)
    requires Holds(g) && Closed(g) && source in g && Acyclic(g, source) && out !in g
    modifies out
    ensures Holds(tree) && TreeIn(tree, out, TreeOf(g, source)) && out in tree && forall n :: n in tree && n != out ==>
              fresh(n)
    decreases TreeOf(g, source), 1
  {
    hide TreeIn, Unfolds, UnfoldsAll, Above, Shows, Holds, Closed, LinksIn, TreeOf, Acyclic;
    ghost var t := TreeOf(g, source);
    UnfoldedShows(source, g, t);
    out.fields := source.fields;
    var fields, below := CopyLinks(source.fields, g, t);
    out.fields := fields;
    Rooted(out, fields, t, below);
    HoldsOne(out, fields, below);
    tree := below[out := fields];
  }

  /** DeepCopy: a nil selector has a nil copy; otherwise nothing of the copy is shared with the original. */
  method DeepCopy(source: Node?, ghost g: Graph) returns (copy: Node?, ghost tree: Graph)
    requires Holds(g) && Closed(g) && (source != null ==> source in g && Acyclic(g, source))
    ensures copy == null <==> source == null
    ensures copy != null ==> Holds(tree) && TreeIn(tree, copy, TreeOf(g, source)) && copy in tree
    ensures fresh(tree.Keys) && tree.Keys !! g.Keys
  {
    copy, tree := CopyNot(source, g, if source == null then None else Some(TreeOf(g, source)));
  }

  /** A copy matches what the original matches: on every list of purposes, and without a panic. */
  lemma CopyMatchesAlike(g: Graph, source: Node, tree: Graph, copy: Node, purposes: seq<string>)
    requires Closed(g) && source in g && Acyclic(g, source) && TreeIn(tree, copy, TreeOf(g, source))
    ensures Evaluated(tree, copy, purposes, {}) == Evaluated(g, source, purposes, {})
    ensures Evaluated(tree, copy, purposes, {}) == Value(Selectors.Matches(TreeOf(g, source), purposes))
  {
    AcyclicMeaning(g, source, purposes);
    TreeIsUnique(tree, copy, TreeOf(g, source));
    AcyclicMeaning(tree, copy, purposes);
  }
}
