/**
Which configuration applies to a Cluster, as the program finds out: the selectors that were read are laid out in memory
and evaluated there, one configuration after the other.
 */
module Selecting {
  import opened Options
  import opened Kubernetes
  import opened SelectorGraph
  import opened SelectorCopy
  import Selectors

  /** A slice of requirements as it is decoded: every element becomes a tree of its own. */
  method DecodeElements(items: seq<Requirement>) returns (elements: seq<Node>, ghost own: Graph)
    ensures Holds(own) && ForestIn(own, elements, items) && fresh(own.Keys)
    decreases items, 1
  {
    elements, own := [], map[];
    hide ForestIn, TreeIn, Holds;
    NothingToCopy();
    for i := 0 to |items|
      invariant |elements| == i && Holds(own) && ForestIn(own, elements, items[..i]) && fresh(own.Keys)
    {
      var e, tree := Decode(items[i]);
      ForestGrows(elements, items[..i], own, e, items[i], tree);
      HoldsBoth(own, tree);
      OneMore(items, i);
      elements, own := elements + [e], own + tree;
    }
    assert items[..|items|] == items;
  }

  method DecodeSlice(s: Selectors.Slice) returns (links: Links, ghost own: Graph)
    ensures Holds(own) && PartIn(own, links, s) && fresh(own.Keys)
    decreases s, 0
  {
    links, own := Nowhere, map[];
    NothingToCopy();
    hide Holds, ForestIn;
    if s.Items? {
      var elements;
      elements, own := DecodeElements(s.items);
      links := Elements(elements);
    }
  }

  method DecodeNot(t: Option<Requirement>) returns (r: Node?, ghost own: Graph)
    ensures Holds(own) && NotIn(own, r, t) && fresh(own.Keys)
    decreases t, 0
  {
    r, own := null, map[];
    NothingToCopy();
    hide Holds, TreeIn;
    if t.Some? { r, own := Decode(t.value); }
  }

  /** A requirement as the API client decodes it: a tree of new requirements, with nil for what is not given. */
  method Decode(t: Requirement) returns (r: Node, ghost tree: Graph)
    ensures Holds(tree) && TreeIn(tree, r, t) && fresh(tree.Keys)
    decreases t, 1
  {
    hide TreeIn, PartIn, NotIn, Above, Holds, Unfolds, UnfoldsAll;
    var and, ands := DecodeSlice(t.and);
    var or, ors := DecodeSlice(t.or);
    var not, nots := DecodeNot(t.not);
    r := new Node();
    r.fields := Fields(t.name, not, and, or);
    Together(r.fields, t, ands, ors, nots);
    HoldsBoth(ands, ors);
    HoldsBoth(ands + ors, nots);
    ghost var below := ands + ors + nots;
    Rooted(r, r.fields, t, below);
    HoldsOne(r, r.fields, below);
    tree := below[r := r.fields];
  }

  /** What the evaluator returns for a configuration's selector. */
  method Selected(config: PurposeConfig, purposes: seq<string>) returns (outcome: Outcome)
    ensures outcome == Value(config.selector.None? || Selectors.Matches(config.selector.value, purposes))
  {
    if config.selector.None? {
      outcome := Matches(null, purposes, {});
    } else {
      var r, tree := Decode(config.selector.value);
      TreeIsUnique(tree, r, config.selector.value);
      assert Picture(tree.Keys) == tree;
      outcome := Matches(r, purposes, tree.Keys);
    }
  }

  /**
  A requirement in memory stands for the selector of a configuration: nil for none, and otherwise one from which no
  cycle can be reached, shared requirements included, that unfolds into it.
   */
  ghost predicate StandsFor(g: Graph, r: Node?, selector: Option<Requirement>)
    requires Closed(g)
  {
    match selector
    case None => r == null
    case Some(tree) => r != null && r in g && Acyclic(g, r) && TreeOf(g, r) == tree
  }

  /** However it is laid out, the evaluator returns true if and only if the configuration applies, and never panics. */
  lemma EvaluatorDecides(g: Graph, r: Node?, config: PurposeConfig, purposes: seq<string>)
    requires Closed(g) && StandsFor(g, r, config.selector)
    ensures Evaluated(g, r, purposes, {}) == Value(true) <==>
              config.selector.None? || Selectors.Matches(config.selector.value, purposes)
    ensures !Evaluated(g, r, purposes, {}).Panic?
  {
    if r != null { AcyclicMeaning(g, r, purposes); }
  }
}
