/**
Purpose selectors as the program has them: requirements on the heap that point to each other. A Go slice of requirements
is the sequence of its elements' addresses. The evaluator and the deep copy are proved against the tree semantics;
graphs with shared nodes and with cycles are covered.
 */
module SelectorGraph {
  import opened Options
  import Selectors

  datatype Links = Nowhere | Elements(nodes: seq<Node>)

  /** The contents of one requirement. */
  datatype Fields = Fields(name: string, not: Node?, and: Links, or: Links)

  /** A place in memory that holds a requirement. */
  class Node {
    var fields: Fields

    constructor ()
      ensures fields == Fields("", null, Nowhere, Nowhere)
    {
      fields := Fields("", null, Nowhere, Nowhere);
    }
  }

  /** The requirements on the current path, shared by all activations of the evaluator. */
  class Path {
    var nodes: set<Node>

    constructor ()
      ensures nodes == {}
    {
      nodes := {};
    }
  }

  // ---------------------------------------------------------------- graphs as values

  type Graph = map<Node, Fields>

  /** The contents of a set of requirements at this moment. */
  ghost function Picture(nodes: set<Node>): Graph
    reads nodes
  {
    map n | n in nodes :: n.fields
  }

  predicate LinksIn(l: Links, nodes: set<Node>) { l.Elements? ==> forall n :: n in l.nodes ==> n in nodes }

  /** No link leads out of the graph. */
  ghost predicate Closed(g: Graph) {
    forall n :: n in g ==> (g[n].not != null ==> g[n].not in g) && LinksIn(g[n].and, g.Keys) && LinksIn(g[n].or, g.Keys)
  }

  predicate Filled(l: Links) { l.Elements? && l.nodes != [] }

  // ---------------------------------------------------------------- evaluation

  datatype Outcome = Value(value: bool) | Panic

  function Negated(o: Outcome): Outcome { if o.Value? then Value(!o.value) else Panic }

  /** What the evaluator returns for a requirement, given the path that leads to it. */
  ghost function Evaluated(g: Graph, r: Node?, purposes: seq<string>, path: set<Node>): Outcome
    requires Closed(g) && (r != null ==> r in g)
    decreases g.Keys - path, 0
  {
    if r == null then Value(true)
    else if r in path then Panic
    else
      var f := g[r];
      assert g.Keys - (path + {r}) < g.Keys - path;
      if f.name != "" then Value(f.name in purposes)
      else if f.not != null then Negated(Evaluated(g, f.not, purposes, path + {r}))
      else if Filled(f.and) then Combined(g, f.and.nodes, true, purposes, path + {r})
      else if Filled(f.or) then Combined(g, f.or.nodes, false, purposes, path + {r})
      else Value(true)
  }

  /** A conjunction (or a disjunction): the first element that decides it, or that panics, ends the evaluation. */
  ghost function Combined(g: Graph, nodes: seq<Node>, all: bool, purposes: seq<string>, path: set<Node>): Outcome
    requires Closed(g) && forall n :: n in nodes ==> n in g
    decreases g.Keys - path, 1 + |nodes|
  {
    if nodes == [] then Value(all)
    else
      var first := Evaluated(g, nodes[0], purposes, path);
      if first == Value(all) then Combined(g, nodes[1..], all, purposes, path) else first
  }

  lemma CombinedFrom(g: Graph, nodes: seq<Node>, i: nat, all: bool, purposes: seq<string>, path: set<Node>)
    requires Closed(g) && i < |nodes| && forall n :: n in nodes ==> n in g
    ensures nodes[i] in g
    ensures Combined(g, nodes[i..], all, purposes, path) ==
              var first := Evaluated(g, nodes[i], purposes, path);
              if first == Value(all) then Combined(g, nodes[i + 1..], all, purposes, path) else first
  {
  }

  /** The evaluation of a requirement in terms of its fields on the heap. */
  lemma EvaluatedHere(nodes: set<Node>, r: Node, purposes: seq<string>, path: set<Node>)
    requires Closed(Picture(nodes)) && r in nodes && r !in path
    ensures Picture(nodes).Keys == nodes && (r.fields.not != null ==> r.fields.not in nodes)
    ensures LinksIn(r.fields.and, nodes) && LinksIn(r.fields.or, nodes)
    ensures Evaluated(Picture(nodes), r, purposes, path) ==
              if r.fields.name != "" then Value(r.fields.name in purposes)
              else if r.fields.not != null then Negated(Evaluated(Picture(nodes), r.fields.not, purposes, path + {r}))
              else if Filled(r.fields.and) then Combined(Picture(nodes), r.fields.and.nodes, true, purposes, path + {r})
              else if Filled(r.fields.or) then Combined(Picture(nodes), r.fields.or.nodes, false, purposes, path + {r})
              else Value(true)
  {
  }

  /** The loops over and (all) and or (any): the first element that decides ends the loop. */
  method EvaluateElements(elements: seq<Node>, all: bool, purposes: seq<string>, path: Path, ghost nodes: set<Node>)
      returns (outcome: Outcome)
    requires Closed(Picture(nodes)) && forall n :: n in elements ==> n in nodes
    modifies path
    ensures path.nodes == old(path.nodes)
    ensures outcome == Combined(Picture(nodes), elements, all, purposes, old(path.nodes))
    decreases nodes - path.nodes, 1
  {
    ghost var g, on := Picture(nodes), path.nodes;
    hide Evaluated, Combined, Closed;
    for i := 0 to |elements|
      invariant path.nodes == on
      invariant Combined(g, elements, all, purposes, on) == Combined(g, elements[i..], all, purposes, on)
    {
      CombinedFrom(g, elements, i, all, purposes, on);
      outcome := RequirementMatches(elements[i], purposes, path, nodes);
      if outcome != Value(all) { return; }
    }
    CombinedNone(g, all, purposes, on);
    return Value(all);
  }

  /** A node that is entered is left again. */
  lemma StepIn(nodes: set<Node>, before: set<Node>, r: Node)
    requires r in nodes && r !in before
    ensures nodes - (before + {r}) < nodes - before && before + {r} - {r} == before
  {
    assert r in nodes - before && r !in nodes - (before + {r});
  }

  /**
  requirementMatches: recursive, with a shared set of the requirements on the path, from which each one is removed
  again.
   */
  method RequirementMatches(r: Node?, purposes: seq<string>, path: Path, ghost nodes: set<Node>)
      returns (outcome: Outcome)
    requires Closed(Picture(nodes)) && (r != null ==> r in nodes)
    modifies path
    ensures path.nodes == old(path.nodes)
    ensures outcome == Evaluated(Picture(nodes), r, purposes, old(path.nodes))
    decreases nodes - path.nodes, 0
  {
    if r == null { return Value(true); }
    var r: Node := r;
    if r in path.nodes { return Panic; }
    ghost var before := path.nodes;
    EvaluatedHere(nodes, r, purposes, before);
    hide Evaluated, Combined, Closed, Picture;
    StepIn(nodes, before, r);
    path.nodes := path.nodes + {r};
    if r.fields.name != "" {
      outcome := Value(r.fields.name in purposes);
    } else if r.fields.not != null {
      outcome := RequirementMatches(r.fields.not, purposes, path, nodes);
      outcome := Negated(outcome);
    } else if Filled(r.fields.and) {
      outcome := EvaluateElements(r.fields.and.nodes, true, purposes, path, nodes);
    } else if Filled(r.fields.or) {
      outcome := EvaluateElements(r.fields.or.nodes, false, purposes, path, nodes);
    } else {
      outcome := Value(true);
    }
    path.nodes := path.nodes - {r};
  }

  lemma CombinedNone(g: Graph, all: bool, purposes: seq<string>, path: set<Node>)
    requires Closed(g)
    ensures Combined(g, [], all, purposes, path) == Value(all)
  {
  }

  // ---------------------------------------------------------------- the evaluator against plain recursion

  /** Plain recursion without a path, cut off at a depth: None when it would go deeper. */
  ghost function Plainly(g: Graph, r: Node?, purposes: seq<string>, depth: nat): Option<bool>
    requires Closed(g) && (r != null ==> r in g)
    decreases depth, 0
  {
    if r == null then Some(true)
    else if depth == 0 then None
    else if g[r].name != "" then Some(g[r].name in purposes)
    else if g[r].not != null then
      var o := Plainly(g, g[r].not, purposes, depth - 1);
      if o.Some? then Some(!o.value) else None
    else if Filled(g[r].and) then PlainlyAll(g, g[r].and.nodes, true, purposes, depth - 1)
    else if Filled(g[r].or) then PlainlyAll(g, g[r].or.nodes, false, purposes, depth - 1)
    else Some(true)
  }

  ghost function PlainlyAll(g: Graph, nodes: seq<Node>, all: bool, purposes: seq<string>, depth: nat): Option<bool>
    requires Closed(g) && forall n :: n in nodes ==> n in g
    decreases depth, 1 + |nodes|
  {
    if nodes == [] then Some(all)
    else
      var first := Plainly(g, nodes[0], purposes, depth);
      if first == Some(all) then PlainlyAll(g, nodes[1..], all, purposes, depth) else first
  }

  lemma {:induction false} DeeperIsEqual(g: Graph, r: Node?, purposes: seq<string>, depth: nat, more: nat)
    requires Closed(g) && (r != null ==> r in g) && depth <= more && Plainly(g, r, purposes, depth).Some?
    ensures Plainly(g, r, purposes, more) == Plainly(g, r, purposes, depth)
    decreases depth, 0
  {
    if r == null || g[r].name != "" {
    } else if g[r].not != null {
      DeeperIsEqual(g, g[r].not, purposes, depth - 1, more - 1);
    } else if Filled(g[r].and) {
      DeeperIsEqualAll(g, g[r].and.nodes, true, purposes, depth - 1, more - 1);
    } else if Filled(g[r].or) {
      DeeperIsEqualAll(g, g[r].or.nodes, false, purposes, depth - 1, more - 1);
    }
  }

  lemma {:induction false} DeeperIsEqualAll(g: Graph, nodes: seq<Node>, all: bool, purposes: seq<string>, depth: nat,
                                            more: nat)
    requires Closed(g) && (forall n :: n in nodes ==> n in g)
    requires depth <= more && PlainlyAll(g, nodes, all, purposes, depth).Some?
    ensures PlainlyAll(g, nodes, all, purposes, more) == PlainlyAll(g, nodes, all, purposes, depth)
    decreases depth, 1 + |nodes|
  {
    if nodes != [] {
      DeeperIsEqual(g, nodes[0], purposes, depth, more);
      if Plainly(g, nodes[0], purposes, depth) == Some(all) {
        DeeperIsEqualAll(g, nodes[1..], all, purposes, depth, more);
      }
    }
  }

  /** The depth that is enough for every path without repetition. */
  ghost function Room(g: Graph, path: set<Node>): nat { |g.Keys - path| }

  lemma OneStepDeeper(g: Graph, r: Node, path: set<Node>)
    requires r in g && r !in path
    ensures Room(g, path) == Room(g, path + {r}) + 1
  {
    assert g.Keys - path == (g.Keys - (path + {r})) + {r};
  }

  /** A value the evaluator returns is the value of plain recursion. */
  lemma {:induction false} ValueIsPlain(g: Graph, r: Node?, purposes: seq<string>, path: set<Node>)
    requires Closed(g) && (r != null ==> r in g) && Evaluated(g, r, purposes, path).Value?
    ensures Plainly(g, r, purposes, Room(g, path)) == Some(Evaluated(g, r, purposes, path).value)
    decreases g.Keys - path, 0
  {
    if r == null {
    } else {
      OneStepDeeper(g, r, path);
      assert g.Keys - (path + {r}) < g.Keys - path;
      if g[r].name != "" {
      } else if g[r].not != null {
        ValueIsPlain(g, g[r].not, purposes, path + {r});
      } else if Filled(g[r].and) {
        ValueIsPlainAll(g, g[r].and.nodes, true, purposes, path + {r});
      } else if Filled(g[r].or) {
        ValueIsPlainAll(g, g[r].or.nodes, false, purposes, path + {r});
      }
    }
  }

  lemma {:induction false} ValueIsPlainAll(g: Graph, nodes: seq<Node>, all: bool, purposes: seq<string>,
                                           path: set<Node>)
    requires Closed(g) && (forall n :: n in nodes ==> n in g) && Combined(g, nodes, all, purposes, path).Value?
    ensures PlainlyAll(g, nodes, all, purposes, Room(g, path)) == Some(Combined(g, nodes, all, purposes, path).value)
    decreases g.Keys - path, 1 + |nodes|
  {
    if nodes != [] {
      ValueIsPlain(g, nodes[0], purposes, path);
      if Evaluated(g, nodes[0], purposes, path) == Value(all) { ValueIsPlainAll(g, nodes[1..], all, purposes, path); }
    }
  }

  /** Plain recursion ends for some requirement on the path within the depth. */
  ghost predicate EndsOnPath(g: Graph, purposes: seq<string>, path: set<Node>, depth: nat)
    requires Closed(g)
  {
    exists n :: n in path && n in g && Plainly(g, n, purposes, depth).Some?
  }

  lemma EndsOnPathDeeper(g: Graph, purposes: seq<string>, path: set<Node>, depth: nat)
    requires Closed(g) && EndsOnPath(g, purposes, path, depth)
    ensures EndsOnPath(g, purposes, path, depth + 1)
  {
    var n :| n in path && n in g && Plainly(g, n, purposes, depth).Some?;
    DeeperIsEqual(g, n, purposes, depth, depth + 1);
  }

  /**
  If the evaluator panics although plain recursion ends, then plain recursion also ends for a requirement on the path.
   */
  lemma {:induction false} PanicBlamesPath(g: Graph, r: Node?, purposes: seq<string>, path: set<Node>, depth: nat)
    requires Closed(g) && (r != null ==> r in g)
    requires Evaluated(g, r, purposes, path).Panic? && Plainly(g, r, purposes, depth).Some?
    ensures EndsOnPath(g, purposes, path, depth)
    decreases depth, 0
  {
    if r !in path {
      if g[r].not != null {
        PanicBlamesPath(g, g[r].not, purposes, path + {r}, depth - 1);
      } else if Filled(g[r].and) {
        PanicBlamesPathAll(g, g[r].and.nodes, true, purposes, path + {r}, depth - 1);
      } else {
        PanicBlamesPathAll(g, g[r].or.nodes, false, purposes, path + {r}, depth - 1);
      }
      var n :| n in path + {r} && n in g && Plainly(g, n, purposes, depth - 1).Some?;
      if n == r { PanicBlamesPath(g, r, purposes, path, depth - 1); }
      EndsOnPathDeeper(g, purposes, path, depth - 1);
    }
  }

  lemma {:induction false} PanicBlamesPathAll(g: Graph, nodes: seq<Node>, all: bool, purposes: seq<string>,
                                              path: set<Node>, depth: nat)
    requires Closed(g) && (forall n :: n in nodes ==> n in g)
    requires Combined(g, nodes, all, purposes, path).Panic? && PlainlyAll(g, nodes, all, purposes, depth).Some?
    ensures EndsOnPath(g, purposes, path, depth)
    decreases depth, 1 + |nodes|
  {
    if Evaluated(g, nodes[0], purposes, path).Panic? {
      PanicBlamesPath(g, nodes[0], purposes, path, depth);
    } else {
      ValueIsPlain(g, nodes[0], purposes, path);
      AgreeOnValue(g, nodes[0], purposes, depth, Room(g, path));
      PanicBlamesPathAll(g, nodes[1..], all, purposes, path, depth);
    }
  }

  lemma AgreeOnValue(g: Graph, r: Node?, purposes: seq<string>, a: nat, b: nat)
    requires Closed(g) && (r != null ==> r in g) && Plainly(g, r, purposes, a).Some? && Plainly(g, r, purposes, b).Some?
    ensures Plainly(g, r, purposes, a) == Plainly(g, r, purposes, b)
  {
    if a <= b { DeeperIsEqual(g, r, purposes, a, b); } else { DeeperIsEqual(g, r, purposes, b, a); }
  }

  /** Plain recursion ends with this value. */
  ghost predicate EndsWith(g: Graph, r: Node?, purposes: seq<string>, value: bool)
    requires Closed(g) && (r != null ==> r in g)
  {
    exists depth :: Plainly(g, r, purposes, depth) == Some(value)
  }

  /**
  The evaluator is correct on every graph, cyclic ones included: it returns a value exactly when plain recursion ends
  with that value, and it panics exactly when plain recursion would never end.
   */
  lemma EvaluatorIsCorrect(g: Graph, r: Node?, purposes: seq<string>, value: bool)
    requires Closed(g) && (r != null ==> r in g)
    ensures Evaluated(g, r, purposes, {}) == Value(value) <==> EndsWith(g, r, purposes, value)
    ensures Evaluated(g, r, purposes, {}) == Panic <==>
              !EndsWith(g, r, purposes, true) && !EndsWith(g, r, purposes, false)
  {
    if Evaluated(g, r, purposes, {}).Value? {
      ValueIsPlain(g, r, purposes, {});
      forall depth | Plainly(g, r, purposes, depth).Some?
        ensures Plainly(g, r, purposes, depth) == Some(Evaluated(g, r, purposes, {}).value)
      {
        AgreeOnValue(g, r, purposes, depth, Room(g, {}));
      }
    } else {
      forall depth ensures Plainly(g, r, purposes, depth).None? {
        if Plainly(g, r, purposes, depth).Some? { PanicBlamesPath(g, r, purposes, {}, depth); }
      }
    }
  }

  // ---------------------------------------------------------------- cycles

  predicate Edge(g: Graph, a: Node, b: Node)
    requires a in g
  {
    g[a].not == b || (g[a].and.Elements? && b in g[a].and.nodes) || (g[a].or.Elements? && b in g[a].or.nodes)
  }

  predicate Walk(g: Graph, older w: seq<Node>) {
    && w != [] && (forall i :: 0 <= i < |w| ==> w[i] in g)
    && forall i :: 0 <= i < |w| - 1 ==> Edge(g, w[i], w[i + 1])
  }

  predicate Repeats(w: seq<Node>) { w != [] && exists i :: 0 <= i < |w| - 1 && w[i] == w[|w| - 1] }

  lemma {:induction false} PanicWalks(g: Graph, r: Node?, purposes: seq<string>, path: set<Node>) returns (w: seq<Node>)
    requires Closed(g) && (r != null ==> r in g) && Evaluated(g, r, purposes, path).Panic?
    ensures Walk(g, w) && w[0] == r && (w[|w| - 1] in path || Repeats(w))
    decreases g.Keys - path, 0
  {
    if r in path {
      w := [r];
    } else {
      assert g.Keys - (path + {r}) < g.Keys - path;
      var tail;
      if g[r].not != null {
        tail := PanicWalks(g, g[r].not, purposes, path + {r});
      } else if Filled(g[r].and) {
        tail := PanicWalksAll(g, g[r].and.nodes, true, purposes, path + {r});
      } else {
        tail := PanicWalksAll(g, g[r].or.nodes, false, purposes, path + {r});
      }
      w := [r] + tail;
      assert w[|w| - 1] == tail[|tail| - 1] && w[0] == r;
      if Repeats(tail) {
        var i :| 0 <= i < |tail| - 1 && tail[i] == tail[|tail| - 1];
        assert w[i + 1] == w[|w| - 1];
      }
    }
  }

  lemma {:induction false} PanicWalksAll(g: Graph, nodes: seq<Node>, all: bool, purposes: seq<string>, path: set<Node>)
      returns (w: seq<Node>)
    requires Closed(g) && (forall n :: n in nodes ==> n in g) && Combined(g, nodes, all, purposes, path).Panic?
    ensures Walk(g, w) && w[0] in nodes && (w[|w| - 1] in path || Repeats(w))
    decreases g.Keys - path, 1 + |nodes|
  {
    if Evaluated(g, nodes[0], purposes, path).Panic? {
      w := PanicWalks(g, nodes[0], purposes, path);
    } else {
      w := PanicWalksAll(g, nodes[1..], all, purposes, path);
    }
  }

  /**
  A panic means a real cycle: from the requirement there is a walk along links that comes back to where it has been.
   */
  lemma PanicMeansCycle(g: Graph, r: Node, purposes: seq<string>) returns (w: seq<Node>)
    requires Closed(g) && r in g && Evaluated(g, r, purposes, {}).Panic?
    ensures Walk(g, w) && w[0] == r && Repeats(w)
  {
    w := PanicWalks(g, r, purposes, {});
  }

  // ---------------------------------------------------------------- acyclic graphs

  /** The graph below a requirement unfolds into a tree; shared requirements are unfolded once per use. */
  ghost predicate Unfolds(g: Graph, r: Node, t: Selectors.Requirement)
    decreases t
  {
    && r in g && g[r].name == t.name
    && (g[r].not == null <==> t.not.None?) && (t.not.Some? ==> Unfolds(g, g[r].not, t.not.value))
    && (g[r].and.Nowhere? <==> t.and.Nil?)
    && (t.and.Items? ==>
          && |g[r].and.nodes| == |t.and.items|
          && forall i | 0 <= i < |t.and.items| :: Unfolds(g, g[r].and.nodes[i], t.and.items[i]))
    && (g[r].or.Nowhere? <==> t.or.Nil?)
    && (t.or.Items? ==>
          && |g[r].or.nodes| == |t.or.items|
          && forall i | 0 <= i < |t.or.items| :: Unfolds(g, g[r].or.nodes[i], t.or.items[i]))
  }

  ghost predicate UnfoldsAll(g: Graph, nodes: seq<Node>, items: seq<Selectors.Requirement>) {
    |nodes| == |items| && forall i :: 0 <= i < |items| ==> Unfolds(g, nodes[i], items[i])
  }

  predicate MatchesAll(items: seq<Selectors.Requirement>, all: bool, purposes: seq<string>) {
    if all then forall i :: 0 <= i < |items| ==> Selectors.Matches(items[i], purposes)
    else exists i :: 0 <= i < |items| && Selectors.Matches(items[i], purposes)
  }

  lemma {:induction false} TreeEnds(g: Graph, r: Node, t: Selectors.Requirement, purposes: seq<string>)
      returns (depth: nat)
    requires Closed(g) && Unfolds(g, r, t)
    ensures Plainly(g, r, purposes, depth) == Some(Selectors.Matches(t, purposes))
    decreases t, 0
  {
    if t.name != "" {
      depth := 1;
    } else if t.not.Some? {
      depth := TreeEnds(g, g[r].not, t.not.value, purposes);
      depth := depth + 1;
    } else if Selectors.Filled(t.and) {
      depth := TreesEnd(g, g[r].and.nodes, t.and.items, true, purposes);
      depth := depth + 1;
    } else if Selectors.Filled(t.or) {
      depth := TreesEnd(g, g[r].or.nodes, t.or.items, false, purposes);
      depth := depth + 1;
    } else {
      depth := 1;
    }
  }

  lemma {:induction false} TreesEnd(g: Graph, nodes: seq<Node>, items: seq<Selectors.Requirement>, all: bool,
                                    purposes: seq<string>)
      returns (depth: nat)
    requires Closed(g) && UnfoldsAll(g, nodes, items) && (forall n :: n in nodes ==> n in g)
    ensures PlainlyAll(g, nodes, all, purposes, depth) == Some(MatchesAll(items, all, purposes))
    decreases items, 1
  {
    if items == [] {
      depth := 0;
    } else {
      var first := TreeEnds(g, nodes[0], items[0], purposes);
      var others := TreesEnd(g, nodes[1..], items[1..], all, purposes);
      depth := first + others;
      DeeperIsEqual(g, nodes[0], purposes, first, depth);
      DeeperIsEqualAll(g, nodes[1..], all, purposes, others, depth);
      assert items == [items[0]] + items[1..];
    }
  }

  /** No walk along links that starts here comes back to where it has been. */
  ghost predicate Acyclic(g: Graph, r: Node) { forall w :: Walk(g, w) && w[0] == r ==> !Repeats(w) }

  /** How many requirements a tree has. */
  function Size(t: Selectors.Requirement): nat
    decreases t, 0
  {
    1 + (if t.not.Some? then Size(t.not.value) else 0)
    + (if t.and.Items? then SizeAll(t.and.items) else 0)
    + (if t.or.Items? then SizeAll(t.or.items) else 0)
  }

  function SizeAll(items: seq<Selectors.Requirement>): nat
    decreases items, 1
  {
    if items == [] then 0 else Size(items[0]) + SizeAll(items[1..])
  }

  lemma {:induction false} SizeOfOne(items: seq<Selectors.Requirement>, i: nat)
    requires i < |items|
    ensures Size(items[i]) <= SizeAll(items)
  {
    if i > 0 { SizeOfOne(items[1..], i - 1); }
  }

  /** An unfolding is unique. */
  lemma {:induction false} UnfoldsOnce(g: Graph, r: Node, t: Selectors.Requirement, u: Selectors.Requirement)
    requires Unfolds(g, r, t) && Unfolds(g, r, u)
    ensures t == u
    decreases t
  {
    if t.not.Some? { UnfoldsOnce(g, g[r].not, t.not.value, u.not.value); }
    if t.and.Items? {
      forall i | 0 <= i < |t.and.items| ensures t.and.items[i] == u.and.items[i] {
        UnfoldsOnce(g, g[r].and.nodes[i], t.and.items[i], u.and.items[i]);
      }
    }
    if t.or.Items? {
      forall i | 0 <= i < |t.or.items| ensures t.or.items[i] == u.or.items[i] {
        UnfoldsOnce(g, g[r].or.nodes[i], t.or.items[i], u.or.items[i]);
      }
    }
  }

  /** Along a link the unfolding gets smaller. */
  lemma LinkShrinks(g: Graph, a: Node, b: Node, t: Selectors.Requirement) returns (u: Selectors.Requirement)
    requires Unfolds(g, a, t) && Edge(g, a, b)
    ensures Unfolds(g, b, u) && Size(u) < Size(t)
  {
    if g[a].not == b {
      u := t.not.value;
    } else if g[a].and.Elements? && b in g[a].and.nodes {
      var i :| 0 <= i < |g[a].and.nodes| && g[a].and.nodes[i] == b;
      u := t.and.items[i];
      SizeOfOne(t.and.items, i);
    } else {
      var i :| 0 <= i < |g[a].or.nodes| && g[a].or.nodes[i] == b;
      u := t.or.items[i];
      SizeOfOne(t.or.items, i);
    }
  }

  lemma {:induction false} WalkShrinks(g: Graph, w: seq<Node>, t: Selectors.Requirement)
      returns (u: Selectors.Requirement)
    requires Walk(g, w) && Unfolds(g, w[0], t)
    ensures Unfolds(g, w[|w| - 1], u) && Size(u) <= Size(t) && (|w| > 1 ==> Size(u) < Size(t))
    decreases |w|
  {
    if |w| == 1 {
      u := t;
    } else {
      var v := LinkShrinks(g, w[0], w[1], t);
      PartOfWalk(g, w, 1, |w|);
      u := WalkShrinks(g, w[1..], v);
    }
  }

  lemma PartOfWalk(g: Graph, w: seq<Node>, from: nat, to: nat)
    requires Walk(g, w) && from < to <= |w|
    ensures Walk(g, w[from..to])
  {
    var part := w[from..to];
    forall i | 0 <= i < |part| - 1 ensures Edge(g, part[i], part[i + 1]) {
      assert Edge(g, w[from + i], w[from + i + 1]);
    }
  }

  lemma UnfoldsIsAcyclic(g: Graph, r: Node, t: Selectors.Requirement)
    requires Unfolds(g, r, t)
    ensures Acyclic(g, r)
  {
    forall w | Walk(g, w) && w[0] == r ensures !Repeats(w) {
      if Repeats(w) {
        var i :| 0 <= i < |w| - 1 && w[i] == w[|w| - 1];
        NoWayBack(g, w, i, t);
      }
    }
  }

  lemma NoWayBack(g: Graph, w: seq<Node>, i: nat, t: Selectors.Requirement)
    requires Walk(g, w) && Unfolds(g, w[0], t) && i < |w| - 1
    ensures w[i] != w[|w| - 1]
  {
    hide Walk, Unfolds;
    PartOfWalk(g, w, 0, i + 1);
    var once := WalkShrinks(g, w[0..i + 1], t);
    PartOfWalk(g, w, i, |w|);
    var again := WalkShrinks(g, w[i..|w|], once);
    if w[i] == w[|w| - 1] { UnfoldsOnce(g, w[i], once, again); }
  }

  ghost function Visited(w: seq<Node>): set<Node> { set n | n in w }

  /** In an acyclic graph a walk goes on to a requirement where it has not been. */
  lemma StepsOn(g: Graph, w: seq<Node>, n: Node)
    requires Walk(g, w) && Acyclic(g, w[0]) && n in g && Edge(g, w[|w| - 1], n)
    ensures Walk(g, w + [n]) && (w + [n])[0] == w[0]
    ensures g.Keys - Visited(w + [n]) < g.Keys - Visited(w)
  {
    var longer := w + [n];
    forall i | 0 <= i < |longer| - 1 ensures Edge(g, longer[i], longer[i + 1]) {
      if i < |w| - 1 { assert Edge(g, w[i], w[i + 1]); }
    }
    if n in w {
      var i :| 0 <= i < |w| && w[i] == n;
      assert longer[i] == longer[|longer| - 1];
      assert Repeats(longer);
    }
    assert n in g.Keys - Visited(w) && n in Visited(longer);
    forall k | k in Visited(w) ensures k in Visited(longer) { assert k in longer; }
  }

  lemma {:induction false} Unfolding(g: Graph, w: seq<Node>) returns (t: Selectors.Requirement)
    requires Closed(g) && Walk(g, w) && Acyclic(g, w[0])
    ensures Unfolds(g, w[|w| - 1], t)
    decreases g.Keys - Visited(w), 1, 0
  {
    var r := w[|w| - 1];
    var f := g[r];
    var not, and, or := None, Selectors.Nil, Selectors.Nil;
    if f.not != null {
      StepsOn(g, w, f.not);
      var u := Unfolding(g, w + [f.not]);
      not := Some(u);
    }
    if f.and.Elements? {
      var items := Unfoldings(g, w, f.and.nodes);
      and := Selectors.Items(items);
    }
    if f.or.Elements? {
      var items := Unfoldings(g, w, f.or.nodes);
      or := Selectors.Items(items);
    }
    t := Selectors.Requirement(f.name, not, and, or);
  }

  lemma {:induction false} Unfoldings(g: Graph, w: seq<Node>, nodes: seq<Node>)
      returns (items: seq<Selectors.Requirement>)
    requires Closed(g) && Walk(g, w) && Acyclic(g, w[0])
    requires forall n :: n in nodes ==> n in g && Edge(g, w[|w| - 1], n)
    ensures UnfoldsAll(g, nodes, items)
    decreases g.Keys - Visited(w), 0, |nodes|
  {
    if nodes == [] {
      items := [];
    } else {
      StepsOn(g, w, nodes[0]);
      var first := Unfolding(g, w + [nodes[0]]);
      var others := Unfoldings(g, w, nodes[1..]);
      items := [first] + others;
      forall i | 0 <= i < |items| ensures Unfolds(g, nodes[i], items[i]) {
        if i > 0 { assert nodes[i] == nodes[1..][i - 1] && items[i] == others[i - 1]; }
      }
    }
  }

  /**
  A graph unfolds into a tree below a requirement if and only if no walk from there comes back to where it has been.
   */
  lemma AcyclicIffUnfolds(g: Graph, r: Node)
    requires Closed(g) && r in g
    ensures Acyclic(g, r) <==> exists t :: Unfolds(g, r, t)
  {
    if Acyclic(g, r) {
      assert Walk(g, [r]);
      var t := Unfolding(g, [r]);
      assert Unfolds(g, r, t);
    }
    forall t | Unfolds(g, r, t) ensures Acyclic(g, r) { UnfoldsIsAcyclic(g, r, t); }
  }

  /** The tree that an acyclic graph unfolds into. */
  ghost function TreeOf(g: Graph, r: Node): (t: Selectors.Requirement)
    requires Closed(g) && r in g && Acyclic(g, r)
    ensures Unfolds(g, r, t)
  {
    AcyclicIffUnfolds(g, r);
    var t :| Unfolds(g, r, t);
    t
  }

  lemma TreeIsUnique(g: Graph, r: Node, t: Selectors.Requirement)
    requires Closed(g) && Unfolds(g, r, t)
    ensures r in g && Acyclic(g, r) && TreeOf(g, r) == t
  {
    UnfoldsIsAcyclic(g, r, t);
    UnfoldsOnce(g, r, t, TreeOf(g, r));
  }

  /**
  Where no cycle can be reached, shared requirements included, the evaluator never panics and returns the documented
  meaning.
   */
  lemma AcyclicMeaning(g: Graph, r: Node, purposes: seq<string>)
    requires Closed(g) && r in g && Acyclic(g, r)
    ensures Evaluated(g, r, purposes, {}) == Value(Selectors.Matches(TreeOf(g, r), purposes))
  {
    var t := TreeOf(g, r);
    var depth := TreeEnds(g, r, t, purposes);
    EvaluatorIsCorrect(g, r, purposes, Selectors.Matches(t, purposes));
  }

  /** PurposeSelector.Matches; a missing selector matches. */
  method Matches(selector: Node?, purposes: seq<string>, ghost nodes: set<Node>) returns (outcome: Outcome)
    requires Closed(Picture(nodes)) && (selector != null ==> selector in nodes)
    ensures selector == null ==> outcome == Value(true)
    ensures forall b :: outcome == Value(b) <==> EndsWith(Picture(nodes), selector, purposes, b)
    ensures selector != null && Acyclic(Picture(nodes), selector) ==>
              outcome == Value(Selectors.Matches(TreeOf(Picture(nodes), selector), purposes))
  {
    ghost var g := Picture(nodes);
    if selector == null {
      assert Plainly(g, selector, purposes, 0) == Some(true);
      return Value(true);
    }
    var path := new Path();
    outcome := RequirementMatches(selector, purposes, path, nodes);
    EvaluatorIsCorrect(g, selector, purposes, true);
    EvaluatorIsCorrect(g, selector, purposes, false);
    if Acyclic(g, selector) { AcyclicMeaning(g, selector, purposes); }
  }
}
