/**
What copying secrets by a plan does to the world, independent of the order in which the plan's entries are visited.
 */
module Mirroring {
  import opened Options
  import opened Kubernetes
  import opened Protocol

  type Names = map<string, string>

  function Destination(c: NamespacedName, site: Site, plan: Names, s: string): Key
    requires s in plan
  {
    CopyKey(c, site, plan[s])
  }

  /** Source and target are the same object; such an entry is skipped. */
  predicate Identical(p: Params, c: NamespacedName, site: Site, plan: Names, s: string)
    requires s in plan
  {
    Destination(c, site, plan, s) == ProviderSecret(p, s)
  }

  predicate IsDestination(c: NamespacedName, site: Site, plan: Names, k: Key) {
    exists s :: s in plan && Destination(c, site, plan, s) == k
  }

  predicate DistinctTargets(plan: Names) {
    forall s, t :: s in plan && t in plan && plan[s] == plan[t] ==> s == t
  }

  /** No target is the source of another entry (possible only if the Cluster lives in the provider namespace). */
  predicate NoClash(p: Params, c: NamespacedName, site: Site, plan: Names) {
    forall s, t :: s in plan && t in plan && Destination(c, site, plan, s) == ProviderSecret(p, t) ==> s == t
  }

  predicate Compatible(p: Params, c: NamespacedName, site: Site, plan: Names) {
    DistinctTargets(plan) && NoClash(p, c, site, plan)
  }

  predicate SubPlan(done: Names, plan: Names) {
    forall s :: s in done ==> s in plan && done[s] == plan[s]
  }

  /** What the destination of s holds after the copy, seen from the world w before it. */
  function Copied(p: Params, c: NamespacedName, site: Site, plan: Names, w: World, s: string): Obj
    requires s in plan && ProviderSecret(p, s) in w.objs
  {
    if Identical(p, c, site, plan, s) then w.objs[ProviderSecret(p, s)]
    else CopyOf(Lookup(w, Destination(c, site, plan, s)), w.objs[ProviderSecret(p, s)], ExpectedLabels(p, c))
  }

  /** v is w with exactly the plan's entries copied. */
  ghost predicate Mirrored(p: Params, c: NamespacedName, site: Site, plan: Names, w: World, v: World) {
    && v == w.(objs := v.objs)
    && (forall s :: s in plan ==>
          && ProviderSecret(p, s) in w.objs
          && Destination(c, site, plan, s) in v.objs
          && v.objs[Destination(c, site, plan, s)] == Copied(p, c, site, plan, w, s))
    && (forall k :: k in w.objs ==> k in v.objs)
    && (forall k :: k in v.objs && !IsDestination(c, site, plan, k) ==> k in w.objs && v.objs[k] == w.objs[k])
  }

  lemma MirroredNothing(p: Params, c: NamespacedName, site: Site, w: World)
    ensures Mirrored(p, c, site, map[], w, w)
  {
  }

  /** Neither the source nor the destination of an entry still to be done has been written. */
  lemma PendingUntouched(p: Params, c: NamespacedName, site: Site, plan: Names, done: Names, s: string)
    requires Compatible(p, c, site, plan) && SubPlan(done, plan) && s in plan && s !in done
    ensures !IsDestination(c, site, done, Destination(c, site, plan, s))
    ensures !IsDestination(c, site, done, ProviderSecret(p, s))
  {
  }

  /** The world after a copy of a secret was written. */
  function WithCopy(p: Params, c: NamespacedName, site: Site, target: string, secret: Obj, u: World): World {
    Write(u, CopyKey(c, site, target), CopyOf(Lookup(u, CopyKey(c, site, target)), secret, ExpectedLabels(p, c)))
  }

  /** The world after one source secret was copied under a target name. */
  function AfterCopy(p: Params, c: NamespacedName, site: Site, source: string, target: string, u: World): World {
    if CopyKey(c, site, target) == ProviderSecret(p, source) || ProviderSecret(p, source) !in u.objs then u
    else WithCopy(p, c, site, target, u.objs[ProviderSecret(p, source)], u)
  }

  /** The target is free, the Cluster's own, or the source itself. */
  predicate PlaceFree(p: Params, c: NamespacedName, site: Site, source: string, target: string, u: World) {
    CopyKey(c, site, target) == ProviderSecret(p, source) || OwnedOrAbsent(p, c, u, CopyKey(c, site, target))
  }

  ghost predicate PlacesFree(p: Params, c: NamespacedName, site: Site, plan: Names, order: seq<string>, u: World) {
    forall s :: s in order && s in plan ==> PlaceFree(p, c, site, s, plan[s], u)
  }

  /**
  Nothing keeps a source from being copied: it is there, and its target is free, the Cluster's own, or the source
  itself.
   */
  predicate Unhindered(p: Params, c: NamespacedName, site: Site, source: string, target: string, u: World) {
    ProviderSecret(p, source) in u.objs && PlaceFree(p, c, site, source, target, u)
  }

  ghost predicate Copyable(p: Params, c: NamespacedName, site: Site, plan: Names, u: World) {
    forall s :: s in plan ==> Unhindered(p, c, site, s, plan[s], u)
  }

  lemma CopyingKeepsCopyable(p: Params, c: NamespacedName, site: Site, plan: Names, source: string, target: string,
                             u: World)
    requires Copyable(p, c, site, plan, u)
    ensures Copyable(p, c, site, plan, AfterCopy(p, c, site, source, target, u))
  {
  }

  /** v is u with one object put under key k. */
  ghost predicate PutAt(u: World, k: Key, o: Obj, v: World) {
    && v == u.(objs := v.objs)
    && k in v.objs && v.objs[k] == o
    && (forall q :: q in u.objs ==> q in v.objs)
    && (forall q :: q in v.objs && q != k ==> q in u.objs && v.objs[q] == u.objs[q])
  }

  lemma CopyReachesDestination(p: Params, c: NamespacedName, site: Site, plan: Names, done: Names, s: string, w: World,
                               u: World)
    requires Compatible(p, c, site, plan) && SubPlan(done, plan) && s in plan && s !in done
    requires Mirrored(p, c, site, done, w, u) && ProviderSecret(p, s) in u.objs
    ensures ProviderSecret(p, s) in w.objs
    ensures PutAt(u, Destination(c, site, plan, s), Copied(p, c, site, plan, w, s),
                  AfterCopy(p, c, site, s, plan[s], u))
  {
    PendingUntouched(p, c, site, plan, done, s);
    assert Lookup(u, Destination(c, site, plan, s)) == Lookup(w, Destination(c, site, plan, s));
  }

  lemma SubPlanDestination(c: NamespacedName, site: Site, done: Names, plan: Names, k: Key)
    requires SubPlan(done, plan) && IsDestination(c, site, done, k)
    ensures IsDestination(c, site, plan, k)
  {
  }

  lemma ExtendedEntry(p: Params, c: NamespacedName, site: Site, done: Names, s: string, name: string, w: World,
                      u: World, v: World, t: string)
    requires s !in done && Mirrored(p, c, site, done, w, u) && ProviderSecret(p, s) in w.objs
    requires !IsDestination(c, site, done, CopyKey(c, site, name))
    requires PutAt(u, CopyKey(c, site, name), Copied(p, c, site, done[s := name], w, s), v)
    requires t in done[s := name]
    ensures var next := done[s := name];
            && ProviderSecret(p, t) in w.objs
            && Destination(c, site, next, t) in v.objs
            && v.objs[Destination(c, site, next, t)] == Copied(p, c, site, next, w, t)
  {
  }

  lemma ExtendedElsewhere(p: Params, c: NamespacedName, site: Site, done: Names, s: string, name: string, w: World,
                          u: World, v: World, k: Key)
    requires s !in done && Mirrored(p, c, site, done, w, u) && ProviderSecret(p, s) in w.objs
    requires PutAt(u, CopyKey(c, site, name), Copied(p, c, site, done[s := name], w, s), v)
    requires k in v.objs && !IsDestination(c, site, done[s := name], k)
    ensures k in w.objs && v.objs[k] == w.objs[k]
  {
    var next := done[s := name];
    assert s in next && Destination(c, site, next, s) == CopyKey(c, site, name);
    if IsDestination(c, site, done, k) {
      SubPlanDestination(c, site, done, next, k);
    }
  }

  lemma MirroredExtends(p: Params, c: NamespacedName, site: Site, done: Names, s: string, name: string, w: World,
                        u: World, v: World)
    requires s !in done && Mirrored(p, c, site, done, w, u) && ProviderSecret(p, s) in w.objs
    requires !IsDestination(c, site, done, CopyKey(c, site, name))
    requires PutAt(u, CopyKey(c, site, name), Copied(p, c, site, done[s := name], w, s), v)
    ensures Mirrored(p, c, site, done[s := name], w, v)
  {
    hide IsDestination, Copied;
    var next := done[s := name];
    forall t | t in next
      ensures && ProviderSecret(p, t) in w.objs && Destination(c, site, next, t) in v.objs
              && v.objs[Destination(c, site, next, t)] == Copied(p, c, site, next, w, t)
    {
      ExtendedEntry(p, c, site, done, s, name, w, u, v, t);
    }
    forall k | k in v.objs && !IsDestination(c, site, next, k) ensures k in w.objs && v.objs[k] == w.objs[k] {
      ExtendedElsewhere(p, c, site, done, s, name, w, u, v, k);
    }
  }

  /** One more entry copied, in any order: the invariant of the copy loop. */
  lemma MirroredStep(p: Params, c: NamespacedName, site: Site, plan: Names, done: Names, s: string, w: World, u: World)
    requires Compatible(p, c, site, plan) && SubPlan(done, plan) && s in plan && s !in done
    requires Mirrored(p, c, site, done, w, u) && ProviderSecret(p, s) in u.objs
    ensures Mirrored(p, c, site, done[s := plan[s]], w, AfterCopy(p, c, site, s, plan[s], u))
  {
    PendingUntouched(p, c, site, plan, done, s);
    CopyReachesDestination(p, c, site, plan, done, s, w, u);
    MirroredExtends(p, c, site, done, s, plan[s], w, u, AfterCopy(p, c, site, s, plan[s], u));
  }

  // ---------------------------------------------------------------- the copy loop in some order

  /** The world after the entries of a plan were copied in the given order. */
  function CopiesInOrder(p: Params, c: NamespacedName, site: Site, plan: Names, order: seq<string>, w: World): World
    requires InPlan(order, plan)
  {
    if order == [] then w
    else
      var n := |order| - 1;
      AfterCopy(p, c, site, order[n], plan[order[n]], CopiesInOrder(p, c, site, plan, order[..n], w))
  }

  predicate InPlan(order: seq<string>, plan: Names) { forall i :: 0 <= i < |order| ==> order[i] in plan }

  predicate Once(order: seq<string>) { forall i, j :: 0 <= i < j < |order| ==> order[i] != order[j] }

  /** Every source was there when it was read. */
  predicate ReadInOrder(p: Params, c: NamespacedName, site: Site, plan: Names, order: seq<string>, w: World)
    requires InPlan(order, plan)
  {
    order == [] ||
    var n := |order| - 1;
    && ReadInOrder(p, c, site, plan, order[..n], w)
    && ProviderSecret(p, order[n]) in CopiesInOrder(p, c, site, plan, order[..n], w).objs
  }

  /** The part of a plan that an order covers. */
  function Restricted(plan: Names, order: seq<string>): Names { map s | s in plan && s in order :: plan[s] }

  lemma RestrictedGrows(plan: Names, order: seq<string>, s: string)
    requires s in plan
    ensures Restricted(plan, order + [s]) == Restricted(plan, order)[s := plan[s]]
  {
  }

  lemma RestrictedIsPart(plan: Names, order: seq<string>)
    ensures SubPlan(Restricted(plan, order), plan)
    ensures order == [] ==> Restricted(plan, order) == map[]
  {
  }

  /** Whatever the order, the outcome is the same: the plan's entries copied, everything else as before. */
  lemma {:induction false} OrderMirrors(p: Params, c: NamespacedName, site: Site, plan: Names, order: seq<string>,
                                        w: World)
    requires Compatible(p, c, site, plan) && InPlan(order, plan) && Once(order)
             && ReadInOrder(p, c, site, plan, order, w)
    ensures Mirrored(p, c, site, Restricted(plan, order), w, CopiesInOrder(p, c, site, plan, order, w))
    ensures SubPlan(Restricted(plan, order), plan)
  {
    hide Compatible, Mirrored, SubPlan, AfterCopy;
    RestrictedIsPart(plan, order);
    if order == [] {
      MirroredNothing(p, c, site, w);
    } else {
      var n := |order| - 1;
      var front, s := order[..n], order[n];
      assert order == front + [s] && s !in front;
      OrderMirrors(p, c, site, plan, front, w);
      RestrictedGrows(plan, front, s);
      MirroredStep(p, c, site, plan, Restricted(plan, front), s, w, CopiesInOrder(p, c, site, plan, front, w));
    }
  }

  /** Two complete orders lead to the same world. */
  lemma OrderIndependence(p: Params, c: NamespacedName, site: Site, plan: Names, a: seq<string>, b: seq<string>,
                          w: World)
    requires Compatible(p, c, site, plan) && InPlan(a, plan) && InPlan(b, plan) && Once(a) && Once(b)
    requires ReadInOrder(p, c, site, plan, a, w) && ReadInOrder(p, c, site, plan, b, w)
    requires forall s :: s in plan ==> s in a && s in b
    ensures CopiesInOrder(p, c, site, plan, a, w) == CopiesInOrder(p, c, site, plan, b, w)
  {
    hide Compatible, Mirrored, CopiesInOrder, ReadInOrder, SubPlan;
    OrderMirrors(p, c, site, plan, a, w);
    OrderMirrors(p, c, site, plan, b, w);
    assert Restricted(plan, a) == plan == Restricted(plan, b);
    MirroredUnique(p, c, site, plan, w, CopiesInOrder(p, c, site, plan, a, w), CopiesInOrder(p, c, site, plan, b, w));
  }

  /** A plan has one outcome. */
  lemma MirroredUnique(p: Params, c: NamespacedName, site: Site, plan: Names, w: World, u: World, v: World)
    requires Mirrored(p, c, site, plan, w, u) && Mirrored(p, c, site, plan, w, v)
    ensures u == v
  {
  }

  /** Copying over one's own copy changes nothing. */
  lemma CopyTwice(current: Option<Obj>, source: Obj, expected: Labels)
    ensures var once := CopyOf(current, source, expected); CopyOf(Some(once), source, expected) == once
  {
    var once := CopyOf(current, source, expected);
    assert once.labels + source.labels + expected == once.labels;
    assert once.annotations + source.annotations == once.annotations;
  }

  /**
  Recovery: a run that stopped midway, followed by a complete one, ends where a complete run alone would have ended.
   */
  lemma Recovery(p: Params, c: NamespacedName, site: Site, plan: Names, done: Names, w: World, u: World, v: World)
    requires Compatible(p, c, site, plan) && SubPlan(done, plan)
    requires Mirrored(p, c, site, done, w, u) && Mirrored(p, c, site, plan, u, v)
    ensures Mirrored(p, c, site, plan, w, v)
  {
    forall s | s in plan
      ensures && ProviderSecret(p, s) in w.objs
              && v.objs[Destination(c, site, plan, s)] == Copied(p, c, site, plan, w, s)
    {
      var k, src := Destination(c, site, plan, s), ProviderSecret(p, s);
      if !Identical(p, c, site, plan, s) {
        assert !IsDestination(c, site, done, src);
        assert src in w.objs && u.objs[src] == w.objs[src];
        if s in done {
          assert Destination(c, site, done, s) == k;
          CopyTwice(Lookup(w, k), w.objs[src], ExpectedLabels(p, c));
        } else {
          assert !IsDestination(c, site, done, k);
        }
      } else if s in done {
        assert Destination(c, site, done, s) == k;
      } else {
        assert !IsDestination(c, site, done, k);
      }
    }
    forall k | k in v.objs && !IsDestination(c, site, plan, k) ensures k in w.objs && v.objs[k] == w.objs[k] {
      if IsDestination(c, site, done, k) {
        SubPlanDestination(c, site, done, plan, k);
      }
    }
  }

  /**
  The same in terms of the loop: whatever a failed run managed to copy, in its order, the next complete run makes up
  for.
   */
  lemma RecoveryInOrder(p: Params, c: NamespacedName, site: Site, plan: Names, a: seq<string>, b: seq<string>, w: World)
    requires Compatible(p, c, site, plan) && InPlan(a, plan) && InPlan(b, plan) && Once(a) && Once(b)
    requires (forall s :: s in plan ==> s in b) && ReadInOrder(p, c, site, plan, a, w)
             && ReadInOrder(p, c, site, plan, b, w)
    requires ReadInOrder(p, c, site, plan, b, CopiesInOrder(p, c, site, plan, a, w))
    ensures CopiesInOrder(p, c, site, plan, b, CopiesInOrder(p, c, site, plan, a, w)) == CopiesInOrder(p, c, site, plan,
                                                                                                       b, w)
  {
    hide Compatible, Mirrored, CopiesInOrder, ReadInOrder, SubPlan;
    var u := CopiesInOrder(p, c, site, plan, a, w);
    assert Restricted(plan, b) == plan;
    OrderMirrors(p, c, site, plan, a, w);
    OrderMirrors(p, c, site, plan, b, u);
    OrderMirrors(p, c, site, plan, b, w);
    Recovery(p, c, site, plan, Restricted(plan, a), w, u, CopiesInOrder(p, c, site, plan, b, u));
    MirroredUnique(p, c, site, plan, w, CopiesInOrder(p, c, site, plan, b, u), CopiesInOrder(p, c, site, plan, b, w));
  }

  /** Idempotence: mirroring a world that already is the outcome of the same plan changes nothing. */
  lemma MirroredTwice(p: Params, c: NamespacedName, site: Site, plan: Names, w: World, u: World)
    requires Compatible(p, c, site, plan) && Mirrored(p, c, site, plan, w, u)
    ensures Mirrored(p, c, site, plan, u, u)
  {
    forall s | s in plan
      ensures ProviderSecret(p, s) in u.objs && u.objs[Destination(c, site, plan, s)] == Copied(p, c, site, plan, u, s)
    {
      var k, src := Destination(c, site, plan, s), ProviderSecret(p, s);
      if !Identical(p, c, site, plan, s) {
        assert !IsDestination(c, site, plan, src);
        CopyTwice(Lookup(w, k), w.objs[src], ExpectedLabels(p, c));
      }
    }
  }

  /** A world in which every target holds exactly the data and type of each source planned for it. */
  ghost predicate Exact(p: Params, c: NamespacedName, site: Site, plan: Names, w: World, v: World) {
    forall s :: s in plan ==>
      && ProviderSecret(p, s) in w.objs && Destination(c, site, plan, s) in v.objs
      && v.objs[Destination(c, site, plan, s)].body == w.objs[ProviderSecret(p, s)].body
  }

  /** Sources that share a target hold the same data and type. */
  ghost predicate SourcesAgree(p: Params, c: NamespacedName, site: Site, plan: Names, w: World) {
    forall s, t ::
      s in plan && t in plan && plan[s] == plan[t]
      && ProviderSecret(p, s) in w.objs && ProviderSecret(p, t) in w.objs ==>
        w.objs[ProviderSecret(p, s)].body == w.objs[ProviderSecret(p, t)].body
  }

  /** This body is that of some copied source with this target. */
  ghost predicate FromASource(p: Params, plan: Names, order: seq<string>, w: World, target: string, body: Body)
    requires InPlan(order, plan)
  {
    exists i :: 0 <= i < |order| && plan[order[i]] == target && ProviderSecret(p, order[i]) in w.objs
                && body == w.objs[ProviderSecret(p, order[i])].body
  }

  lemma FromALongerOrder(p: Params, plan: Names, order: seq<string>, s: string, w: World, target: string, body: Body)
    requires InPlan(order, plan) && s in plan && FromASource(p, plan, order, w, target, body)
    ensures InPlan(order + [s], plan) && FromASource(p, plan, order + [s], w, target, body)
  {
    var i :| 0 <= i < |order| && plan[order[i]] == target && ProviderSecret(p, order[i]) in w.objs
             && body == w.objs[ProviderSecret(p, order[i])].body;
    assert (order + [s])[i] == order[i];
  }

  /** What a target holds, and that sources keep what they hold, after the copies made so far. */
  ghost predicate HoldsASource(p: Params, c: NamespacedName, site: Site, plan: Names, order: seq<string>, w: World,
                               u: World, s: string)
    requires InPlan(order, plan) && s in plan && ProviderSecret(p, s) in w.objs
  {
    && ProviderSecret(p, s) in u.objs && u.objs[ProviderSecret(p, s)].body == w.objs[ProviderSecret(p, s)].body
    && (s in order ==> Destination(c, site, plan, s) in u.objs
                       && FromASource(p, plan, order, w, plan[s], u.objs[Destination(c, site, plan, s)].body))
  }

  lemma OneMoreShared(p: Params, c: NamespacedName, site: Site, plan: Names, order: seq<string>, last: string, w: World,
                      u: World, s: string)
    requires NoClash(p, c, site, plan) && InPlan(order, plan) && s in plan && last in plan
    requires ProviderSecret(p, s) in w.objs && ProviderSecret(p, last) in w.objs
    requires HoldsASource(p, c, site, plan, order, w, u, s) && HoldsASource(p, c, site, plan, order, w, u, last)
    ensures InPlan(order + [last], plan)
    ensures HoldsASource(p, c, site, plan, order + [last], w, AfterCopy(p, c, site, last, plan[last], u), s)
  {
    var longer, v := order + [last], AfterCopy(p, c, site, last, plan[last], u);
    assert longer[|order|] == last;
    if s in longer && Destination(c, site, plan, last) != Destination(c, site, plan, s) {
      assert s in order;
      FromALongerOrder(p, plan, order, last, w, plan[s], u.objs[Destination(c, site, plan, s)].body);
    }
  }

  /** When targets are shared, each target ends up with what one of its sources holds, and sources stay as they are. */
  lemma {:induction false} SharedTargets(p: Params, c: NamespacedName, site: Site, plan: Names, order: seq<string>,
                                         w: World, s: string)
    requires NoClash(p, c, site, plan) && InPlan(order, plan)
             && (forall t :: t in plan ==> ProviderSecret(p, t) in w.objs)
    requires s in plan
    ensures HoldsASource(p, c, site, plan, order, w, CopiesInOrder(p, c, site, plan, order, w), s)
  {
    if order == [] {
    } else {
      var n := |order| - 1;
      var front, last := order[..n], order[n];
      assert order == front + [last];
      SharedTargets(p, c, site, plan, front, w, s);
      SharedTargets(p, c, site, plan, front, w, last);
      hide NoClash, HoldsASource, AfterCopy;
      OneMoreShared(p, c, site, plan, front, last, w, CopiesInOrder(p, c, site, plan, front, w), s);
    }
  }

  /** With shared targets, the copies are exact, in whatever order they are made, if and only if the sources agree. */
  lemma ExactIffSourcesAgree(p: Params, c: NamespacedName, site: Site, plan: Names, order: seq<string>, w: World)
    requires NoClash(p, c, site, plan) && InPlan(order, plan)
             && (forall t :: t in plan ==> ProviderSecret(p, t) in w.objs && t in order)
    ensures Exact(p, c, site, plan, w, CopiesInOrder(p, c, site, plan, order, w)) <==> SourcesAgree(p, c, site, plan, w)
  {
    var v := CopiesInOrder(p, c, site, plan, order, w);
    if Exact(p, c, site, plan, w, v) {
      forall s, t | s in plan && t in plan && plan[s] == plan[t]
        ensures w.objs[ProviderSecret(p, s)].body == w.objs[ProviderSecret(p, t)].body
      {
        assert Destination(c, site, plan, s) == Destination(c, site, plan, t);
      }
    }
    if SourcesAgree(p, c, site, plan, w) {
      forall s | s in plan
        ensures Destination(c, site, plan, s) in v.objs
                && v.objs[Destination(c, site, plan, s)].body == w.objs[ProviderSecret(p, s)].body
      {
        SharedTargets(p, c, site, plan, order, w, s);
      }
    }
  }

  // ---------------------------------------------------------------- pruning

  /** A live copy that the current plan does not account for. */
  predicate Prunable(p: Params, w: World, c: NamespacedName, site: Site, keep: set<string>, k: Key) {
    Listed(p, w, c, site, Secret, CopyNamespace(c, site), k) && k.name !in keep && !w.objs[k].terminating
  }

  /** v differs from w in prunable secrets only. */
  ghost predicate OnlyPruned(p: Params, c: NamespacedName, site: Site, keep: set<string>, w: World, v: World) {
    && v == w.(objs := v.objs)
    && forall k :: !Prunable(p, w, c, site, keep, k) ==> Lookup(v, k) == Lookup(w, k)
  }

  lemma DeletedIsPruned(p: Params, c: NamespacedName, site: Site, keep: set<string>, items: seq<Key>, w: World,
                        v: World)
    requires OnlyDeleted(items, keep, w, v)
    requires forall k :: k in items ==> Listed(p, w, c, site, Secret, CopyNamespace(c, site), k)
    ensures OnlyPruned(p, c, site, keep, w, v)
  {
  }

  /** With nothing to prune, pruning leaves the world alone. */
  lemma NothingToPrune(p: Params, c: NamespacedName, site: Site, keep: set<string>, w: World, v: World)
    requires OnlyPruned(p, c, site, keep, w, v)
    requires forall k :: !Prunable(p, w, c, site, keep, k)
    ensures v == w
  {
    forall k ensures k in v.objs <==> k in w.objs {
      assert Lookup(v, k) == Lookup(w, k);
    }
    forall k | k in w.objs ensures v.objs[k] == w.objs[k] {
      assert Lookup(v, k) == Lookup(w, k);
    }
    assert v.objs == w.objs;
  }

  /**
  Mirror exactness of copy-then-prune, from any prior state: every planned name holds exactly its source's data and
  type, a source that is its own target is untouched, no other live labelled secret is left in the namespace, and
  foreign secrets are untouched: those under a planned name, too, if the copy run found all places free, as it does when
  it succeeds.
   */
  lemma CopyThenPrune(p: Params, c: NamespacedName, site: Site, plan: Names, order: seq<string>, w: World, u: World,
                      v: World)
    requires Mirrored(p, c, site, plan, w, u)
    requires OnlyPruned(p, c, site, plan.Values, u, v)
    requires forall k :: LiveAt(p, v, c, site, Secret, k) ==> k.name in plan.Values
    ensures Exact(p, c, site, plan, w, v)
    ensures forall s :: s in plan && Identical(p, c, site, plan, s) ==>
              Lookup(v, ProviderSecret(p, s)) == Lookup(w, ProviderSecret(p, s))
    ensures forall k :: LiveAt(p, v, c, site, Secret, k) ==> IsDestination(c, site, plan, k)
    ensures forall k :: !IsDestination(c, site, plan, k) && !OwnedOrAbsent(p, c, w, k) ==> Lookup(v, k) == Lookup(w, k)
    ensures Restricted(plan, order) == plan && PlacesFree(p, c, site, plan, order, w) ==>
              forall k :: !OwnedOrAbsent(p, c, w, k) ==> Lookup(v, k) == Lookup(w, k)
  {
    hide Mirrored, OnlyPruned, OwnedOrAbsent, Copied, LiveAt, PlacesFree;
    if Restricted(plan, order) == plan && PlacesFree(p, c, site, plan, order, w) {
      forall k | !OwnedOrAbsent(p, c, w, k) ensures Lookup(v, k) == Lookup(w, k) {
        ForeignUntouched(p, c, site, plan, order, w, u, v, k);
      }
    }
    forall s | s in plan
      ensures ProviderSecret(p, s) in w.objs
              && Lookup(v, Destination(c, site, plan, s)) == Some(Copied(p, c, site, plan, w, s))
      ensures Copied(p, c, site, plan, w, s).body == w.objs[ProviderSecret(p, s)].body
      ensures Identical(p, c, site, plan, s) ==> Copied(p, c, site, plan, w, s) == w.objs[ProviderSecret(p, s)]
    {
      DestinationKept(p, c, site, plan, w, u, v, s);
    }
    forall k | LiveAt(p, v, c, site, Secret, k) ensures IsDestination(c, site, plan, k) {
      LiveIsDestination(p, c, site, plan, v, k);
    }
    forall k | !IsDestination(c, site, plan, k) && !OwnedOrAbsent(p, c, w, k) ensures Lookup(v, k) == Lookup(w, k) {
      OthersUntouched(p, c, site, plan, w, u, v, k);
    }
  }

  lemma DestinationKept(p: Params, c: NamespacedName, site: Site, plan: Names, w: World, u: World, v: World, s: string)
    requires Mirrored(p, c, site, plan, w, u) && OnlyPruned(p, c, site, plan.Values, u, v) && s in plan
    ensures ProviderSecret(p, s) in w.objs
            && Lookup(v, Destination(c, site, plan, s)) == Some(Copied(p, c, site, plan, w, s))
    ensures Copied(p, c, site, plan, w, s).body == w.objs[ProviderSecret(p, s)].body
    ensures Identical(p, c, site, plan, s) ==> Copied(p, c, site, plan, w, s) == w.objs[ProviderSecret(p, s)]
  {
  }

  lemma LiveIsDestination(p: Params, c: NamespacedName, site: Site, plan: Names, v: World, k: Key)
    requires LiveAt(p, v, c, site, Secret, k) && k.name in plan.Values
    ensures IsDestination(c, site, plan, k)
  {
  }

  lemma ForeignUntouched(p: Params, c: NamespacedName, site: Site, plan: Names, order: seq<string>, w: World, u: World,
                         v: World, k: Key)
    requires Mirrored(p, c, site, plan, w, u) && OnlyPruned(p, c, site, plan.Values, u, v)
    requires Restricted(plan, order) == plan && PlacesFree(p, c, site, plan, order, w) && !OwnedOrAbsent(p, c, w, k)
    ensures Lookup(v, k) == Lookup(w, k)
  {
    if IsDestination(c, site, plan, k) {
      var s :| s in plan && Destination(c, site, plan, s) == k;
      assert s in Restricted(plan, order);
      DestinationKept(p, c, site, plan, w, u, v, s);
    } else {
      OthersUntouched(p, c, site, plan, w, u, v, k);
    }
  }

  /**
  What a copy run finds to be the Cluster's own, or free, was so before it: the run has not made foreign secrets its
  own.
   */
  lemma {:induction false} OwnBeforeCopies(p: Params, c: NamespacedName, site: Site, plan: Names, order: seq<string>,
                                           w: World, k: Key)
    requires InPlan(order, plan) && PlacesFree(p, c, site, plan, order, w)
    requires OwnedOrAbsent(p, c, CopiesInOrder(p, c, site, plan, order, w), k)
    ensures OwnedOrAbsent(p, c, w, k)
  {
    if order != [] {
      var n := |order| - 1;
      assert order[n] in order && forall s :: s in order[..n] ==> s in order;
      if !OwnedOrAbsent(p, c, CopiesInOrder(p, c, site, plan, order[..n], w), k) {
        assert CopyKey(c, site, plan[order[n]]) == k;
      } else {
        OwnBeforeCopies(p, c, site, plan, order[..n], w, k);
      }
    }
  }

  lemma NoPlaces(p: Params, c: NamespacedName, site: Site, plan: Names, w: World)
    ensures PlacesFree(p, c, site, plan, [], w)
  {
  }

  lemma OneMoreFree(p: Params, c: NamespacedName, site: Site, plan: Names, order: seq<string>, s: string, w: World)
    requires InPlan(order, plan) && s in plan && PlacesFree(p, c, site, plan, order, w)
    requires PlaceFree(p, c, site, s, plan[s], CopiesInOrder(p, c, site, plan, order, w))
    ensures PlacesFree(p, c, site, plan, order + [s], w)
  {
    if CopyKey(c, site, plan[s]) != ProviderSecret(p, s) {
      OwnBeforeCopies(p, c, site, plan, order, w, CopyKey(c, site, plan[s]));
    }
  }

  lemma OthersUntouched(p: Params, c: NamespacedName, site: Site, plan: Names, w: World, u: World, v: World, k: Key)
    requires Mirrored(p, c, site, plan, w, u) && OnlyPruned(p, c, site, plan.Values, u, v)
    requires !IsDestination(c, site, plan, k) && !OwnedOrAbsent(p, c, w, k)
    ensures Lookup(v, k) == Lookup(w, k)
  {
  }

  // ---------------------------------------------------------------- bookkeeping of the copy loop

  /** A prefix of the loop: which entries were copied, in which order, and which are left. */
  ghost predicate Underway(plan: Names, order: seq<string>, rest: set<string>, copied: set<string>) {
    && InPlan(order, plan) && Once(order) && rest <= plan.Keys
    && (forall s :: s in order <==> s in plan && s !in rest)
    && (forall t :: t in copied <==> exists s :: s in order && s in plan && plan[s] == t)
  }

  lemma UnderwayStarts(p: Params, c: NamespacedName, site: Site, plan: Names, w: World)
    ensures Underway(plan, [], plan.Keys, {}) && InPlan([], plan) && Once([])
    ensures ReadInOrder(p, c, site, plan, [], w) && CopiesInOrder(p, c, site, plan, [], w) == w
    ensures plan == map[] ==> Restricted(plan, []) == plan && plan.Values == {}
  {
  }

  lemma UnderwayStep(plan: Names, order: seq<string>, rest: set<string>, copied: set<string>, s: string)
    requires Underway(plan, order, rest, copied) && s in rest
    ensures Underway(plan, order + [s], rest - {s}, copied + {plan[s]})
    ensures s in plan && InPlan(order + [s], plan) && Once(order + [s])
  {
  }

  lemma UnderwayEnds(plan: Names, order: seq<string>, copied: set<string>)
    requires Underway(plan, order, {}, copied)
    ensures Restricted(plan, order) == plan && copied == plan.Values
  {
  }

  lemma OneMoreCopied(p: Params, c: NamespacedName, site: Site, plan: Names, order: seq<string>, s: string, w: World)
    requires InPlan(order, plan) && s in plan && ReadInOrder(p, c, site, plan, order, w)
    requires ProviderSecret(p, s) in CopiesInOrder(p, c, site, plan, order, w).objs
    ensures ReadInOrder(p, c, site, plan, order + [s], w)
    ensures CopiesInOrder(p, c, site, plan, order + [s], w) == AfterCopy(p, c, site, s, plan[s],
                                                                         CopiesInOrder(p, c, site, plan, order, w))
  {
  }
}
