/**
Worlds that a successful reconcile leaves behind, and that a further one does not change. Each phase of a reconcile has
its own part of such a world: the phase establishes it, the later phases keep it, and the phase repeated leaves it
alone.
 */
module Settling {
  import opened Options
  import opened Kubernetes
  import opened Protocol
  import opened CopyPlan
  import opened Mirroring
  import opened Deploying

  // ---------------------------------------------------------------- copies

  /** Every planned copy already is what copying it again would make it. */
  ghost predicate InMirror(p: Params, c: NamespacedName, site: Site, plan: Names, w: World) {
    forall s :: s in plan ==>
      && ProviderSecret(p, s) in w.objs
      && Destination(c, site, plan, s) in w.objs
      && w.objs[Destination(c, site, plan, s)] == Copied(p, c, site, plan, w, s)
  }

  lemma MirrorSettles(p: Params, c: NamespacedName, site: Site, plan: Names, w: World, u: World)
    requires Compatible(p, c, site, plan) && Mirrored(p, c, site, plan, w, u)
    ensures InMirror(p, c, site, plan, u)
  {
    MirroredTwice(p, c, site, plan, w, u);
  }

  /** Copying any part of the plan again changes nothing. */
  lemma MirrorStandsStill(p: Params, c: NamespacedName, site: Site, plan: Names, done: Names, w: World, v: World)
    requires InMirror(p, c, site, plan, w) && SubPlan(done, plan) && Mirrored(p, c, site, done, w, v)
    ensures v == w
  {
    forall s | s in done
      ensures && ProviderSecret(p, s) in w.objs && Destination(c, site, done, s) in w.objs
              && w.objs[Destination(c, site, done, s)] == Copied(p, c, site, done, w, s)
    {
      assert s in plan && Destination(c, site, done, s) == Destination(c, site, plan, s);
    }
    assert Mirrored(p, c, site, done, w, w);
    MirroredUnique(p, c, site, done, w, v, w);
  }

  /** What the copy loop leaves behind: the copied part mirrored, or, where all of it already was, nothing changed. */
  lemma CopiedMirrors(p: Params, c: NamespacedName, site: Site, plan: Names, order: seq<string>, w: World, still: bool)
    requires Compatible(p, c, site, plan) && InPlan(order, plan) && Once(order)
             && ReadInOrder(p, c, site, plan, order, w)
    requires still ==> InMirror(p, c, site, plan, w)
    ensures Restricted(plan, order) == plan ==> Mirrored(p, c, site, plan, w, CopiesInOrder(p, c, site, plan, order, w))
    ensures still ==> CopiesInOrder(p, c, site, plan, order, w) == w
  {
    hide Compatible, Mirrored, ReadInOrder, CopiesInOrder, SubPlan, InMirror;
    OrderMirrors(p, c, site, plan, order, w);
    if still {
      MirrorStandsStill(p, c, site, plan, Restricted(plan, order), w, CopiesInOrder(p, c, site, plan, order, w));
    }
  }

  /**
  A copy of a secret: its data and type are the source's, and, unless it is the source itself, it carries the source's
  labels and annotations and is labelled as this Cluster's.
   */
  ghost predicate IsCopy(p: Params, c: NamespacedName, copy: Obj, source: Obj, same: bool) {
    && copy.body == source.body
    && (!same ==>
          && MANAGED_BY in copy.labels && copy.labels[MANAGED_BY] == p.providerName + ".DNSCluster"
          && MANAGED_PURPOSE in copy.labels && copy.labels[MANAGED_PURPOSE] == c.name
          && (forall l :: l in source.labels && l != MANAGED_BY && l != MANAGED_PURPOSE ==>
                l in copy.labels && copy.labels[l] == source.labels[l])
          && (forall a :: a in source.annotations ==>
                a in copy.annotations && copy.annotations[a] == source.annotations[a]))
  }

  /**
  Where copies go: on the platform to the Cluster's namespace, on the target cluster to the namespace external-dns.
   */
  function PlaceOnSite(c: NamespacedName, site: Site, name: string): Key {
    match site
    case Platform => Key(Platform, Secret, c.namespace, name)
    case Target(_) => Key(site, Secret, "external-dns", name)
  }

  /** Whatever the configuration asks for on this cluster has been copied from the provider's namespace, as of w. */
  ghost predicate CopiesArrived(p: Params, c: NamespacedName, config: Config, service: Service, site: Site, w: World,
                                v: World) {
    forall s, t :: AskedFor(config, service, site, s, t) ==>
      var source, place := Key(Platform, Secret, p.providerNamespace, s), PlaceOnSite(c, site, t);
      source in w.objs && place in v.objs && IsCopy(p, c, v.objs[place], w.objs[source], place == source)
  }

  lemma CopyIsCopy(p: Params, c: NamespacedName, current: Option<Obj>, source: Obj)
    ensures IsCopy(p, c, CopyOf(current, source, ExpectedLabels(p, c)), source, false)
  {
  }

  /** A run that copies the whole plan brings what is asked for. */
  lemma MirroredArrived(p: Params, c: NamespacedName, config: Config, service: Service, site: Site, w: World, v: World)
    requires Mirrored(p, c, site, PlanFor(config, service, site), w, v)
    ensures CopiesArrived(p, c, config, service, site, w, v)
  {
    PlansAreAsked(config, service, site);
    forall s, t | AskedFor(config, service, site, s, t)
      ensures var source, place := Key(Platform, Secret, p.providerNamespace, s), PlaceOnSite(c, site, t);
              source in w.objs && place in v.objs && IsCopy(p, c, v.objs[place], w.objs[source], place == source)
    {
      var plan := PlanFor(config, service, site);
      assert s in plan && plan[s] == t;
      CopyIsCopy(p, c, Lookup(w, Destination(c, site, plan, s)), w.objs[ProviderSecret(p, s)]);
    }
  }

  lemma MirrorKept(p: Params, c: NamespacedName, site: Site, plan: Names, w: World, v: World)
    requires InMirror(p, c, site, plan, w)
    requires forall s :: s in plan ==> Lookup(v, ProviderSecret(p, s)) == Lookup(w, ProviderSecret(p, s))
    requires forall s :: s in plan ==>
               Lookup(v, Destination(c, site, plan, s)) == Lookup(w, Destination(c, site, plan, s))
    ensures InMirror(p, c, site, plan, v)
  {
  }

  lemma CopiedArrived(p: Params, c: NamespacedName, config: Config, service: Service, site: Site, order: seq<string>,
                      w: World)
    requires var plan := PlanFor(config, service, site);
             && InPlan(order, plan) && Once(order) && Restricted(plan, order) == plan
             && ReadInOrder(p, c, site, plan, order, w)
    ensures var plan := PlanFor(config, service, site);
            Compatible(p, c, site, plan) ==>
              CopiesArrived(p, c, config, service, site, w, CopiesInOrder(p, c, site, plan, order, w))
  {
    hide Compatible, Mirrored, ReadInOrder, CopiesInOrder, CopiesArrived;
    var plan := PlanFor(config, service, site);
    if Compatible(p, c, site, plan) {
      CopiedMirrors(p, c, site, plan, order, w, false);
      MirroredArrived(p, c, config, service, site, w, CopiesInOrder(p, c, site, plan, order, w));
    }
  }

  // ---------------------------------------------------------------- pruning

  ghost predicate Pruned(p: Params, c: NamespacedName, site: Site, keep: set<string>, w: World) {
    forall k :: !Prunable(p, w, c, site, keep, k)
  }

  lemma NothingPruned(p: Params, c: NamespacedName, site: Site, keep: set<string>, w: World, v: World)
    requires Pruned(p, c, site, keep, w) && OnlyPruned(p, c, site, keep, w, v)
    ensures v == w
  {
    NothingToPrune(p, c, site, keep, w, v);
  }

  /** No source of a planned copy is itself taken for a leftover copy. */
  predicate Spared(p: Params, c: NamespacedName, site: Site, plan: Names, w: World) {
    forall s :: s in plan ==> !Prunable(p, w, c, site, plan.Values, ProviderSecret(p, s))
  }

  lemma DestinationsSpared(p: Params, c: NamespacedName, site: Site, plan: Names, w: World, s: string)
    requires s in plan
    ensures !Prunable(p, w, c, site, plan.Values, Destination(c, site, plan, s))
  {
  }

  lemma SparedAfterCopy(p: Params, c: NamespacedName, site: Site, plan: Names, w: World, u: World)
    requires Spared(p, c, site, plan, w) && Mirrored(p, c, site, plan, w, u)
    ensures Spared(p, c, site, plan, u)
  {
  }

  lemma PruneKeepsMirror(p: Params, c: NamespacedName, site: Site, plan: Names, u: World, v: World)
    requires InMirror(p, c, site, plan, u) && Spared(p, c, site, plan, u)
    requires OnlyPruned(p, c, site, plan.Values, u, v)
    ensures InMirror(p, c, site, plan, v)
  {
  }

  /**
  Pruning can take a source for a leftover copy: a Cluster in the provider namespace may own a labelled secret there
  that the configuration now copies on. The copies survive every outcome of pruning if and only if no source is
  prunable.
   */
  lemma PruningSafeIffSpared(p: Params, c: NamespacedName, site: Site, plan: Names, u: World)
    requires InMirror(p, c, site, plan, u)
    ensures (forall v :: OnlyPruned(p, c, site, plan.Values, u, v) ==> InMirror(p, c, site, plan, v)) <==>
              Spared(p, c, site, plan, u)
  {
    if Spared(p, c, site, plan, u) {
      forall v | OnlyPruned(p, c, site, plan.Values, u, v) ensures InMirror(p, c, site, plan, v) {
        PruneKeepsMirror(p, c, site, plan, u, v);
      }
    } else {
      var s :| s in plan && Prunable(p, u, c, site, plan.Values, ProviderSecret(p, s));
      PrunedSourceSpoils(p, c, site, plan, u, s);
    }
    hide InMirror, OnlyPruned, Spared;
  }

  lemma PrunedSourceSpoils(p: Params, c: NamespacedName, site: Site, plan: Names, u: World, s: string)
    requires s in plan && Prunable(p, u, c, site, plan.Values, ProviderSecret(p, s))
    ensures var v := Gone(u, ProviderSecret(p, s));
            OnlyPruned(p, c, site, plan.Values, u, v) && !InMirror(p, c, site, plan, v)
  {
  }

  // ---------------------------------------------------------------- Flux sources

  ghost predicate SourceSettled(p: Params, c: NamespacedName, source: ChartSource, w: World) {
    && SelectedKind(source).Some?
    && var kind := SelectedKind(source).value;
       && Lookup(w, SourceKey(c, kind)) == Some(DeployedSource(p, c, kind, SelectedSpec(source), w))
       && forall k :: ObsoleteSource(p, w, c, kind, k) ==> w.objs[k].terminating
  }

  lemma SourceSettles(p: Params, c: NamespacedName, source: ChartSource, w: World, v: World)
    requires SourceDeployed(p, c, source, true, w, v) && SelectedKind(source).Some?
    requires OneSource(p, c, SelectedKind(source).value, v)
    ensures SourceSettled(p, c, source, v)
  {
    var kind := SelectedKind(source).value;
    var o := DeployedSource(p, c, kind, SelectedSpec(source), w);
    assert o.labels + ExpectedLabels(p, c) == o.labels;
    forall k | ObsoleteSource(p, v, c, kind, k) ensures v.objs[k].terminating {
      assert v.objs[k].terminating || LiveAt(p, v, c, Platform, k.kind, k);
    }
  }

  lemma SourceStandsStill(p: Params, c: NamespacedName, source: ChartSource, done: bool, w: World, v: World)
    requires SourceSettled(p, c, source, w) && SourceDeployed(p, c, source, done, w, v)
    ensures v == w
  {
    SameWorld(w, v);
  }

  lemma SameWorld(w: World, v: World)
    requires v == w.(objs := v.objs) && forall k :: Lookup(v, k) == Lookup(w, k)
    ensures v == w
  {
    forall k ensures k in v.objs <==> k in w.objs {
      assert Lookup(v, k) == Lookup(w, k);
    }
    forall k | k in w.objs ensures v.objs[k] == w.objs[k] {
      assert Lookup(v, k) == Lookup(w, k);
    }
    assert v.objs == w.objs;
  }

  // ---------------------------------------------------------------- the parts of a reconcile

  /** The platform cluster is ready for the HelmRelease: copies, no leftovers, the one source. */
  ghost predicate PlatformReady(p: Params, c: NamespacedName, config: Config, service: Service, w: World) {
    var plan := PlanFor(config, service, Platform);
    InMirror(p, c, Platform, plan, w) && Pruned(p, c, Platform, plan.Values, w) && SourceSettled(p, c, config.source, w)
  }

  ghost predicate TargetReady(p: Params, c: NamespacedName, config: Config, service: Service, w: World) {
    var plan := PlanFor(config, service, Target(c));
    NamespaceKey(c) in w.objs && InMirror(p, c, Target(c), plan, w) && Pruned(p, c, Target(c), plan.Values, w)
  }

  /** Both plans can be carried out in any order. */
  predicate PlansFit(p: Params, c: NamespacedName, config: Config, service: Service) {
    && Compatible(p, c, Platform, PlanFor(config, service, Platform))
    && Compatible(p, c, Target(c), PlanFor(config, service, Target(c)))
  }

  predicate SourcesSpared(p: Params, c: NamespacedName, config: Config, service: Service, w: World) {
    Spared(p, c, Platform, PlanFor(config, service, Platform), w)
  }

  lemma PlatformParts(p: Params, c: NamespacedName, config: Config, service: Service, w: World)
    requires PlatformReady(p, c, config, service, w)
    ensures var plan := PlanFor(config, service, Platform);
            InMirror(p, c, Platform, plan, w) && Pruned(p, c, Platform, plan.Values, w)
            && SourceSettled(p, c, config.source, w)
  {
  }

  lemma DeployableParts(p: Params, c: NamespacedName, config: Config, service: Service, w: World)
    requires Deployable(p, c, config, service, w)
    ensures SelectedKind(config.source).Some? && Copyable(p, c, Platform, PlanFor(config, service, Platform), w)
    ensures TargetCopyable(p, c, config, service, w)
  {
  }

  lemma StillSpared(p: Params, c: NamespacedName, config: Config, service: Service, w: World, v: World)
    requires SourcesSpared(p, c, config, service, w)
    requires forall k :: k != AccessKey(c) ==> Lookup(v, k) == Lookup(w, k)
    ensures SourcesSpared(p, c, config, service, v)
  {
    forall s | s in PlanFor(config, service, Platform)
      ensures !Prunable(p, v, c, Platform, PlanFor(config, service, Platform).Values, ProviderSecret(p, s))
    {
      assert Lookup(v, ProviderSecret(p, s)) == Lookup(w, ProviderSecret(p, s));
    }
  }

  /** Copying and then pruning. */
  lemma CopiesBecomeReady(p: Params, c: NamespacedName, site: Site, plan: Names, w: World, b: World, d: World)
    requires Compatible(p, c, site, plan) && Spared(p, c, site, plan, w)
    requires Mirrored(p, c, site, plan, w, b) && OnlyPruned(p, c, site, plan.Values, b, d)
    requires forall k :: LiveAt(p, d, c, site, Secret, k) ==> k.name in plan.Values
    ensures InMirror(p, c, site, plan, d) && Pruned(p, c, site, plan.Values, d)
    ensures forall k: Key :: !k.kind.Secret? || k.site != site ==> Lookup(d, k) == Lookup(w, k)
  {
    MirrorSettles(p, c, site, plan, w, b);
    SparedAfterCopy(p, c, site, plan, w, b);
    PruneKeepsMirror(p, c, site, plan, b, d);
    forall k ensures !Prunable(p, d, c, site, plan.Values, k) {
      assert Prunable(p, d, c, site, plan.Values, k) ==> LiveAt(p, d, c, site, Secret, k);
    }
    forall k: Key | !k.kind.Secret? || k.site != site ensures Lookup(d, k) == Lookup(w, k) {
      assert !IsDestination(c, site, plan, k);
      assert Lookup(d, k) == Lookup(b, k);
    }
  }

  lemma CopiesStayReady(p: Params, c: NamespacedName, site: Site, plan: Names, w: World, v: World)
    requires InMirror(p, c, site, plan, w) && Pruned(p, c, site, plan.Values, w)
    requires forall k: Key :: k.kind.Secret? && (k.site.Platform? || k.site == site) ==> Lookup(v, k) == Lookup(w, k)
    ensures InMirror(p, c, site, plan, v) && Pruned(p, c, site, plan.Values, v)
  {
    MirrorKept(p, c, site, plan, w, v);
    forall k ensures !Prunable(p, v, c, site, plan.Values, k) {
      assert !Prunable(p, w, c, site, plan.Values, k);
      assert k.site == site && k.kind.Secret? ==> Lookup(v, k) == Lookup(w, k);
    }
  }

  /** Copying, pruning and deploying the source, one after the other. */
  lemma PlatformBecomesReady(p: Params, c: NamespacedName, config: Config, service: Service, w: World, b: World,
                             d: World, e: World)
    requires PlansFit(p, c, config, service) && SourcesSpared(p, c, config, service, w)
    requires var plan := PlanFor(config, service, Platform);
             && Mirrored(p, c, Platform, plan, w, b)
             && OnlyPruned(p, c, Platform, plan.Values, b, d)
             && forall k :: LiveAt(p, d, c, Platform, Secret, k) ==> k.name in plan.Values
    requires SourceDeployed(p, c, config.source, true, d, e) && SelectedKind(config.source).Some?
    requires OneSource(p, c, SelectedKind(config.source).value, e)
    ensures PlatformReady(p, c, config, service, e)
    ensures Lookup(e, AccessKey(c)) == Lookup(w, AccessKey(c))
  {
    CopiesBecomeReady(p, c, Platform, PlanFor(config, service, Platform), w, b, d);
    SourceSettles(p, c, config.source, d, e);
    SelectedIsSource(config.source);
    OnlySourcesMoved(p, c, config.source, d, e);
    CopiesStayReady(p, c, Platform, PlanFor(config, service, Platform), d, e);
  }

  lemma OnlySourcesMoved(p: Params, c: NamespacedName, source: ChartSource, w: World, v: World)
    requires SourceDeployed(p, c, source, true, w, v)
    ensures forall k: Key :: !IsSourceKind(k.kind) ==> Lookup(v, k) == Lookup(w, k)
  {
  }

  lemma PlatformStaysReady(p: Params, c: NamespacedName, config: Config, service: Service, w: World, v: World)
    requires PlatformReady(p, c, config, service, w)
    requires forall k: Key :: k.site.Platform? && (k.kind.Secret? || IsSourceKind(k.kind)) ==>
               Lookup(v, k) == Lookup(w, k)
    ensures PlatformReady(p, c, config, service, v)
  {
    CopiesStayReady(p, c, Platform, PlanFor(config, service, Platform), w, v);
    SelectedIsSource(config.source);
    forall k | ObsoleteSource(p, v, c, SelectedKind(config.source).value, k) ensures v.objs[k].terminating {
      assert Lookup(v, k) == Lookup(w, k);
    }
  }

  /** Copying and pruning on the target cluster, whose namespace exists. */
  lemma TargetBecomesReady(p: Params, c: NamespacedName, config: Config, service: Service, w: World, b: World, d: World)
    requires PlansFit(p, c, config, service) && NamespaceKey(c) in w.objs
    requires var plan := PlanFor(config, service, Target(c));
             && Mirrored(p, c, Target(c), plan, w, b)
             && OnlyPruned(p, c, Target(c), plan.Values, b, d)
             && forall k :: LiveAt(p, d, c, Target(c), Secret, k) ==> k.name in plan.Values
    ensures TargetReady(p, c, config, service, d)
    ensures forall k: Key :: k.site.Platform? ==> Lookup(d, k) == Lookup(w, k)
  {
    CopiesBecomeReady(p, c, Target(c), PlanFor(config, service, Target(c)), w, b, d);
    assert Lookup(d, NamespaceKey(c)) == Lookup(w, NamespaceKey(c));
  }

  lemma TargetStaysReady(p: Params, c: NamespacedName, config: Config, service: Service, w: World, v: World)
    requires TargetReady(p, c, config, service, w)
    requires forall k: Key :: k.kind.Secret? || k.kind.Namespace? ==> Lookup(v, k) == Lookup(w, k)
    ensures TargetReady(p, c, config, service, v)
  {
    CopiesStayReady(p, c, Target(c), PlanFor(config, service, Target(c)), w, v);
    assert Lookup(v, NamespaceKey(c)) == Lookup(w, NamespaceKey(c));
  }

  // ---------------------------------------------------------------- when a reconcile goes through

  /**
  The sources of the target cluster's copies exist and are not taken for leftovers; their targets are free or owned.
   */
  ghost predicate TargetCopyable(p: Params, c: NamespacedName, config: Config, service: Service, w: World) {
    var keep, plan := PlanFor(config, service, Platform).Values, PlanFor(config, service, Target(c));
    forall s :: s in plan ==>
      && ProviderSecret(p, s) in w.objs && !Prunable(p, w, c, Platform, keep, ProviderSecret(p, s))
      && OwnedOrAbsent(p, c, w, CopyKey(c, Target(c), plan[s]))
  }

  /** Nothing stands in the way of a deployment: a source is configured, and all copies can be made. */
  ghost predicate Deployable(p: Params, c: NamespacedName, config: Config, service: Service, w: World) {
    && SelectedKind(config.source).Some?
    && Copyable(p, c, Platform, PlanFor(config, service, Platform), w)
    && TargetCopyable(p, c, config, service, w)
  }

  lemma StillDeployable(p: Params, c: NamespacedName, config: Config, service: Service, w: World, v: World)
    requires Deployable(p, c, config, service, w)
    requires forall k :: k != AccessKey(c) ==> Lookup(v, k) == Lookup(w, k)
    ensures Deployable(p, c, config, service, v)
  {
    SecretsDecide(p, c, Platform, PlanFor(config, service, Platform), w, v);
    var plan := PlanFor(config, service, Target(c));
    forall s | s in plan
      ensures ProviderSecret(p, s) in v.objs
      ensures !Prunable(p, v, c, Platform, PlanFor(config, service, Platform).Values, ProviderSecret(p, s))
      ensures OwnedOrAbsent(p, c, v, CopyKey(c, Target(c), plan[s]))
    {
      assert Lookup(v, ProviderSecret(p, s)) == Lookup(w, ProviderSecret(p, s));
      assert Lookup(v, CopyKey(c, Target(c), plan[s])) == Lookup(w, CopyKey(c, Target(c), plan[s]));
    }
  }

  lemma SecretsDecide(p: Params, c: NamespacedName, site: Site, plan: Names, w: World, v: World)
    requires Copyable(p, c, site, plan, w)
    requires forall k: Key :: k.kind.Secret? ==> Lookup(v, k) == Lookup(w, k)
    ensures Copyable(p, c, site, plan, v)
  {
  }

  /** Copying, pruning and deploying on the platform cluster leaves what the target cluster needs. */
  lemma TargetStaysCopyable(p: Params, c: NamespacedName, config: Config, service: Service, w: World, b: World,
                            d: World, e: World)
    requires TargetCopyable(p, c, config, service, w)
    requires Mirrored(p, c, Platform, PlanFor(config, service, Platform), w, b)
    requires OnlyPruned(p, c, Platform, PlanFor(config, service, Platform).Values, b, d)
    requires SourceDeployed(p, c, config.source, true, d, e)
    ensures Copyable(p, c, Target(c), PlanFor(config, service, Target(c)), e)
  {
    var plan := PlanFor(config, service, Target(c));
    OnlySourcesMoved(p, c, config.source, d, e);
    forall s | s in plan ensures Unhindered(p, c, Target(c), s, plan[s], e) {
      var source, target := ProviderSecret(p, s), CopyKey(c, Target(c), plan[s]);
      SourceSurvives(p, c, PlanFor(config, service, Platform), w, b, d, source);
      assert !IsDestination(c, Platform, PlanFor(config, service, Platform), target);
      assert Lookup(d, target) == Lookup(b, target) == Lookup(w, target);
      assert Lookup(e, source) == Lookup(d, source) && Lookup(e, target) == Lookup(d, target);
    }
  }

  lemma SourceSurvives(p: Params, c: NamespacedName, plan: Names, w: World, b: World, d: World, k: Key)
    requires k in w.objs && !Prunable(p, w, c, Platform, plan.Values, k)
    requires Mirrored(p, c, Platform, plan, w, b) && OnlyPruned(p, c, Platform, plan.Values, b, d)
    ensures k in d.objs
  {
    if IsDestination(c, Platform, plan, k) {
      var t :| t in plan && Destination(c, Platform, plan, t) == k;
      DestinationsSpared(p, c, Platform, plan, b, t);
    } else {
      assert b.objs[k] == w.objs[k];
    }
    assert Lookup(d, k) == Lookup(b, k);
  }
}
