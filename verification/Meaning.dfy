/**
What the reconciler's states, conditions and decisions come to when names, namespaces, labels and precedence are written
out: which objects, under which keys, with which contents.
 */
module Meaning {
  import opened Options
  import opened Kubernetes
  import opened Protocol
  import opened ApiServers
  import opened CopyPlan
  import opened Mirroring
  import opened Deploying
  import opened Settling
  import opened Reconciling

  /** An object carries this Cluster's labels. */
  predicate Marked(p: Params, c: NamespacedName, o: Obj) {
    && MANAGED_BY in o.labels && o.labels[MANAGED_BY] == p.providerName + ".DNSCluster"
    && MANAGED_PURPOSE in o.labels && o.labels[MANAGED_PURPOSE] == c.name
  }

  lemma SameLabels(p: Params, c: NamespacedName, o: Obj)
    ensures Labelled(p, c, o) <==> Marked(p, c, o)
  {
  }

  /** A live secret with the Cluster's labels that has no business on this cluster any more. */
  ghost predicate Leftover(p: Params, c: NamespacedName, config: Config, service: Service, site: Site, w: World,
                           k: Key) {
    && k == PlaceOnSite(c, site, k.name) && k in w.objs && Marked(p, c, w.objs[k]) && !w.objs[k].terminating
    && forall s :: !AskedFor(config, service, site, s, k.name)
  }

  lemma PrunableIsLeftover(p: Params, c: NamespacedName, config: Config, service: Service, site: Site, w: World, k: Key)
    ensures Prunable(p, w, c, site, PlanFor(config, service, site).Values, k) <==>
              Leftover(p, c, config, service, site, w, k)
  {
    hide PlanFor, AskedFor;
    PlansAreAsked(config, service, site);
    var plan := PlanFor(config, service, site);
    if k.name in plan.Values {
      var s :| s in plan && plan[s] == k.name;
      assert AskedFor(config, service, site, s, k.name);
    }
  }

  // ---------------------------------------------------------------- states

  lemma MirrorArrived(p: Params, c: NamespacedName, config: Config, service: Service, site: Site, w: World)
    requires InMirror(p, c, site, PlanFor(config, service, site), w)
    ensures CopiesArrived(p, c, config, service, site, w, w)
  {
    hide PlanFor, CopiesArrived;
    assert Mirrored(p, c, site, PlanFor(config, service, site), w, w);
    MirroredArrived(p, c, config, service, site, w, w);
  }

  lemma NoLeftovers(p: Params, c: NamespacedName, config: Config, service: Service, site: Site, w: World)
    requires Pruned(p, c, site, PlanFor(config, service, site).Values, w)
    ensures forall k :: !Leftover(p, c, config, service, site, w, k)
  {
    hide Leftover, PlanFor, Prunable;
    forall k ensures !Leftover(p, c, config, service, site, w, k) {
      PrunableIsLeftover(p, c, config, service, site, w, k);
    }
  }

  lemma SettledSource(p: Params, c: NamespacedName, source: ChartSource, w: World)
    requires SourceSettled(p, c, source, w)
    ensures ConfiguredSource(p, c, source, w, w)
  {
    hide Labelled;
    forall q | q in w.objs && q.site.Platform? && q.namespace == c.namespace && IsSourceKind(q.kind)
               && Labelled(p, c, w.objs[q]) && !w.objs[q].terminating
      ensures q == SourceKey(c, SelectedKind(source).value)
    {
      assert !ObsoleteSource(p, w, c, SelectedKind(source).value, q);
    }
  }

  lemma SettledRelease(p: Params, c: NamespacedName, config: Config, purpose: PurposeConfig, w: World)
    requires ReleaseReady(p, c, config, purpose, w)
    ensures var access, release := Key(Platform, AccessRequest, c.namespace, c.name),
                                   Key(Platform, HelmRelease, c.namespace, c.name + ".external-dns");
            && access in w.objs && release in w.objs && Marked(p, c, w.objs[release])
            && match config.source
               case ChartSource(Some(_), _, _) => ReleaseSays(p, c, purpose, HelmRepository, w.objs[access], w)
               case ChartSource(_, Some(_), _) => ReleaseSays(p, c, purpose, GitRepository, w.objs[access], w)
               case _ => ReleaseSays(p, c, purpose, OCIRepository, w.objs[access], w)
  {
    hide Rendered;
  }

  /**
  The end of a deployment: the namespace on the target cluster, the copies and no others, the source, and a HelmRelease
  that refers to it and to the kubeconfig of the AccessRequest.
   */
  lemma SettledMeans(p: Params, c: NamespacedName, config: Config, service: Service, purpose: PurposeConfig, w: World)
    requires Settled(p, c, config, service, purpose, w)
    ensures Key(Target(c), Namespace, "", "external-dns") in w.objs
    ensures CopiesArrived(p, c, config, service, Platform, w, w)
    ensures CopiesArrived(p, c, config, service, Target(c), w, w)
    ensures forall k :: !Leftover(p, c, config, service, Platform, w, k)
    ensures forall k :: !Leftover(p, c, config, service, Target(c), w, k)
    ensures ConfiguredSource(p, c, config.source, w, w)
    ensures var access := Key(Platform, AccessRequest, c.namespace, c.name);
            && access in w.objs
            && match config.source
               case ChartSource(Some(_), _, _) => ReleaseSays(p, c, purpose, HelmRepository, w.objs[access], w)
               case ChartSource(_, Some(_), _) => ReleaseSays(p, c, purpose, GitRepository, w.objs[access], w)
               case _ => ReleaseSays(p, c, purpose, OCIRepository, w.objs[access], w)
    ensures var release := Key(Platform, HelmRelease, c.namespace, c.name + ".external-dns");
            release in w.objs && Marked(p, c, w.objs[release])
  {
    hide PlanFor, CopiesArrived, Leftover, ConfiguredSource, ReleaseSays, InMirror, Pruned, SourceSettled, ReleaseReady;
    MirrorArrived(p, c, config, service, Platform, w);
    MirrorArrived(p, c, config, service, Target(c), w);
    NoLeftovers(p, c, config, service, Platform, w);
    NoLeftovers(p, c, config, service, Target(c), w);
    SettledSource(p, c, config.source, w);
    SettledRelease(p, c, config, purpose, w);
  }

  /** Nothing of the Cluster is left: the state in which the finalizer is off. */
  lemma CleanMeans(p: Params, w: World, c: NamespacedName)
    ensures Clean(p, w, c) <==>
              && Key(Platform, HelmRelease, c.namespace, c.name + ".external-dns") !in w.objs
              && Key(Platform, AccessRequest, c.namespace, c.name) !in w.objs
              && forall k ::
                   k in w.objs && k.site.Platform? && k.namespace == c.namespace && Marked(p, c, w.objs[k])
                   && (k.kind.Secret? || k.kind.HelmRepository? || k.kind.GitRepository? || k.kind.OCIRepository?) ==>
                     w.objs[k].terminating
  {
    forall k | k in w.objs ensures Labelled(p, c, w.objs[k]) <==> Marked(p, c, w.objs[k]) {
      SameLabels(p, c, w.objs[k]);
    }
    hide Labelled, Marked;
    forall k | k in w.objs && k.namespace == c.namespace
      ensures LiveAt(p, w, c, Platform, k.kind, k) <==>
              k.site.Platform? && Labelled(p, c, w.objs[k]) && !w.objs[k].terminating
    {
    }
  }

  // ---------------------------------------------------------------- conditions

  /**
  A secret can be copied: it is there, and its place is itself, or free, or holds a secret with the Cluster's labels.
   */
  predicate CanCopy(p: Params, c: NamespacedName, site: Site, s: string, t: string, w: World) {
    var source, place := Key(Platform, Secret, p.providerNamespace, s), PlaceOnSite(c, site, t);
    source in w.objs && (place == source || place !in w.objs || Marked(p, c, w.objs[place]))
  }

  lemma UnhinderedMeans(p: Params, c: NamespacedName, site: Site, s: string, t: string, w: World)
    ensures Unhindered(p, c, site, s, t, w) <==> CanCopy(p, c, site, s, t, w)
  {
  }

  /**
  The names asked for do not get into each other's way: no two copies in one place, none in place of another's source.
   */
  ghost predicate Apart(p: Params, c: NamespacedName, config: Config, service: Service, site: Site) {
    forall s, t, other, name ::
      && AskedFor(config, service, site, s, t) && AskedFor(config, service, site, other, name)
      && (t == name || PlaceOnSite(c, site, t) == Key(Platform, Secret, p.providerNamespace, other)) ==>
        s == other
  }

  /** The two plans can be carried out in any order if and only if the names are apart. */
  lemma PlansFitMeans(p: Params, c: NamespacedName, config: Config, service: Service)
    ensures PlansFit(p, c, config, service) <==>
              Apart(p, c, config, service, Platform) && Apart(p, c, config, service, Target(c))
  {
    CompatibleMeans(p, c, config, service, Platform);
    CompatibleMeans(p, c, config, service, Target(c));
    hide Compatible, PlanFor, Apart;
  }

  lemma CompatibleMeans(p: Params, c: NamespacedName, config: Config, service: Service, site: Site)
    requires site == Platform || site == Target(c)
    ensures Compatible(p, c, site, PlanFor(config, service, site)) <==> Apart(p, c, config, service, site)
  {
    hide PlanFor, AskedFor;
    PlansAreAsked(config, service, site);
    var plan := PlanFor(config, service, site);
    assert forall s :: s in plan ==> AskedFor(config, service, site, s, plan[s]);
  }

  /** No source of a copy on the platform cluster is a leftover there. */
  lemma SourcesSparedMeans(p: Params, c: NamespacedName, config: Config, service: Service, w: World)
    ensures SourcesSpared(p, c, config, service, w) <==>
              forall s, t :: AskedFor(config, service, Platform, s, t) ==>
                !Leftover(p, c, config, service, Platform, w, Key(Platform, Secret, p.providerNamespace, s))
  {
    hide PlanFor, AskedFor, Leftover;
    PlansAreAsked(config, service, Platform);
    var plan := PlanFor(config, service, Platform);
    assert forall s :: s in plan ==> AskedFor(config, service, Platform, s, plan[s]);
    forall s
      ensures Prunable(p, w, c, Platform, plan.Values, ProviderSecret(p, s)) <==>
              Leftover(p, c, config, service, Platform, w, Key(Platform, Secret, p.providerNamespace, s))
    {
      PrunableIsLeftover(p, c, config, service, Platform, w, ProviderSecret(p, s));
    }
  }

  /**
  When a deployment with access goes through: one of the three sources is configured, everything that is asked for on
  either cluster can be copied, and no source of a copy on the target cluster is a leftover on the platform cluster.
   */
  lemma DeployableMeans(p: Params, c: NamespacedName, config: Config, service: Service, w: World)
    ensures Deployable(p, c, config, service, w) <==>
              && (config.source.helm.Some? || config.source.git.Some? || config.source.oci.Some?)
              && (forall s, t :: AskedFor(config, service, Platform, s, t) ==> CanCopy(p, c, Platform, s, t, w))
              && (forall s, t :: AskedFor(config, service, Target(c), s, t) ==>
                    && CanCopy(p, c, Target(c), s, t, w)
                    && !Leftover(p, c, config, service, Platform, w, Key(Platform, Secret, p.providerNamespace, s)))
  {
    CopyableMeans(p, c, config, service, Platform, w);
    CopyableMeans(p, c, config, service, Target(c), w);
    PlansAreAsked(config, service, Target(c));
    hide PlanFor, AskedFor, Leftover, CanCopy;
    var plan := PlanFor(config, service, Target(c));
    assert forall s :: s in plan ==> AskedFor(config, service, Target(c), s, plan[s]);
    forall s
      ensures Prunable(p, w, c, Platform, PlanFor(config, service, Platform).Values, ProviderSecret(p, s)) <==>
              Leftover(p, c, config, service, Platform, w, Key(Platform, Secret, p.providerNamespace, s))
    {
      PrunableIsLeftover(p, c, config, service, Platform, w, ProviderSecret(p, s));
    }
    assert forall s :: s in plan ==> (Unhindered(p, c, Target(c), s, plan[s], w) <==>
      ProviderSecret(p, s) in w.objs && OwnedOrAbsent(p, c, w, CopyKey(c, Target(c), plan[s])));
    assert TargetCopyable(p, c, config, service, w) <==>
      Copyable(p, c, Target(c), plan, w)
      && forall s :: s in plan ==> !Leftover(p, c, config, service, Platform, w, ProviderSecret(p, s));
  }

  lemma CopyableMeans(p: Params, c: NamespacedName, config: Config, service: Service, site: Site, w: World)
    ensures Copyable(p, c, site, PlanFor(config, service, site), w) <==>
              forall s, t :: AskedFor(config, service, site, s, t) ==> CanCopy(p, c, site, s, t, w)
  {
    hide PlanFor, AskedFor, Unhindered, CanCopy;
    PlansAreAsked(config, service, site);
    var plan := PlanFor(config, service, site);
    forall s, t ensures Unhindered(p, c, site, s, t, w) <==> CanCopy(p, c, site, s, t, w) {
      UnhinderedMeans(p, c, site, s, t, w);
    }
    assert forall s :: s in plan ==> AskedFor(config, service, site, s, plan[s]);
  }

  /** No Flux source under the derived name and no AccessRequest of the Cluster is being deleted. */
  lemma CalmMeans(c: NamespacedName, w: World)
    ensures Calm(w, c) <==>
              forall k ::
                && k in w.objs && k.site.Platform? && k.namespace == c.namespace
                && (((k.kind.HelmRepository? || k.kind.GitRepository? || k.kind.OCIRepository?)
                     && k.name == c.name + ".external-dns")
                    || (k.kind.AccessRequest? && k.name == c.name)) ==>
                  !w.objs[k].terminating
  {
  }

  /** Access can be had: the AccessRequest is granted and stays, and the finalizer is on or may be put on. */
  lemma ObtainableMeans(c: NamespacedName, cluster: Cluster, w: World)
    ensures var access := Key(Platform, AccessRequest, c.namespace, c.name);
            Obtainable(c, cluster, w) <==>
              && access in w.objs && !w.objs[access].terminating
              && (exists secret :: w.objs[access].body == Grant(true, secret))
              && (cluster.finalizer || (c in w.clusters && !w.clusters[c].deleting))
  {
    var access := Key(Platform, AccessRequest, c.namespace, c.name);
    if access in w.objs && w.objs[access].body.Grant? {
      assert w.objs[access].body == Grant(w.objs[access].body.granted, w.objs[access].body.kubeconfigSecret);
    }
  }

  /** After a deployment nothing stands in the way of the next one. */
  lemma SettledIsDeployable(p: Params, c: NamespacedName, config: Config, service: Service, purpose: PurposeConfig,
                            w: World)
    requires Settled(p, c, config, service, purpose, w)
    ensures Deployable(p, c, config, service, w)
  {
    hide PlanFor, ReleaseReady;
    MirrorIsCopyable(p, c, Platform, PlanFor(config, service, Platform), w);
    MirrorIsCopyable(p, c, Target(c), PlanFor(config, service, Target(c)), w);
    hide InMirror, Prunable;
    var plan := PlanFor(config, service, Target(c));
    assert forall s :: s in plan ==> Unhindered(p, c, Target(c), s, plan[s], w);
  }

  lemma MirrorIsCopyable(p: Params, c: NamespacedName, site: Site, plan: Names, w: World)
    requires InMirror(p, c, site, plan, w)
    ensures Copyable(p, c, site, plan, w)
  {
  }

  // ---------------------------------------------------------------- decisions

  /** An operation is in force: the DNS-specific annotation says so, or there is none and the generic one does. */
  predicate InForce(cluster: Cluster, operation: string) {
    match cluster.dnsOperation
    case Some(value) => value == operation
    case None => cluster.operation == Some(operation)
  }

  lemma OperationsByCases(cluster: Cluster)
    ensures EffectiveOperation(cluster) == Some("ignore") <==> InForce(cluster, "ignore")
    ensures EffectiveOperation(cluster) == Some("reconcile") <==> InForce(cluster, "reconcile")
  {
  }

  /** What makes a reconcile deploy, and what makes it tear down. */
  lemma DecisionMeans(c: NamespacedName, w: World)
    ensures ToDeploy(c, w) || ToTearDown(c, w) <==>
              c in w.clusters && !InForce(w.clusters[c], "ignore") && w.config.Some? && w.service.Some?
    ensures ToDeploy(c, w) <==>
              && (ToDeploy(c, w) || ToTearDown(c, w)) && !w.clusters[c].deleting
              && exists entry :: entry in w.config.value.purposes && Applies(entry, w.clusters[c].purposes)
    ensures ToDeploy(c, w) ==>
              IsFirstMatch(w.config.value.purposes, w.clusters[c].purposes, Some(Chosen(w.clusters[c], w).value))
    ensures !(ToDeploy(c, w) && ToTearDown(c, w))
  {
    hide Applies, IsFirstMatch, Choice;
    if c in w.clusters && w.config.Some? {
      ChoiceIsFirstMatch(w.config.value.purposes, w.clusters[c].purposes);
      MatchedIffChosen(w.config.value, w.clusters[c].purposes);
    }
  }

  // ---------------------------------------------------------------- written objects

  /** The entries of both maps, those of `over` where both have one. */
  ghost predicate Overlaid(base: Labels, over: Labels, result: Labels) {
    && result.Keys == base.Keys + over.Keys
    && forall l :: l in result ==> result[l] == if l in over then over[l] else base[l]
  }

  lemma SumOverlays(base: Labels, over: Labels)
    ensures Overlaid(base, over, base + over)
  {
  }

  lemma OwnLabels(p: Params, c: NamespacedName)
    ensures ExpectedLabels(p, c) == map[MANAGED_BY := p.providerName + ".DNSCluster", MANAGED_PURPOSE := c.name]
  {
    assert ManagedByValue(p) == p.providerName + ".DNSCluster";
  }

  /** A copy in a free place: what the source has, under the Cluster's own labels. */
  lemma NewCopy(p: Params, c: NamespacedName, source: Obj)
    ensures var own := map[MANAGED_BY := p.providerName + ".DNSCluster", MANAGED_PURPOSE := c.name];
            var copy := CopyOf(None, source, ExpectedLabels(p, c));
            && copy == Obj(copy.labels, source.annotations, false, source.body)
            && Overlaid(source.labels, own, copy.labels)
  {
    OwnLabels(p, c);
    hide Overlaid, ExpectedLabels;
    SumOverlays(source.labels, ExpectedLabels(p, c));
    assert map[] + source.labels == source.labels && map[] + source.annotations == source.annotations;
  }

  /**
  A copy over something else has the source's data and type; the source's annotations and labels, and over these the
  Cluster's own labels, are laid over what was there.
   */
  lemma RenewedCopy(p: Params, c: NamespacedName, before: Obj, source: Obj) returns (labels: Labels)
    ensures var own := map[MANAGED_BY := p.providerName + ".DNSCluster", MANAGED_PURPOSE := c.name];
            var copy := CopyOf(Some(before), source, ExpectedLabels(p, c));
            && copy == Obj(copy.labels, copy.annotations, before.terminating, source.body)
            && Overlaid(before.labels, source.labels, labels) && Overlaid(labels, own, copy.labels)
            && Overlaid(before.annotations, source.annotations, copy.annotations)
  {
    labels := before.labels + source.labels;
    OwnLabels(p, c);
    hide Overlaid, ExpectedLabels;
    SumOverlays(before.labels, source.labels);
    SumOverlays(labels, ExpectedLabels(p, c));
    SumOverlays(before.annotations, source.annotations);
  }

  /**
  A source or a HelmRelease that is written keeps its annotations and its other labels, and gets all of its new body.
   */
  lemma DeployedCarries(p: Params, c: NamespacedName, before: Obj, body: Body)
    ensures var own := map[MANAGED_BY := p.providerName + ".DNSCluster", MANAGED_PURPOSE := c.name];
            && Deployed(None, body, ExpectedLabels(p, c)) == Obj(own, map[], false, body)
            && var o := Deployed(Some(before), body, ExpectedLabels(p, c));
               && Overlaid(before.labels, own, o.labels)
               && o == Obj(o.labels, before.annotations, before.terminating, body)
  {
    OwnLabels(p, c);
    hide Overlaid, ExpectedLabels;
    SumOverlays(before.labels, ExpectedLabels(p, c));
    assert map[] + ExpectedLabels(p, c) == ExpectedLabels(p, c);
  }
}
