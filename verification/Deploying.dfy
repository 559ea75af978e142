/** What deploying the Flux source and the HelmRelease does to the world. */
module Deploying {
  import opened Options
  import opened Kubernetes
  import opened Protocol

  /** A labelled Flux source that is not the one to be deployed. */
  predicate ObsoleteSource(p: Params, w: World, c: NamespacedName, kind: Kind, k: Key) {
    IsSourceKind(k.kind) && Listed(p, w, c, Platform, k.kind, c.namespace, k) && k != SourceKey(c, kind)
  }

  function DeployedSource(p: Params, c: NamespacedName, kind: Kind, spec: string, w: World): Obj {
    Deployed(Lookup(w, SourceKey(c, kind)), SourceSpec(spec), ExpectedLabels(p, c))
  }

  /** v differs from w in the deployed source and in live obsolete sources only. */
  ghost predicate OnlySources(p: Params, c: NamespacedName, kind: Kind, spec: string, w: World, v: World) {
    && v == w.(objs := v.objs)
    && (Lookup(v, SourceKey(c, kind)) == Lookup(w, SourceKey(c, kind))
        || Lookup(v, SourceKey(c, kind)) == Some(DeployedSource(p, c, kind, spec, w)))
    && forall k :: k != SourceKey(c, kind) && !(ObsoleteSource(p, w, c, kind, k) && !w.objs[k].terminating) ==>
         Lookup(v, k) == Lookup(w, k)
  }

  /** The one source that is left: of the chosen kind, under the derived name. */
  ghost predicate OneSource(p: Params, c: NamespacedName, kind: Kind, w: World) {
    forall other, k :: IsSourceKind(other) && LiveAt(p, w, c, Platform, other, k) ==> k == SourceKey(c, kind)
  }

  /** The outcome of deploying a source: if all calls succeeded, it holds the configured spec. */
  ghost predicate SourceReplaced(p: Params, c: NamespacedName, kind: Kind, spec: string, done: bool, w: World,
                                 v: World) {
    && OnlySources(p, c, kind, spec, w, v)
    && (done ==> Lookup(v, SourceKey(c, kind)) == Some(DeployedSource(p, c, kind, spec, w)))
  }

  /** The outcome of deploying the configured source. */
  ghost predicate SourceDeployed(p: Params, c: NamespacedName, source: ChartSource, done: bool, w: World, v: World) {
    match SelectedKind(source)
    case None => v == w && !done
    case Some(kind) => SourceReplaced(p, c, kind, SelectedSpec(source), done, w, v)
  }

  /**
  The object under k holds this spec and is being deleted only if it was before, and no other labelled source in the
  Cluster's namespace is alive.
   */
  ghost predicate SoleSource(p: Params, c: NamespacedName, k: Key, spec: string, w: World, v: World) {
    && k in v.objs && v.objs[k].body == SourceSpec(spec) && v.objs[k].terminating == TerminatingOf(Lookup(w, k))
    && forall q ::
         q in v.objs && q.site.Platform? && q.namespace == c.namespace
         && (q.kind.HelmRepository? || q.kind.GitRepository? || q.kind.OCIRepository?)
         && Labelled(p, c, v.objs[q]) && !v.objs[q].terminating ==>
           q == k
  }

  /** The one source is of the configured kind, of the first one if there are several: helm, git, oci. */
  ghost predicate ConfiguredSource(p: Params, c: NamespacedName, source: ChartSource, w: World, v: World) {
    var name := c.name + ".external-dns";
    match source
    case ChartSource(Some(spec), _, _) => SoleSource(p, c, Key(Platform, HelmRepository, c.namespace, name), spec, w, v)
    case ChartSource(_, Some(spec), _) => SoleSource(p, c, Key(Platform, GitRepository, c.namespace, name), spec, w, v)
    case ChartSource(_, _, Some(spec)) => SoleSource(p, c, Key(Platform, OCIRepository, c.namespace, name), spec, w, v)
    case _ => false
  }

  /** What is left after a successful deployment of the source is what is configured. */
  lemma DeployedIsConfigured(p: Params, c: NamespacedName, source: ChartSource, w: World, v: World)
    requires SourceDeployed(p, c, source, true, w, v) && SelectedKind(source).Some?
    requires OneSource(p, c, SelectedKind(source).value, v)
    ensures ConfiguredSource(p, c, source, w, v)
  {
    hide Labelled, ObsoleteSource;
    var kind := SelectedKind(source).value;
    assert Lookup(v, SourceKey(c, kind)) == Some(DeployedSource(p, c, kind, SelectedSpec(source), w));
    forall q | q in v.objs && q.site.Platform? && q.namespace == c.namespace && IsSourceKind(q.kind)
               && Labelled(p, c, v.objs[q]) && !v.objs[q].terminating
      ensures q == SourceKey(c, kind)
    {
      assert LiveAt(p, v, c, Platform, q.kind, q);
    }
  }

  lemma NothingReplaced(p: Params, c: NamespacedName, source: ChartSource, w: World)
    ensures SourceDeployed(p, c, source, false, w, w)
  {
  }

  /** All live labelled sources are listed, apart from the deployed one. */
  ghost predicate ListCovers(p: Params, c: NamespacedName, kind: Kind, items: seq<Key>, w: World) {
    forall other, k :: IsSourceKind(other) && LiveAt(p, w, c, Platform, other, k) ==>
      k in items || k == SourceKey(c, kind)
  }

  lemma ChosenCovers(m: Mode, p: Params, c: NamespacedName, kind: Kind, w: World,
                     helm: seq<Key>, git: seq<Key>, oci: seq<Key>, items: seq<Key>)
    requires SourceList(m, p, c, HelmRepository, helm, w)
    requires SourceList(m, p, c, GitRepository, git, w)
    requires SourceList(m, p, c, OCIRepository, oci, w)
    requires forall k :: k in items <==> (k in helm || k in git || k in oci) && k != SourceKey(c, kind)
    ensures ListCovers(p, c, kind, items, w)
    ensures forall k :: k in items ==> IsPlatformSource(c, k) && k != SourceKey(c, kind)
    ensures !m.Free? ==> forall k :: k in items ==> OwnedOrAbsent(p, c, w, k)
    ensures m.Quiet? ==> forall k :: k in items <==> ObsoleteSource(p, w, c, kind, k)
  {
  }

  lemma OneSourceLeft(p: Params, c: NamespacedName, kind: Kind, items: seq<Key>, w: World, u: World, v: World)
    requires ListCovers(p, c, kind, items, w)
    requires forall site, other, k :: LiveAt(p, u, c, site, other, k) ==>
               k == SourceKey(c, kind) || LiveAt(p, w, c, site, other, k)
    requires Shrunk(p, c, u, v)
    requires forall k :: k in items ==> !LiveAt(p, v, c, k.site, k.kind, k)
    ensures OneSource(p, c, kind, v)
  {
  }

  lemma SourceThenCleanup(p: Params, c: NamespacedName, kind: Kind, spec: string, items: seq<Key>, w: World, u: World,
                          v: World, done: bool)
    requires forall k :: k in items <==> ObsoleteSource(p, w, c, kind, k)
    requires u == Write(w, SourceKey(c, kind), DeployedSource(p, c, kind, spec, w)) || (!done && u == w)
    requires OnlyDeleted(items, {}, u, v)
    ensures SourceReplaced(p, c, kind, spec, done, w, v)
  {
  }

  /**
  Source convergence: after a successful deployment from any set of labelled sources, the chosen source under the
  derived name is the one that is alive, if and only if an object of that kind and name was not being deleted before.
   */
  lemma ConvergesIffNotTerminating(p: Params, c: NamespacedName, kind: Kind, spec: string, w: World, v: World)
    requires SourceReplaced(p, c, kind, spec, true, w, v) && OneSource(p, c, kind, v) && IsSourceKind(kind)
    ensures (exists other, k :: IsSourceKind(other) && LiveAt(p, v, c, Platform, other, k))
            <==> !TerminatingOf(Lookup(w, SourceKey(c, kind)))
    ensures !TerminatingOf(Lookup(w, SourceKey(c, kind))) ==>
              (forall other, k :: IsSourceKind(other) && LiveAt(p, v, c, Platform, other, k) <==>
                 other == kind && k == SourceKey(c, kind))
              && v.objs[SourceKey(c, kind)].body == SourceSpec(spec)
  {
    assert LiveAt(p, v, c, Platform, kind, SourceKey(c, kind)) <==> !TerminatingOf(Lookup(w, SourceKey(c, kind)));
  }
}
