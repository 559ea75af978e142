/** The Cluster reconciler. */
module Controller {
  import opened Options
  import opened Kubernetes
  import opened Protocol
  import opened ApiServers
  import opened CopyPlan
  import opened Mirroring
  import opened Deploying
  import opened Safety
  import opened Settling
  import opened Templating
  import opened Reconciling
  import opened Meaning
  import Selecting
  import SelectorGraph
  import Selectors

  /** What the copy loop decides about an entry of the plan after its checks. */
  datatype CopyDecision = Refuse(error: Error) | Skip | Copy(source: Obj)

  class ClusterReconciler {
    const api: ApiServer
    var known: set<NamespacedName>

    constructor (api: ApiServer)
      ensures this.api == api && known == {}
    {
      this.api, known := api, {};
    }

    /** The stretch since some earlier point. */
    twostate function Since(c: NamespacedName): Stretch
      reads api, api.library
    {
      Stretch(old(api.Now()), old(api.library.Torn(c)), api.Now(), api.library.Torn(c))
    }

    /** In the middle of a reconcile of a Cluster that carries the finalizer. */
    ghost predicate Working(c: NamespacedName)
      reads this, api
    {
      api.Consistent() && HasFinalizer(api.w, c)
    }

    // ---------------------------------------------------------------- known Clusters and event handlers

    method AddKnownCluster(c: NamespacedName)
      modifies this`known
      ensures known == old(known) + {c}
    {
      known := known + {c};
    }

    method RemoveKnownCluster(c: NamespacedName)
      modifies this`known
      ensures known == old(known) - {c}
    {
      known := known - {c};
    }

    /** The known Clusters in some order, each once. This is also the handler for changes of the configuration. */
    method ListKnownClusters() returns (list: seq<NamespacedName>)
      ensures forall c :: c in list <==> c in known
      ensures |list| == |known|
    {
      list := [];
      var rest := known;
      while rest != {}
        invariant rest <= known && (forall c :: c in list <==> c in known && c !in rest)
        invariant |list| + |rest| == |known|
        decreases rest
      {
        var c :| c in rest;
        rest := rest - {c};
        list := list + [c];
      }
    }

    /**
    The handler for changed secrets. `read` is what it read of the configuration and the service, if both reads
    succeeded and found something: then the requests are all known Clusters if the secret is referenced there, and none
    otherwise; a read that fails or finds nothing yields no request.
     */
    method MapSecretToRequests(namespace: string, name: string)
        returns (requests: seq<NamespacedName>, ghost read: Option<(Config, Service)>)
      requires api.Consistent()
      modifies api
      ensures api.Consistent() && api.Skipped()
      ensures namespace != api.p.providerNamespace || old(api.down) ==> read.None?
      ensures read.None? ==> requests == []
      ensures read.Some? ==> forall c :: c in requests <==>
                c in known && name in Referenced(read.value.0, Some(read.value.1))
      ensures read.Some? ==> exists v :: Env(api.mode, api.p, old(api.w), v) && v.config == Some(read.value.0)
      ensures read.Some? ==> exists v :: Env(api.mode, api.p, old(api.w), v) && v.service == Some(read.value.1)
      ensures api.mode.Quiet? && api.reliable && namespace == api.p.providerNamespace
              && old(api.w).config.Some? && old(api.w).service.Some? ==>
                read.Some?
    {
      hide ApiServer.Consistent, ClustersMove, ObjectsMove, OrderlyMove, Referenced;
      EnvReflexive(api.mode, api.p, api.w);
      ghost var w := api.w;
      requests, read := [], None;
      if namespace != api.p.providerNamespace { return; }
      var ok, config := api.GetConfig();
      ghost var v := api.w;
      if !ok || config.None? { return; }
      var service;
      ok, service := api.GetService();
      EnvTransitive(api.mode, api.p, w, v, api.w);
      if !ok || service.None? { return; }
      read := Some((config.value, service.value));
      var names := ExtractReferencedSecretNames(config.value, service);
      if name !in names { return; }
      requests := ListKnownClusters();
    }

    // ---------------------------------------------------------------- secrets

    /** The first half of a round of the copy loop: the source is read, and the place of the copy is checked. */
    method CheckCopy(c: NamespacedName, site: Site, source: string, target: string)
        returns (r: CopyDecision, ghost checked: World)
      requires Working(c) && c in known
      requires site == Platform || site == Target(c)
      modifies api
      ensures Working(c) && api.Did(c, SecretsAt(site))
      ensures r.Copy? ==> api.CheckedFor(c, CopyKey(c, site, target), checked)
      ensures api.mode.Quiet? ==>
                && api.w == old(api.w)
                && (r.Skip? || r.Copy? ==> ProviderSecret(api.p, source) in old(api.w).objs)
                && (!r.Refuse? ==> PlaceFree(api.p, c, site, source, target, old(api.w)))
                && (r.Skip? ==> CopyKey(c, site, target) == ProviderSecret(api.p, source))
                && (r.Copy? ==>
                      && CopyKey(c, site, target) != ProviderSecret(api.p, source)
                      && r.source == old(api.w).objs[ProviderSecret(api.p, source)] && checked == old(api.w))
      ensures api.mode.Quiet? && api.reliable ==>
                && (!r.Refuse? <==> Unhindered(api.p, c, site, source, target, old(api.w)))
                && (r == Refuse(ConfigurationProblem) <==>
                      ProviderSecret(api.p, source) in old(api.w).objs
                      && !Unhindered(api.p, c, site, source, target, old(api.w)))
    {
      hide ApiServer.Consistent, Env, Run, Legal, Progressed, Shrunk, OwnedOrAbsent, OnTheWay;
      var m, p := api.mode, api.p;
      var key := CopyKey(c, site, target);
      ghost var a := api.Now();
      var s := api.GetSource(c, source, c in known);
      ghost var b := api.Now();
      checked := b.world;
      Widen(m, p, c, Nobody, SecretsAt(site), a, b);
      if !s.Found? { return Refuse(PlatformProblem), checked; }
      if site.Platform? && key.namespace == p.providerNamespace && target == source { return Skip, checked; }
      api.OnTheRun();
      var t := api.Get(key);
      ghost var d := api.Now();
      EnvProgresses(m, p, c, Nobody, b.world, d.world, d.log);
      LookedAround(m, p, c, b.world, d.world, d.log);
      Chain(m, p, c, SecretsAt(site), a, Nobody, b, Nobody, d);
      if t.Failed? { return Refuse(InteractionProblem(site)), checked; }
      if t.Found? && !Labelled(p, c, t.obj) {
        StillForeign(p, c, b.world, d.world, key);
        return Refuse(ConfigurationProblem), checked;
      }
      Checked(p, c, b.world, key);
      if !m.Free? { KeepsOwnership(m, p, c, Nobody, b, d, key); }
      return Copy(s.obj), checked;
    }

    /** The second half: the copy is written. */
    method WriteCopy(c: NamespacedName, site: Site, target: string, source: Obj, ghost checked: World)
        returns (problem: Option<Error>)
      requires Working(c) && api.CheckedFor(c, CopyKey(c, site, target), checked)
      requires site == Platform || site == Target(c)
      modifies api
      ensures Working(c) && api.Did(c, SecretsAt(site))
      ensures api.Applied(c, PutSecret(CopyKey(c, site, target), checked),
                          WithCopy(api.p, c, site, target, source, old(api.w)))
              || (problem.Some? && api.Skipped())
      ensures api.mode.Quiet? ==>
                api.w == WithCopy(api.p, c, site, target, source, old(api.w)) || (problem.Some? && api.w == old(api.w))
      ensures api.mode.Quiet? && problem.None? ==>
                var key := CopyKey(c, site, target);
                key in api.w.objs && IsCopy(api.p, c, api.w.objs[key], source, false)
      ensures api.reliable ==> problem.None?
      ensures problem.Some? ==> problem == Some(if site.Platform? then PlatformProblem else TargetProblem)
    {
      hide ApiServer.Consistent, ApiServer.CheckedFor, Env, Run, Legal, Recalls, Progressed, Shrunk, LiveAt, CopyOf,
        Labelled, OwnedOrAbsent, OnTheWay, HasFinalizer, ExpectedLabels;
      var m, p := api.mode, api.p;
      var key := CopyKey(c, site, target);
      ghost var a := api.Now();
      var labels := ExpectedLabels(p, c);
      api.CopyLegal(c, key, source, checked);
      var mutate := current => CopyOf(current, source, labels);
      CopyIsCopy(p, c, Lookup(api.w, key), source);
      var ok := api.CreateOrUpdate(c, PutSecret(key, checked), key, mutate);
      Widen(m, p, c, One(key), SecretsAt(site), a, api.Now());
      problem := if ok then None else Some(InteractionProblem(site));
    }

    /** One round of the copy loop. */
    method CopySecret(c: NamespacedName, site: Site, source: string, target: string) returns (problem: Option<Error>)
      requires Working(c) && c in known
      requires site == Platform || site == Target(c)
      modifies api
      ensures Working(c) && api.Did(c, SecretsAt(site))
      ensures api.mode.Quiet? ==>
                || (problem.Some? && api.w == old(api.w))
                || (ProviderSecret(api.p, source) in old(api.w).objs
                    && api.w == AfterCopy(api.p, c, site, source, target, old(api.w)))
      ensures api.mode.Quiet? && problem.None? ==> PlaceFree(api.p, c, site, source, target, old(api.w))
      ensures api.mode.Quiet? && api.reliable ==>
                && (problem.None? <==> Unhindered(api.p, c, site, source, target, old(api.w)))
                && (problem == Some(ConfigurationProblem) <==>
                      ProviderSecret(api.p, source) in old(api.w).objs
                      && !Unhindered(api.p, c, site, source, target, old(api.w)))
    {
      hide ApiServer.Consistent, Env, Run, Legal, Progressed, Shrunk, OwnedOrAbsent, ApiServer.CheckedFor;
      ghost var a := api.Now();
      var decision, checked := CheckCopy(c, site, source, target);
      ghost var b := api.Now();
      match decision
      case Refuse(error) => return Some(error);
      case Skip => return None;
      case Copy(secret) =>
        problem := WriteCopy(c, site, target, secret, checked);
        Chain(api.mode, api.p, c, SecretsAt(site), a, SecretsAt(site), b, SecretsAt(site), api.Now());
    }

    /**
    Entries of the plan were copied in some order, and nothing else was done; left alone by everybody else, exactly
    that.
     */
    twostate predicate CopiedInOrder(c: NamespacedName, site: Site, plan: Names, order: seq<string>)
      reads api
    {
      && api.Did(c, SecretsAt(site))
      && InPlan(order, plan) && Once(order)
      && (api.mode.Quiet? ==>
            && ReadInOrder(api.p, c, site, plan, order, old(api.w))
            && api.w == CopiesInOrder(api.p, c, site, plan, order, old(api.w)))
    }

    method CopySecrets(c: NamespacedName, rr: ReconcileResult, site: Site)
        returns (r: ReconcileResult, copied: set<string>, ghost order: seq<string>)
      requires Working(c) && c in known
      requires rr.providerConfig.Some? && rr.platformService.Some?
      requires site == Platform || site == Target(c)
      modifies api
      ensures Working(c) && CopiedInOrder(c, site, PlanFor(rr.providerConfig.value, rr.platformService.value, site),
                                          order)
      ensures r == rr.(error := r.error) && (rr.error.Some? ==> r.error.Some?)
      ensures r.error.None? ==>
                var plan := PlanFor(rr.providerConfig.value, rr.platformService.value, site);
                && Restricted(plan, order) == plan && copied == plan.Values
                && (api.mode.Quiet? ==> PlacesFree(api.p, c, site, plan, order, old(api.w)))
      ensures api.mode.Quiet? && r.error.None?
              && Compatible(api.p, c, site, PlanFor(rr.providerConfig.value, rr.platformService.value, site)) ==>
                CopiesArrived(api.p, c, rr.providerConfig.value, rr.platformService.value, site, old(api.w), api.w)
      ensures api.mode.Quiet? && api.reliable && rr.error.None? && (site.Target? ==> rr.access)
              && Copyable(api.p, c, site, PlanFor(rr.providerConfig.value, rr.platformService.value, site),
                          old(api.w)) ==>
                r.error.None?
    {
      hide ApiServer.Consistent, Env, Progressed, Underway, AfterCopy, InPlan, Once, ReadInOrder, CopiesInOrder,
        Restricted, Plan, Unhindered, PlacesFree, PlaceFree;
      r, copied, order := rr, {}, [];
      var m, p := api.mode, api.p;
      ghost var a := api.Now();
      Standstill(m, p, c, SecretsAt(site), a);
      UnderwayStarts(p, c, site, PlanFor(rr.providerConfig.value, rr.platformService.value, site), a.world);
      NoPlaces(p, c, site, PlanFor(rr.providerConfig.value, rr.platformService.value, site), a.world);
      if rr.providerConfig.value.secrets.None? {
        CopiedArrived(p, c, rr.providerConfig.value, rr.platformService.value, site, order, a.world);
        return;
      }
      var plan := BuildPlan(rr.platformService.value.pullSecrets,
                            CopiesFor(rr.providerConfig.value.secrets.value, site));
      if site.Target? && !rr.access {
        r := rr.Fail(InternalError);
        return;
      }
      var rest := plan.Keys;
      while rest != {}
        invariant Working(c) && Progressed(m, p, c, SecretsAt(site), a, api.Now())
        invariant Underway(plan, order, rest, copied) && InPlan(order, plan) && Once(order)
        invariant m.Quiet? ==>
                    ReadInOrder(p, c, site, plan, order, a.world)
                    && api.w == CopiesInOrder(p, c, site, plan, order, a.world)
        invariant m.Quiet? && Copyable(p, c, site, plan, a.world) ==> Copyable(p, c, site, plan, api.w)
        invariant m.Quiet? ==> PlacesFree(p, c, site, plan, order, a.world)
        decreases rest
      {
        var s :| s in rest;
        ghost var b := api.Now();
        if Copyable(p, c, site, plan, b.world) { CopyingKeepsCopyable(p, c, site, plan, s, plan[s], b.world); }
        UnderwayStep(plan, order, rest, copied, s);
        var problem := CopySecret(c, site, s, plan[s]);
        Chain(m, p, c, SecretsAt(site), a, SecretsAt(site), b, SecretsAt(site), api.Now());
        if m.Quiet? && ProviderSecret(p, s) in b.world.objs { OneMoreCopied(p, c, site, plan, order, s, a.world); }
        if problem.Some? {
          if api.w != b.world { order := order + [s]; }
          r := rr.(error := problem);
          return;
        }
        if m.Quiet? { OneMoreFree(p, c, site, plan, order, s, a.world); }
        order := order + [s];
        copied := copied + {plan[s]};
        rest := rest - {s};
      }
      UnderwayEnds(plan, order, copied);
      if m.Quiet? {
        CopiedArrived(p, c, rr.providerConfig.value, rr.platformService.value, site, order, a.world);
      }
    }

    /** Deletes the listed objects except those to be kept; stops at the first failure. */
    method DeleteItems(c: NamespacedName, items: seq<Key>, keep: set<string>, ghost cause: Cause) returns (ok: bool)
      requires Working(c) && api.Owned(c, items)
      requires forall k :: k in items ==> DeletableKey(api.p, c, k, cause)
      requires cause.Teardown? ==> ReleaseAbsent(api.w, c)
      modifies api
      ensures Working(c) && api.Deleted(c, items, keep, ok)
      ensures api.reliable ==> ok
      ensures api.reliable && items != [] && items[0].name !in keep ==>
                |api.log| > |old(api.log)| && IsDelete(api.log[|old(api.log)|], c, items[0], old(api.w))
    {
      hide ApiServer.Consistent, Env, OnTheWay, WasSeen, Deleting, Progressed, Shrunk, LiveAt, ReleasesLive, IsDelete;
      var m, p := api.mode, api.p;
      ghost var a := api.Now();
      DeletingStarts(m, p, c, items, keep, a);
      assert forall k :: k in items ==> !k.kind.Namespace?;
      ok := true;
      for i := 0 to |items|
        invariant ok && api.Consistent() && Deleting(m, p, c, items, keep, i, a, api.Now())
        invariant i == 0 ==> api.Now() == a
        invariant api.reliable && i > 0 && items[0].name !in keep ==>
                    |api.log| > |a.log| && IsDelete(api.log[|a.log|], c, items[0], a.world)
      {
        ghost var b := api.Now();
        DeletingNext(m, p, c, items, keep, i, a, b, cause);
        if items[i].name in keep { continue; }
        ok := api.DeleteObject(c, items[i], cause);
        DeletingStep(m, p, c, items, keep, i, a, b, api.Now(), ok);
        FirstCallStays(m, p, c, items[i], a, b, api.Now());
        if !ok {
          DeletingEnds(m, p, c, items, keep, i, a, api.Now());
          break;
        }
      }
      if ok { DeletingEnds(m, p, c, items, keep, |items|, a, api.Now()); }
    }

    method RemoveSecrets(c: NamespacedName, rr: ReconcileResult, site: Site, keep: set<string>, ghost cause: Cause)
        returns (r: ReconcileResult)
      requires Working(c) && !rr.Stop()
      requires site == Platform || site == Target(c)
      requires cause == Prune || (cause == Teardown && ReleaseAbsent(api.w, c))
      modifies api
      ensures Working(c) && api.Did(c, SecretsAt(site)) && api.Shrank(c)
      ensures r == rr.(error := r.error)
      ensures api.reliable && (site.Target? ==> rr.access) ==> r.error.None?
      ensures r.error.None? ==> forall k :: LiveAt(api.p, api.w, c, site, Secret, k) ==> k.name in keep
      ensures api.mode.Quiet? ==> OnlyPruned(api.p, c, site, keep, old(api.w), api.w)
    {
      hide ApiServer.Consistent, Env, Progressed;
      var m, p := api.mode, api.p;
      ghost var a := api.Now();
      if site.Target? && !rr.access {
        Standstill(m, p, c, SecretsAt(site), a);
        return rr.Fail(InternalError);
      }
      var ok, items := api.List(c, site, Secret, CopyNamespace(c, site));
      ghost var b := api.Now();
      EnvProgresses(m, p, c, SecretsAt(site), a.world, b.world, a.log);
      if !ok { return rr.Fail(InteractionProblem(site)); }
      ListedStaysOwned(m, p, c, SecretsAt(site), a, b, items);
      ok := DeleteItems(c, items, keep, cause);
      Chain(m, p, c, SecretsAt(site), a, SecretsAt(site), b, Among(items), api.Now());
      ShrunkChain(p, c, a.world, b.world, api.w);
      if ok { ListedAreDead(m, p, c, site, Secret, a.world, b, items, keep, api.Now()); }
      if m.Quiet? {
        DeletedIsPruned(p, c, site, keep, items, a.world, api.w);
      }
      if !ok { return rr.Fail(InteractionProblem(site)); }
      return rr;
    }

    // ---------------------------------------------------------------- Flux sources

    /** The three list calls that detect existing sources. */
    method ListSources(c: NamespacedName) returns (ok: bool, helm: seq<Key>, git: seq<Key>, oci: seq<Key>)
      requires Working(c)
      modifies api
      ensures Working(c) && api.Did(c, Nobody) && api.Shrank(c)
      ensures api.reliable ==> ok
      ensures api.mode.Quiet? ==> api.w == old(api.w)
      ensures ok ==>
                && api.Sources(c, HelmRepository, helm) && api.Sources(c, GitRepository, git)
                && api.Sources(c, OCIRepository, oci)
    {
      hide ApiServer.Consistent, Env, Progressed, LiveAt, WasSeen;
      var m, p := api.mode, api.p;
      ghost var s := Nobody;
      ghost var a := api.Now();
      helm, git, oci := [], [], [];
      ok, helm := api.List(c, Platform, HelmRepository, c.namespace);
      ghost var b := api.Now();
      EnvProgresses(m, p, c, s, a.world, b.world, a.log);
      if !ok { return; }
      ok, git := api.List(c, Platform, GitRepository, c.namespace);
      ghost var d := api.Now();
      EnvProgresses(m, p, c, s, b.world, d.world, a.log);
      Chain(m, p, c, s, a, s, b, s, d);
      ShrunkChain(p, c, a.world, b.world, d.world);
      if !ok { return; }
      ok, oci := api.List(c, Platform, OCIRepository, c.namespace);
      ghost var e := api.Now();
      EnvProgresses(m, p, c, s, d.world, e.world, a.log);
      Chain(m, p, c, s, a, s, d, s, e);
      ShrunkChain(p, c, a.world, d.world, e.world);
      if !ok { return; }
      Chain(m, p, c, s, b, s, d, s, e);
      ShrunkChain(p, c, b.world, d.world, e.world);
      AllSeenStay(m, p, c, s, b, e, helm);
      AllSeenStay(m, p, c, s, d, e, git);
      ListedSources(m, p, c, s, HelmRepository, a, helm, e);
      ListedSources(m, p, c, s, GitRepository, b, git, e);
      ListedSources(m, p, c, s, OCIRepository, d, oci, e);
    }

    /** Keeps the listed objects that do not have the given name. */
    method WithoutName(items: seq<Key>, name: string) returns (others: seq<Key>)
      ensures forall k :: k in others <==> k in items && k.name != name
    {
      others := [];
      for i := 0 to |items|
        invariant forall k :: k in others <==> k in items[..i] && k.name != name
      {
        if items[i].name != name { others := others + [items[i]]; }
      }
      assert items[..|items|] == items;
    }

    /** Determines which source to create and which existing ones to delete, by precedence helm, git, oci. */
    method ChooseSource(c: NamespacedName, source: ChartSource, helm: seq<Key>, git: seq<Key>, oci: seq<Key>)
        returns (kind: Option<Kind>, spec: string, toBeDeleted: seq<Key>)
      requires forall k :: k in helm ==> IsPlatformSource(c, k) && k.kind == HelmRepository
      requires forall k :: k in git ==> IsPlatformSource(c, k) && k.kind == GitRepository
      requires forall k :: k in oci ==> IsPlatformSource(c, k) && k.kind == OCIRepository
      ensures kind == SelectedKind(source) && spec == SelectedSpec(source)
      ensures match source
              case ChartSource(Some(url), _, _) => kind == Some(HelmRepository) && spec == url
              case ChartSource(_, Some(url), _) => kind == Some(GitRepository) && spec == url
              case ChartSource(_, _, Some(url)) => kind == Some(OCIRepository) && spec == url
              case _ => kind == None
      ensures kind.Some? ==>
                forall k :: k in toBeDeleted <==> (k in helm || k in git || k in oci) && k != SourceKey(c, kind.value)
    {
      var name := DerivedName(c.name);
      if source.helm.Some? {
        var others := WithoutName(helm, name);
        return Some(HelmRepository), source.helm.value, others + git + oci;
      } else if source.git.Some? {
        var others := WithoutName(git, name);
        return Some(GitRepository), source.git.value, others + helm + oci;
      } else if source.oci.Some? {
        var others := WithoutName(oci, name);
        return Some(OCIRepository), source.oci.value, others + helm + git;
      } else {
        return None, "", [];
      }
    }

    /** Deploys the chosen source, then deletes the obsolete ones. */
    method ReplaceSource(c: NamespacedName, kind: Kind, spec: string, obsolete: seq<Key>) returns (ok: bool)
      requires Working(c) && IsSourceKind(kind) && api.Owned(c, obsolete)
      requires ListCovers(api.p, c, kind, obsolete, api.w)
      requires forall k :: k in obsolete ==> IsPlatformSource(c, k) && k != SourceKey(c, kind)
      requires KindFits(api.p, kind)
      modifies api
      ensures Working(c) && api.Did(c, SourcesIn(c.namespace))
      ensures api.reliable ==> ok
      ensures ok ==> OneSource(api.p, c, kind, api.w)
      ensures ok && !api.mode.Free? && !TerminatingOf(Lookup(old(api.w), SourceKey(c, kind))) ==>
                LiveAt(api.p, api.w, c, Platform, kind, SourceKey(c, kind))
      ensures api.mode.Quiet? && (forall k :: k in obsolete <==> ObsoleteSource(api.p, old(api.w), c, kind, k)) ==>
                SourceReplaced(api.p, c, kind, spec, ok, old(api.w), api.w)
    {
      hide ApiServer.Consistent, Env, Progressed, Legal, ListCovers, ObsoleteSource, SourceReplaced, WasSeen;
      var m, p := api.mode, api.p;
      ghost var s := SourcesIn(c.namespace);
      ghost var b := api.Now();
      var key := SourceKey(c, kind);
      var mutate := current => Deployed(current, SourceSpec(spec), ExpectedLabels(api.p, c));
      PutSourceLegal(m, p, c, b.world, kind, spec);
      ok := api.CreateOrUpdate(c, PutSource(key), key, mutate);
      ghost var d := api.Now();
      Widen(m, p, c, One(key), s, b, d);
      if !ok {
        if m.Quiet? && (forall k :: k in obsolete <==> ObsoleteSource(p, b.world, c, kind, k)) {
          SourceThenCleanup(p, c, kind, spec, obsolete, b.world, d.world, d.world, false);
        }
        return;
      }
      forall k | k in obsolete && !m.Free? ensures OwnedOrAbsent(p, c, d.world, k) {
        KeepsOwnership(m, p, c, One(key), b, d, k);
      }
      AllSeenStay(m, p, c, One(key), b, d, obsolete);
      ok := DeleteItems(c, obsolete, {}, Obsolete(kind));
      ghost var e := api.Now();
      Chain(m, p, c, s, b, s, d, Among(obsolete), e);
      if ok {
        OneSourceLeft(p, c, kind, obsolete, b.world, d.world, e.world);
        if !m.Free? { KeepsObject(m, p, c, Among(obsolete), d, e, key); }
      }
      if m.Quiet? && (forall k :: k in obsolete <==> ObsoleteSource(p, b.world, c, kind, k)) {
        SourceThenCleanup(p, c, kind, spec, obsolete, b.world, d.world, e.world, ok);
      }
    }

    method DeployHelmChartSource(c: NamespacedName, rr: ReconcileResult) returns (r: ReconcileResult)
      requires Working(c) && !rr.Stop() && rr.providerConfig.Some? && ConfigFits(api.p, rr.providerConfig)
      modifies api
      ensures Working(c) && api.Did(c, SourcesIn(c.namespace))
      ensures r == rr.(error := r.error, sourceKind := r.sourceKind)
      ensures api.reliable ==>
                r.error == if SelectedKind(rr.providerConfig.value.source).Some? then None
                else Some(ConfigurationProblem)
      ensures r.error.None? ==> r.sourceKind.Some? && r.sourceKind == SelectedKind(rr.providerConfig.value.source)
      ensures r.error.None? ==> OneSource(api.p, c, r.sourceKind.value, api.w)
      ensures r.error.None? && !api.mode.Free?
              && !TerminatingOf(Lookup(old(api.w), SourceKey(c, r.sourceKind.value))) ==>
                LiveAt(api.p, api.w, c, Platform, r.sourceKind.value, SourceKey(c, r.sourceKind.value))
      ensures api.mode.Quiet? ==>
                SourceDeployed(api.p, c, rr.providerConfig.value.source, r.error.None?, old(api.w), api.w)
      ensures api.mode.Quiet? && r.error.None? ==>
                ConfiguredSource(api.p, c, rr.providerConfig.value.source, old(api.w), api.w)
    {
      hide ApiServer.Consistent, Env, Progressed, LiveAt, SourceReplaced, SourceList, OneSource, ObsoleteSource,
        ListCovers, WasSeen;
      var m, p := api.mode, api.p;
      ghost var s := SourcesIn(c.namespace);
      ghost var a := api.Now();
      var ok, helm, git, oci := ListSources(c);
      ghost var b := api.Now();
      Widen(m, p, c, Nobody, s, a, b);
      NothingReplaced(p, c, rr.providerConfig.value.source, b.world);
      DerivedNameReserved(c.name);
      if !ok { return rr.Fail(PlatformProblem); }
      SourceListShape(m, p, c, HelmRepository, helm, b.world);
      SourceListShape(m, p, c, GitRepository, git, b.world);
      SourceListShape(m, p, c, OCIRepository, oci, b.world);
      var kind, spec, obsolete := ChooseSource(c, rr.providerConfig.value.source, helm, git, oci);
      if kind.None? { return rr.Fail(ConfigurationProblem); }
      ChosenCovers(m, p, c, kind.value, b.world, helm, git, oci, obsolete);
      if !m.Free? && !TerminatingOf(Lookup(a.world, SourceKey(c, kind.value))) {
        KeepsUnmarked(m, p, c, Nobody, a, b, SourceKey(c, kind.value));
      }
      ok := ReplaceSource(c, kind.value, spec, obsolete);
      Chain(m, p, c, s, a, Nobody, b, s, api.Now());
      if ok && m.Quiet? { DeployedIsConfigured(p, c, rr.providerConfig.value.source, a.world, api.w); }
      r := rr.(sourceKind := kind);
      if !ok { r := r.Fail(PlatformProblem); }
    }

    method EnsureTargetClusterNamespace(c: NamespacedName, rr: ReconcileResult) returns (r: ReconcileResult)
      requires Working(c) && !rr.Stop() && rr.access
      modifies api
      ensures Working(c) && api.Did(c, One(NamespaceKey(c)))
      ensures r == rr.(error := r.error)
      ensures api.reliable ==> r.error.None?
      ensures api.mode.Quiet? ==> api.w == api.WithNamespace(old(api.w), c) || (r.error.Some? && api.w == old(api.w))
    {
      hide ApiServer.Consistent, Env, Progressed;
      ghost var a := api.Now();
      var key := NamespaceKey(c);
      var n := api.Get(key);
      ghost var b := api.Now();
      EnvProgresses(api.mode, api.p, c, One(key), a.world, b.world, a.log);
      if n.Failed? { return rr.Fail(TargetProblem); }
      if n.Found? { return rr; }
      var ok := api.CreateNamespace(c);
      Chain(api.mode, api.p, c, One(key), a, One(key), b, One(key), api.Now());
      return if ok then rr else rr.Fail(TargetProblem);
    }

    method RenderValues(c: NamespacedName, template: string) returns (values: string)
      ensures values == Rendered(api.p, c, template)
      ensures PlainNames(api.p, c) ==>
                && (template == "\\u003c" + "provider.namespace" + "\\u003e" ==> values == api.p.providerNamespace)
                && (template == "\\u003c" + "provider.name" + "\\u003e" ==> values == api.p.providerName)
                && (template == "\\u003c" + "environment" + "\\u003e" ==> values == api.p.environment)
                && (template == "\\u003c" + "cluster.namespace" + "\\u003e" ==> values == c.namespace)
                && (template == "\\u003c" + "cluster.name" + "\\u003e" ==> values == c.name)
    {
      values := template;
      values := ReplaceAll(values, Placeholder("provider.namespace"), api.p.providerNamespace);
      values := ReplaceAll(values, Placeholder("provider.name"), api.p.providerName);
      values := ReplaceAll(values, Placeholder("environment"), api.p.environment);
      values := ReplaceAll(values, Placeholder("cluster.namespace"), c.namespace);
      values := ReplaceAll(values, Placeholder("cluster.name"), c.name);
      FivePasses(template, Keywords(api.p, c));
      if PlainNames(api.p, c) { EachKeyword(api.p, c); }
    }

    method DeployHelmRelease(c: NamespacedName, rr: ReconcileResult) returns (r: ReconcileResult)
      requires Working(c) && !rr.Stop()
      requires rr.config.Some? && rr.sourceKind.Some? && IsSourceKind(rr.sourceKind.value) && rr.accessRequest.Some?
      requires KindFits(api.p, rr.sourceKind.value)
      modifies api
      ensures Working(c) && api.Did(c, One(ReleaseKey(c)))
      ensures r == rr.(error := r.error)
      ensures api.reliable ==> r.error.None?
      ensures var v := WithRelease(api.p, c, rr.config.value, rr.sourceKind.value, rr.accessRequest.value, old(api.w));
              && (api.Applied(c, PutRelease, v) || (r.error.Some? && api.Skipped()))
              && (api.mode.Quiet? ==> api.w == v || (r.error.Some? && api.w == old(api.w)))
      ensures api.mode.Quiet? && r.error.None? ==>
                ReleaseSays(api.p, c, rr.config.value, rr.sourceKind.value, rr.accessRequest.value, api.w)
      ensures LiveAt(api.p, old(api.w), c, Platform, rr.sourceKind.value, SourceKey(c, rr.sourceKind.value))
              && AccessLive(old(api.w), c) ==>
                ReleasesLive(api.p, old(api.log), api.log)
    {
      var values := RenderValues(c, rr.config.value.values);
      var body := Release(rr.sourceKind.value, c.namespace, DerivedName(c.name), values,
                          KubeconfigSecret(rr.accessRequest.value));
      var mutate := current => Deployed(current, body, ExpectedLabels(api.p, c));
      PutReleaseLegal(api.mode, api.p, c, api.w, body);
      hide ApiServer.Consistent, Env, Progressed, Legal, Rendered, LiveAt, ReleaseSays;
      WithReleaseSays(api.p, c, rr.config.value, rr.sourceKind.value, rr.accessRequest.value, api.w);
      ghost var e := api.Now();
      var ok := api.CreateOrUpdate(c, PutRelease, ReleaseKey(c), mutate);
      if api.log != e.log && LiveAt(api.p, e.world, c, Platform, rr.sourceKind.value, SourceKey(c, rr.sourceKind.value))
      && AccessLive(e.world, c) {
        OneReleaseWritten(api.p, c, rr.config.value, rr.sourceKind.value, rr.accessRequest.value, e, api.Now());
      }
      return if ok then rr else rr.Fail(PlatformProblem);
    }

    // ---------------------------------------------------------------- create or update

    /** The middle part of handleCreateOrUpdate on the platform cluster: copy and prune secrets, deploy the source. */
    method PreparePlatform(c: NamespacedName, rr: ReconcileResult) returns (r: ReconcileResult)
      requires Working(c) && c in known
      requires rr.providerConfig.Some? && rr.platformService.Some? && !rr.requeue
               && ConfigFits(api.p, rr.providerConfig)
      modifies api
      ensures Working(c) && api.Did(c, Supporting)
      ensures r == rr.(error := r.error, sourceKind := r.sourceKind) && (rr.error.Some? ==> r.error.Some?)
      ensures r.error.None? ==> r.sourceKind.Some? && r.sourceKind == SelectedKind(rr.providerConfig.value.source)
      ensures r.error.None? ==> OneSource(api.p, c, r.sourceKind.value, api.w)
      ensures r.error.None? && !api.mode.Free? && SourcesUnmarked(old(api.w), c) ==>
                LiveAt(api.p, api.w, c, Platform, r.sourceKind.value, SourceKey(c, r.sourceKind.value))
      ensures api.mode.Quiet? && PlansFit(api.p, c, rr.providerConfig.value, rr.platformService.value) ==>
                && (r.error.None? && SourcesSpared(api.p, c, rr.providerConfig.value, rr.platformService.value,
                                                   old(api.w)) ==>
                      PlatformReady(api.p, c, rr.providerConfig.value, rr.platformService.value, api.w)
                      && Lookup(api.w, AccessKey(c)) == Lookup(old(api.w), AccessKey(c)))
                && (PlatformReady(api.p, c, rr.providerConfig.value, rr.platformService.value, old(api.w)) ==>
                      api.w == old(api.w))
                && (api.reliable && rr.error.None?
                    && Deployable(api.p, c, rr.providerConfig.value, rr.platformService.value, old(api.w)) ==>
                      r.error.None?
                      && Copyable(api.p, c, Target(c),
                                  PlanFor(rr.providerConfig.value, rr.platformService.value, Target(c)), api.w))
    {
      hide ApiServer.Consistent, Env, Progressed, LiveAt, OneSource, SourceDeployed, OnlyPruned, Mirrored, Compatible,
        ReadInOrder, CopiesInOrder, Restricted, Shrunk, InMirror, Pruned, Spared, SourceSettled, Copyable,
        TargetCopyable, PlatformReady, SourcesSpared, Deployable, SourcesUnmarked;
      var m, p := api.mode, api.p;
      var config, service := rr.providerConfig.value, rr.platformService.value;
      var copied;
      ghost var order;
      ghost var a := api.Now();
      ghost var fit := m.Quiet? && PlansFit(p, c, config, service);
      ghost var ready := fit && PlatformReady(p, c, config, service, a.world);
      if ready { PlatformParts(p, c, config, service, a.world); }
      if Deployable(p, c, config, service, a.world) { DeployableParts(p, c, config, service, a.world); }
      r, copied, order := CopySecrets(c, rr, Platform);
      ghost var b := api.Now();
      if fit { CopiedMirrors(p, c, Platform, PlanFor(config, service, Platform), order, a.world, ready); }
      Widen(m, p, c, SecretsAt(Platform), Supporting, a, b);
      if r.Stop() { return; }
      r := RemoveSecrets(c, r, Platform, copied, Prune);
      ghost var d := api.Now();
      if ready { NothingPruned(p, c, Platform, copied, b.world, d.world); }
      Chain(m, p, c, Supporting, a, Supporting, b, SecretsAt(Platform), d);
      if r.Stop() { return; }
      Chain(m, p, c, SecretsAt(Platform), a, SecretsAt(Platform), b, SecretsAt(Platform), d);
      if !m.Free? && SourcesUnmarked(a.world, c) { SourcesStayUnmarked(m, p, c, SecretsAt(Platform), a, d); }
      r := DeployHelmChartSource(c, r);
      ghost var e := api.Now();
      if ready { SourceStandsStill(p, c, config.source, r.error.None?, d.world, e.world); }
      Chain(m, p, c, Supporting, a, Supporting, d, SourcesIn(c.namespace), e);
      if fit && r.error.None? && SourcesSpared(p, c, config, service, a.world) {
        PlatformBecomesReady(p, c, config, service, a.world, b.world, d.world, e.world);
      }
      if fit && r.error.None? && TargetCopyable(p, c, config, service, a.world) {
        TargetStaysCopyable(p, c, config, service, a.world, b.world, d.world, e.world);
      }
    }

    /** The middle part of handleCreateOrUpdate on the target cluster: create the namespace, copy and prune secrets. */
    method PrepareTarget(c: NamespacedName, rr: ReconcileResult) returns (r: ReconcileResult)
      requires Working(c) && c in known
      requires rr.providerConfig.Some? && rr.platformService.Some? && rr.access && !rr.Stop()
      modifies api
      ensures Working(c) && api.Did(c, CopiesOnly)
      ensures r == rr.(error := r.error)
      ensures api.mode.Quiet? && PlansFit(api.p, c, rr.providerConfig.value, rr.platformService.value) ==>
                && (r.error.None? ==> TargetReady(api.p, c, rr.providerConfig.value, rr.platformService.value, api.w))
                && (r.error.None? ==> forall k: Key :: k.site.Platform? ==> Lookup(api.w, k) == Lookup(old(api.w), k))
                && (TargetReady(api.p, c, rr.providerConfig.value, rr.platformService.value, old(api.w)) ==>
                      api.w == old(api.w))
                && (api.reliable
                    && Copyable(api.p, c, Target(c),
                                PlanFor(rr.providerConfig.value, rr.platformService.value, Target(c)), old(api.w)) ==>
                      r.error.None?)
    {
      hide ApiServer.Consistent, Env, Progressed, LiveAt, OnlyPruned, Mirrored, Compatible, ReadInOrder, CopiesInOrder,
        Restricted, Shrunk, InMirror, Pruned, Copyable;
      var m, p := api.mode, api.p;
      var config, service := rr.providerConfig.value, rr.platformService.value;
      var target := Target(c);
      var copied;
      ghost var order;
      ghost var e := api.Now();
      ghost var fit := m.Quiet? && PlansFit(p, c, config, service);
      ghost var ready := fit && TargetReady(p, c, config, service, e.world);
      r := EnsureTargetClusterNamespace(c, rr);
      ghost var f := api.Now();
      if fit && Copyable(p, c, target, PlanFor(config, service, target), e.world) {
        SecretsDecide(p, c, target, PlanFor(config, service, target), e.world, f.world);
      }
      Widen(m, p, c, One(NamespaceKey(c)), CopiesOnly, e, f);
      if r.Stop() { return; }
      r, copied, order := CopySecrets(c, r, target);
      ghost var g := api.Now();
      if fit { CopiedMirrors(p, c, target, PlanFor(config, service, target), order, f.world, ready); }
      Chain(m, p, c, CopiesOnly, e, CopiesOnly, f, SecretsAt(target), g);
      if r.Stop() { return; }
      r := RemoveSecrets(c, r, target, copied, Prune);
      ghost var h := api.Now();
      if ready { NothingPruned(p, c, target, copied, g.world, h.world); }
      Chain(m, p, c, CopiesOnly, e, CopiesOnly, g, SecretsAt(target), h);
      if fit && r.error.None? {
        TargetBecomesReady(p, c, config, service, f.world, g.world, h.world);
      }
    }

    /** The AccessRequest is read, and access is obtained from it. */
    method FetchAccess(c: NamespacedName, rr: ReconcileResult) returns (r: ReconcileResult)
      requires Working(c) && !rr.Stop() && !rr.access && rr.accessRequest.None?
      modifies api
      ensures Working(c) && api.Did(c, Nobody)
      ensures r == rr.(error := r.error, access := r.access, accessRequest := r.accessRequest)
      ensures if r.access then r.error.None? ==> r.accessRequest.Some? else r.error.Some?
      ensures r.access && !api.mode.Free? && !TerminatingOf(Lookup(old(api.w), AccessKey(c))) ==> AccessLive(api.w, c)
      ensures api.reliable && !api.mode.Free? && Usable(old(api.w), c) ==> r.access && r.error.None?
      ensures api.mode.Quiet? ==>
                api.w == old(api.w) && (r.access && r.accessRequest.Some? ==>
                                          Lookup(api.w, AccessKey(c)) == r.accessRequest)
    {
      hide ApiServer.Consistent, Env, Progressed, Labelled;
      var m, p := api.mode, api.p;
      ghost var d := api.Now();
      var ar := api.Get(AccessKey(c));
      ghost var e := api.Now();
      EnvProgresses(m, p, c, Nobody, d.world, e.world, d.log);
      r := if ar.Found? then rr.(accessRequest := Some(ar.obj)) else rr.Fail(InternalError);
      if !m.Free? && Usable(d.world, c) { EnvKeepsGrant(m, p, c, d.world, e.world); }
      var ok := api.Access(c);
      ghost var f := api.Now();
      EnvProgresses(m, p, c, Nobody, e.world, f.world, d.log);
      Chain(m, p, c, Nobody, d, Nobody, e, Nobody, f);
      if !ok { return r.Fail(InternalError); }
      r := r.(access := true);
      if !m.Free? && !TerminatingOf(Lookup(d.world, AccessKey(c))) {
        KeepsUnmarked(m, p, c, Nobody, d, e, AccessKey(c));
        LiveAccessStays(m, p, c, Nobody, e, f);
      }
    }

    /**
    The first part of handleCreateOrUpdate: the finalizer goes on, the Cluster is registered, access is requested.
     */
    method ObtainAccess(c: NamespacedName, cluster: Cluster, rr: ReconcileResult) returns (r: ReconcileResult)
      requires api.Consistent() && (cluster.finalizer ==> HasFinalizer(api.w, c))
      requires !rr.Stop() && !rr.access && rr.accessRequest.None?
      modifies this, api
      ensures api.Consistent() && api.Did(c, One(AccessKey(c)))
      ensures r == rr.(error := r.error, requeue := r.requeue, access := r.access, accessRequest := r.accessRequest)
      ensures !r.access ==> r.Stop()
      ensures r.access ==>
                HasFinalizer(api.w, c) && c in known && !r.requeue && (r.error.None? ==> r.accessRequest.Some?)
      ensures known == old(known) || known == old(known) + {c}
      ensures r.access && !api.mode.Free? && !TerminatingOf(Lookup(old(api.w), AccessKey(c))) ==> AccessLive(api.w, c)
      ensures api.mode.Quiet? ==>
                && (forall k :: k != AccessKey(c) ==> Lookup(api.w, k) == Lookup(old(api.w), k))
                && (r.access && r.accessRequest.Some? ==> Lookup(api.w, AccessKey(c)) == r.accessRequest)
                && (cluster.finalizer && AccessKey(c) in old(api.w).objs ==> api.w == old(api.w))
                && (api.reliable && Obtainable(c, cluster, old(api.w)) ==> r.access && r.error.None?)
    {
      hide ApiServer.Consistent, Env, Progressed, LiveAt, Shrunk, Labelled, NewAccess, AccessStage, AwaitsGrant, Usable,
        AccessLive;
      var m, p := api.mode, api.p;
      var key := AccessKey(c);
      ghost var fit := !m.Free? && !TerminatingOf(Lookup(api.w, key));
      ghost var a := api.Now();
      Standstill(m, p, c, Nobody, a);
      if !cluster.finalizer {
        var ok := api.PatchFinalizerOn(c);
        Widen(m, p, c, Nobody, One(key), a, api.Now());
        if !ok { return rr.Fail(PlatformProblem); }
      }
      AddKnownCluster(c);
      ghost var b := api.Now();
      if fit { KeepsUnmarked(m, p, c, Nobody, a, b, key); }
      SameObjectSameUse(c, a.world, b.world);
      var access := api.ReconcileAccess(c);
      ghost var d := api.Now();
      Chain(m, p, c, One(key), a, Nobody, b, One(key), d);
      if access.AccessFailed? { return rr.Fail(InternalError); }
      if access.AccessPending? { return rr.(requeue := true); }
      r := FetchAccess(c, rr);
      Chain(m, p, c, One(key), a, One(key), d, Nobody, api.Now());
    }

    /** What the HelmRelease needs, on the platform cluster and then on the target cluster. */
    method PrepareBoth(c: NamespacedName, rr: ReconcileResult) returns (r: ReconcileResult)
      requires Working(c) && c in known
      requires rr.providerConfig.Some? && rr.platformService.Some? && ConfigFits(api.p, rr.providerConfig)
      requires rr.access && !rr.requeue
      modifies api
      ensures Working(c) && api.Did(c, NoReleases)
      ensures r == rr.(error := r.error, sourceKind := r.sourceKind) && (rr.error.Some? ==> r.error.Some?)
      ensures r.error.None? ==> r.sourceKind.Some? && r.sourceKind == SelectedKind(rr.providerConfig.value.source)
      ensures r.error.None? && !api.mode.Free? && SourcesUnmarked(old(api.w), c) && AccessLive(old(api.w), c) ==>
                LiveAt(api.p, api.w, c, Platform, r.sourceKind.value, SourceKey(c, r.sourceKind.value))
                && AccessLive(api.w, c)
      ensures api.mode.Quiet? && PlansFit(api.p, c, rr.providerConfig.value, rr.platformService.value) ==>
                && (r.error.None? && SourcesSpared(api.p, c, rr.providerConfig.value, rr.platformService.value,
                                                   old(api.w)) ==>
                      && PlatformReady(api.p, c, rr.providerConfig.value, rr.platformService.value, api.w)
                      && TargetReady(api.p, c, rr.providerConfig.value, rr.platformService.value, api.w)
                      && Lookup(api.w, AccessKey(c)) == Lookup(old(api.w), AccessKey(c)))
                && (PlatformReady(api.p, c, rr.providerConfig.value, rr.platformService.value, old(api.w))
                    && TargetReady(api.p, c, rr.providerConfig.value, rr.platformService.value, old(api.w)) ==>
                      api.w == old(api.w))
                && (api.reliable && rr.error.None?
                    && Deployable(api.p, c, rr.providerConfig.value, rr.platformService.value, old(api.w)) ==>
                      r.error.None?)
    {
      hide ApiServer.Consistent, Env, Progressed, LiveAt, OneSource, SourcesSpared, PlansFit, PlatformReady,
        TargetReady, Deployable, Copyable, SourcesUnmarked, AccessLive;
      var m, p := api.mode, api.p;
      ghost var config, service := rr.providerConfig.value, rr.platformService.value;
      ghost var a := api.Now();
      ghost var fit := !m.Free? && SourcesUnmarked(a.world, c) && AccessLive(a.world, c);
      SelectedIsSource(config.source);
      r := PreparePlatform(c, rr);
      ghost var d := api.Now();
      Widen(m, p, c, Supporting, NoReleases, a, d);
      if r.Stop() { return; }
      r := PrepareTarget(c, r);
      ghost var e := api.Now();
      Chain(m, p, c, NoReleases, a, NoReleases, d, CopiesOnly, e);
      if r.Stop() { return; }
      if fit {
        LiveAccessStays(m, p, c, Supporting, a, d);
        LiveAccessStays(m, p, c, CopiesOnly, d, e);
        LiveSourceStays(m, p, c, r.sourceKind.value, d, e);
      }
      if m.Quiet? && PlansFit(p, c, config, service) && SourcesSpared(p, c, config, service, a.world) {
        PlatformStaysReady(p, c, config, service, d.world, e.world);
      }
    }

    /** The rest of handleCreateOrUpdate: what the HelmRelease needs, and then the HelmRelease. */
    method DeployEverything(c: NamespacedName, rr: ReconcileResult) returns (r: ReconcileResult)
      requires Working(c) && c in known
      requires rr.providerConfig.Some? && rr.platformService.Some? && rr.config.Some?
               && ConfigFits(api.p, rr.providerConfig)
      requires rr.access && !rr.requeue && (rr.error.None? ==> rr.accessRequest.Some?)
      modifies api
      ensures Working(c) && api.Did(c, Everything)
      ensures r.providerConfig == rr.providerConfig && r.platformService == rr.platformService && r.config == rr.config
      ensures !api.mode.Free? && SourcesUnmarked(old(api.w), c) && AccessLive(old(api.w), c) ==>
                ReleasesLive(api.p, old(api.log), api.log)
      ensures api.mode.Quiet? && PlansFit(api.p, c, rr.providerConfig.value, rr.platformService.value)
              && (rr.accessRequest.Some? ==> Lookup(old(api.w), AccessKey(c)) == rr.accessRequest) ==>
                && (!r.Stop() && SourcesSpared(api.p, c, rr.providerConfig.value, rr.platformService.value,
                                               old(api.w)) ==>
                      Settled(api.p, c, rr.providerConfig.value, rr.platformService.value, rr.config.value, api.w))
                && (Settled(api.p, c, rr.providerConfig.value, rr.platformService.value, rr.config.value,
                            old(api.w)) ==>
                      api.w == old(api.w))
                && (api.reliable && rr.error.None?
                    && Deployable(api.p, c, rr.providerConfig.value, rr.platformService.value, old(api.w)) ==>
                      !r.Stop())
    {
      hide ApiServer.Consistent, Env, Progressed, LiveAt, ReleasesLive, SourcesSpared, PlansFit, PlatformReady,
        TargetReady, ReleaseReady, WithRelease, Deployable, SourcesUnmarked, AccessLive;
      var m, p := api.mode, api.p;
      ghost var config, service := rr.providerConfig.value, rr.platformService.value;
      ghost var a := api.Now();
      ghost var quiet := m.Quiet? && PlansFit(p, c, config, service)
                         && (rr.accessRequest.Some? ==> Lookup(a.world, AccessKey(c)) == rr.accessRequest);
      SelectedIsSource(config.source);
      r := PrepareBoth(c, rr);
      ghost var e := api.Now();
      NoRelease(m, p, c, a, e);
      Widen(m, p, c, NoReleases, Everything, a, e);
      if r.Stop() { return; }
      if quiet {
        if SourcesSpared(p, c, config, service, a.world) {
          BecomesSettled(p, c, config, service, r.config.value, e.world, e.world, r.accessRequest.value);
        }
        if Settled(p, c, config, service, r.config.value, a.world) {
          ReleaseStandsStill(p, c, config, r.config.value, e.world);
        }
      }
      r := DeployHelmRelease(c, r);
      ghost var f := api.Now();
      Chain(m, p, c, Everything, a, Everything, e, One(ReleaseKey(c)), f);
      ReleasesLiveChain(p, a.log, e.log, f.log);
    }

    method HandleCreateOrUpdate(c: NamespacedName, cluster: Cluster, rr: ReconcileResult) returns (r: ReconcileResult)
      requires api.Consistent() && (cluster.finalizer ==> HasFinalizer(api.w, c))
      requires rr.providerConfig.Some? && rr.platformService.Some? && rr.config.Some?
               && ConfigFits(api.p, rr.providerConfig)
      requires !rr.Stop() && !rr.access && rr.accessRequest.None?
      modifies this, api
      ensures api.Consistent() && api.Did(c, Everything)
      ensures r.providerConfig == rr.providerConfig && r.platformService == rr.platformService && r.config == rr.config
      ensures known == old(known) || known == old(known) + {c}
      ensures !r.Stop() ==> HasFinalizer(api.w, c) && c in known
      ensures !api.mode.Free? && Calm(old(api.w), c) ==>
                ReleasesLive(api.p, old(api.log), api.log)
      ensures api.mode.Quiet? && PlansFit(api.p, c, rr.providerConfig.value, rr.platformService.value) ==>
                && (!r.Stop() && SourcesSpared(api.p, c, rr.providerConfig.value, rr.platformService.value,
                                               old(api.w)) ==>
                      Settled(api.p, c, rr.providerConfig.value, rr.platformService.value, rr.config.value, api.w))
                && (cluster.finalizer
                    && Settled(api.p, c, rr.providerConfig.value, rr.platformService.value, rr.config.value,
                               old(api.w)) ==>
                      api.w == old(api.w))
                && (api.reliable && Obtainable(c, cluster, old(api.w))
                    && Deployable(api.p, c, rr.providerConfig.value, rr.platformService.value, old(api.w)) ==>
                      !r.Stop())
    {
      hide ApiServer.Consistent, Env, Progressed, LiveAt, ReleasesLive, SourcesSpared, PlansFit, PlatformReady,
        TargetReady, Deployable, Shrunk, Labelled, SourcesUnmarked;
      var m, p := api.mode, api.p;
      ghost var a := api.Now();
      r := ObtainAccess(c, cluster, rr);
      ghost var b := api.Now();
      OnlyAccess(m, p, c, a, b);
      if !r.access { return; }
      if m.Quiet? { SameElsewhere(p, c, rr.providerConfig.value, rr.platformService.value, a.world, b.world); }
      r := DeployEverything(c, r);
      ghost var f := api.Now();
      Chain(m, p, c, Everything, a, Everything, b, Everything, f);
      ReleasesLiveChain(p, a.log, b.log, f.log);
    }

    /** Idempotence: left alone, a reconcile that follows a successful one changes nothing on either cluster. */
    method CreateOrUpdateTwice(c: NamespacedName, cluster: Cluster, rr: ReconcileResult)
        returns (first: ReconcileResult, second: ReconcileResult, ghost between: World)
      requires api.Consistent() && (cluster.finalizer ==> HasFinalizer(api.w, c))
      requires rr.providerConfig.Some? && rr.platformService.Some? && rr.config.Some?
               && ConfigFits(api.p, rr.providerConfig)
      requires !rr.Stop() && !rr.access && rr.accessRequest.None?
      modifies this, api
      ensures api.Consistent()
      ensures api.mode.Quiet? && !first.Stop()
              && PlansFit(api.p, c, rr.providerConfig.value, rr.platformService.value)
              && SourcesSpared(api.p, c, rr.providerConfig.value, rr.platformService.value, old(api.w)) ==>
                api.w == between
    {
      hide ApiServer.Consistent, Env, Progressed, ReleasesLive, SourcesSpared, PlansFit, Settled;
      first := HandleCreateOrUpdate(c, cluster, rr);
      between := api.w;
      second := first;
      if !first.Stop() { second := HandleCreateOrUpdate(c, cluster.(finalizer := true), rr); }
    }

    // ---------------------------------------------------------------- delete

    method UndeployHelmRelease(c: NamespacedName, rr: ReconcileResult) returns (r: ReconcileResult)
      requires Working(c) && !rr.Stop()
      modifies api
      ensures Working(c) && api.Did(c, One(ReleaseKey(c))) && api.Shrank(c)
      ensures ReleasesLive(api.p, old(api.log), api.log)
      ensures r == rr.(error := r.error, requeue := r.requeue)
      ensures !r.Stop() ==> ReleaseAbsent(api.w, c)
      ensures api.mode.Quiet? && !r.Stop() ==> api.w == old(api.w)
      ensures r.requeue ==> ReleaseAbsent(api.w, c) || TerminatingOf(Lookup(api.w, ReleaseKey(c)))
      ensures api.reliable && OwnedOrAbsent(api.p, c, old(api.w), ReleaseKey(c)) ==> r.error.None?
      ensures r.requeue ==> !ReleaseAbsent(old(api.w), c)
    {
      hide ApiServer.Consistent, Env, Progressed, WasSeen, LiveAt;
      var m, p := api.mode, api.p;
      var key := ReleaseKey(c);
      ghost var a := api.Now();
      api.OnTheRun();
      var hr := api.Get(key);
      ghost var b := api.Now();
      EnvProgresses(m, p, c, One(key), a.world, b.world, a.log);
      if hr.NotFound? { return rr; }
      if hr.Failed? { return rr.Fail(PlatformProblem); }
      if hr.obj.terminating {
        ReleaseStaysMarked(m, p, c, a.world, b.world);
        return rr.(requeue := true);
      }
      if !Labelled(p, c, hr.obj) { return rr.Fail(InternalError); }
      if !m.Free? { KeepsOwnership(m, p, c, One(key), a, b, key); }
      DerivedNameReserved(c.name);
      FoundIsSeen(m, p, c, a.world, b.world, a.log, key);
      var ok := api.DeleteObject(c, key, Undeploy);
      ghost var d := api.Now();
      Chain(m, p, c, One(key), a, One(key), b, One(key), d);
      ShrunkChain(p, c, a.world, b.world, d.world);
      if !ok { return rr.Fail(PlatformProblem); }
      return rr.(requeue := true);
    }

    method UndeployHelmChartSource(c: NamespacedName, rr: ReconcileResult) returns (r: ReconcileResult)
      requires Working(c) && !rr.Stop() && ReleaseAbsent(api.w, c)
      modifies api
      ensures Working(c) && api.Did(c, SourcesIn(c.namespace)) && api.Shrank(c)
      ensures r == rr.(error := r.error)
      ensures api.reliable ==> r.error.None?
      ensures r.error.None? ==> NoLiveSources(api.p, api.w, c)
    {
      hide ApiServer.Consistent, Env, Progressed, LiveAt, SourceList, Deleting, OwnedOrAbsent, WasSeen;
      var m, p := api.mode, api.p;
      ghost var s := SourcesIn(c.namespace);
      ghost var a := api.Now();
      var ok, helm, git, oci := ListSources(c);
      ghost var b := api.Now();
      Widen(m, p, c, Nobody, s, a, b);
      if !ok { return rr.Fail(PlatformProblem); }
      var toBeDeleted := helm + git + oci;
      AllSourcesListed(m, p, c, b.world, helm, git, oci);
      ok := DeleteItems(c, toBeDeleted, {}, Teardown);
      ghost var d := api.Now();
      AllSourcesDead(m, p, c, b, toBeDeleted, d, ok);
      Chain(m, p, c, s, a, s, b, Among(toBeDeleted), d);
      ShrunkChain(p, c, a.world, b.world, d.world);
      return if ok then rr else rr.Fail(PlatformProblem);
    }

    /** With access to the target cluster, the copies there are removed. */
    method CleanTarget(c: NamespacedName, rr: ReconcileResult) returns (r: ReconcileResult)
      requires Working(c) && !rr.Stop() && !rr.access && ReleaseAbsent(api.w, c)
      modifies api
      ensures Working(c) && api.Did(c, SecretsAt(Target(c))) && ReleaseAbsent(api.w, c)
      ensures r == rr.(error := r.error, access := r.access)
      ensures !r.Stop() && r.access ==> forall k :: !LiveAt(api.p, api.w, c, Target(c), Secret, k)
      ensures api.mode.Quiet? && !r.Stop() ==> (r.access <==> Usable(old(api.w), c))
      ensures api.reliable && !api.mode.Free? ==> r.error.None?
    {
      hide ApiServer.Consistent, Env, Progressed, LiveAt, Shrunk, Labelled, OnlyPruned;
      var m, p := api.mode, api.p;
      ghost var s, b := SecretsAt(Target(c)), api.Now();
      var ar := api.Get(AccessKey(c));
      ghost var d := api.Now();
      EnvProgresses(m, p, c, s, b.world, d.world, b.log);
      StaysGone(p, c, b.world, d.world);
      if ar.Failed? { return rr.Fail(InternalError); }
      if ar.Found? && !ar.obj.terminating && IsGranted(ar.obj) {
        if !m.Free? { GrantIsKept(m, p, c, b.world, d.world); }
        var ok := api.Access(c);
        ghost var e := api.Now();
        EnvProgresses(m, p, c, s, d.world, e.world, d.log);
        StaysGone(p, c, d.world, e.world);
        Chain(m, p, c, s, b, s, d, s, e);
        if !ok { return rr.Fail(InternalError); }
        r := RemoveSecrets(c, rr.(access := true), Target(c), {}, Teardown);
        StaysGone(p, c, e.world, api.w);
        Chain(m, p, c, s, b, s, e, s, api.Now());
      } else {
        r := rr;
      }
    }

    /** The second part of handleDelete: with access to the target cluster, the copies there are removed. */
    method RemoveTargetSecrets(c: NamespacedName, rr: ReconcileResult) returns (r: ReconcileResult)
      requires Working(c) && !rr.Stop() && !rr.access && ReleaseAbsent(api.w, c)
      modifies api
      ensures Working(c) && api.Did(c, NoReleases) && ReleaseAbsent(api.w, c)
      ensures r == rr.(error := r.error, requeue := r.requeue, access := r.access)
      ensures !r.Stop() && r.access ==> forall k :: !LiveAt(api.p, api.w, c, Target(c), Secret, k)
      ensures api.mode.Quiet? && !r.Stop() ==> (r.access <==> Usable(old(api.w), c))
      ensures api.reliable && r.requeue ==> !Usable(old(api.w), c)
      ensures api.mode.Quiet? && api.reliable && AccessAbsent(old(api.w), c) && !old(api.library.Begun(c, api.w)) ==>
                r.requeue && Lookup(api.w, AccessKey(c)) == Some(NewAccess(api.p, c))
      ensures api.reliable && !api.mode.Free? ==> r.error.None?
      ensures r.requeue ==> |api.log| == |old(api.log)| + 1 && api.log[|old(api.log)|].pre == old(api.w)
                            && AwaitsGrant(api.log[|old(api.log)|], c)
      ensures !api.mode.Free? ==> api.Stage(c) <= old(api.Stage(c))
      ensures !api.mode.Free? && r.requeue ==> api.Stage(c) < old(api.Stage(c)) || api.Stage(c) % 2 == 1
      ensures !api.mode.Free? && AccessLive(old(api.w), c) ==> AccessLive(api.w, c)
      ensures !api.mode.Free? && api.library.promise.patient && !r.Stop() ==>
                AccessLive(api.w, c) || (api.library.promise.steady && BeingDeleted(api.w, c))
    {
      hide ApiServer.Consistent, Env, Progressed, LiveAt, AccessStage, AccessLive, NewAccess, AwaitsGrant, Usable;
      var m, p := api.mode, api.p;
      ghost var a, torn := api.Now(), api.library.Torn(c);
      UsableIsLive(c, a.world);
      var access := api.ReconcileAccess(c);
      ghost var b := api.Now();
      KeepsCluster(m, p, c, One(AccessKey(c)), a, b);
      Widen(m, p, c, One(AccessKey(c)), NoReleases, a, b);
      if access.AccessFailed? { return rr.Fail(InternalError); }
      if access.AccessPending? { return rr.(requeue := true); }
      r := CleanTarget(c, rr);
      AccessStaysAlong(m, p, c, SecretsAt(Target(c)), b, api.Now(), torn);
      KeepsCluster(m, p, c, SecretsAt(Target(c)), b, api.Now());
      Chain(m, p, c, NoReleases, a, NoReleases, b, SecretsAt(Target(c)), api.Now());
    }

    /** The third part of handleDelete: sources, copies and access on the platform cluster are removed. */
    method RemoveFromPlatform(c: NamespacedName, rr: ReconcileResult) returns (r: ReconcileResult)
      requires Working(c) && !rr.Stop() && ReleaseAbsent(api.w, c)
      modifies api, api.library
      ensures Working(c) && api.Did(c, NoReleases) && api.Shrank(c)
      ensures r == rr.(error := r.error, requeue := r.requeue)
      ensures api.reliable ==> r.error.None?
      ensures !r.Stop() ==> Clean(api.p, api.w, c)
      ensures api.mode.Quiet? && r.requeue ==> TerminatingOf(Lookup(api.w, AccessKey(c)))
      ensures r.requeue ==> old(api.log) < api.log && AwaitsRemoval(api.log[|api.log| - 1], c)
      ensures api.library.promise.Progressive(BeingDeleted(old(api.w), c)) && !api.mode.Free? && r.requeue ==>
                api.Stage(c) <= old(api.Stage(c)) && (api.Stage(c) < old(api.Stage(c)) || api.Stage(c) % 2 == 1)
      ensures !api.mode.Free? && api.library.promise.held == Some(true) && AccessLive(old(api.w), c) ==> r.Stop()
    {
      hide ApiServer.Consistent, Env, Progressed, NoLiveSources, Clean, AccessStage, AccessLive, Shrunk, Labelled,
        LiveAt;
      var m, p := api.mode, api.p;
      ghost var torn := api.library.Torn(c);
      ghost var s := NoReleases;
      ghost var a := api.Now();
      r := UndeployHelmChartSource(c, rr);
      ghost var b := api.Now();
      StaysGone(p, c, a.world, b.world);
      AccessStaysAlong(m, p, c, SourcesIn(c.namespace), a, b, torn);
      KeepsCluster(m, p, c, SourcesIn(c.namespace), a, b);
      Widen(m, p, c, SourcesIn(c.namespace), s, a, b);
      if r.Stop() { return; }
      r := RemoveSecrets(c, r, Platform, {}, Teardown);
      ghost var d := api.Now();
      StaysGone(p, c, b.world, d.world);
      AccessStaysAlong(m, p, c, SecretsAt(Platform), b, d, torn);
      KeepsCluster(m, p, c, SecretsAt(Platform), b, d);
      Chain(m, p, c, s, a, s, b, SecretsAt(Platform), d);
      ShrunkChain(p, c, a.world, b.world, d.world);
      if r.Stop() { return; }
      var access := api.ReconcileAccessDelete(c);
      ghost var e := api.Now();
      Chain(m, p, c, s, a, s, d, One(AccessKey(c)), e);
      ShrunkChain(p, c, a.world, d.world, e.world);
      if access.AccessFailed? { return r.Fail(InternalError); }
      if access.AccessPending? { return r.(requeue := true); }
      NowClean(p, c, b.world, d.world, e.world);
    }

    /** The two parts after the HelmRelease is gone. */
    method RemoveRemains(c: NamespacedName, rr: ReconcileResult) returns (r: ReconcileResult)
      requires Working(c) && !rr.Stop() && !rr.access && ReleaseAbsent(api.w, c)
      modifies api, api.library
      ensures Working(c) && api.Did(c, NoReleases) && ReleaseAbsent(api.w, c)
      ensures r == rr.(error := r.error, requeue := r.requeue, access := r.access)
      ensures !r.Stop() ==> Clean(api.p, api.w, c)
      ensures !r.Stop() && r.access ==> forall k :: !LiveAt(api.p, api.w, c, Target(c), Secret, k)
      ensures api.mode.Quiet? && !r.Stop() ==> (r.access <==> Usable(old(api.w), c))
      ensures api.reliable && !api.mode.Free? ==> r.error.None?
      ensures r.requeue ==> old(api.log) < api.log && Awaits(api.log[|api.log| - 1], c)
      ensures r.requeue && !api.mode.Free? && api.library.promise.Progressive(BeingDeleted(old(api.w), c)) ==>
                api.Stage(c) <= old(api.Stage(c)) && (api.Stage(c) < old(api.Stage(c)) || api.Stage(c) % 2 == 1)
      ensures !api.mode.Free? && api.library.promise.held == Some(true) && AccessLive(old(api.w), c) ==> r.Stop()
      ensures !api.mode.Free? && api.library.promise.Clinging() && !r.Stop() ==>
                api.library.promise.steady && BeingDeleted(api.w, c)
      ensures api.mode.Quiet? && api.reliable ==>
                AccessTurn(api.Terms(), c, r.requeue, Since(c))
    {
      hide ApiServer.Consistent, Env, Progressed, Clean, AccessStage, AccessLive, NewAccess, LiveAt, Labelled,
        AwaitsGrant, AwaitsRemoval;
      var m, p := api.mode, api.p;
      ghost var a := api.Now();
      UsableIsLive(c, a.world);
      r := RemoveTargetSecrets(c, rr);
      ghost var b := api.Now();
      KeepsCluster(m, p, c, NoReleases, a, b);
      if r.Stop() { return; }
      r := RemoveFromPlatform(c, r);
      KeepsCluster(m, p, c, NoReleases, b, api.Now());
      Chain(m, p, c, NoReleases, a, NoReleases, b, NoReleases, api.Now());
    }

    method HandleDelete(c: NamespacedName, cluster: Cluster, rr: ReconcileResult) returns (r: ReconcileResult)
      requires api.Consistent() && (cluster.finalizer ==> HasFinalizer(api.w, c)) && !rr.Stop() && !rr.access
      modifies this, api, api.library
      ensures api.Consistent() && Grew(c, Everything, old(api.log), api.log)
              && ReleasesLive(api.p, old(api.log), api.log)
      ensures r == rr.(error := r.error, requeue := r.requeue, access := r.access)
      ensures known == old(known) || known == old(known) - {c}
      ensures !cluster.finalizer ==> api.w == old(api.w) && api.log == old(api.log) && !r.Stop()
      ensures !r.Stop() ==> c !in known && (cluster.finalizer ==> !HasFinalizer(api.w, c))
      ensures !r.Stop() && r.access ==> forall k :: !LiveAt(api.p, api.w, c, Target(c), Secret, k)
      ensures cluster.finalizer ==> Undone(api.Terms(), c, r, Since(c))
    {
      hide ApiServer.Consistent, Env, Progressed, ReleasesLive, Clean, AccessStage, AccessLive, NewAccess, Grew,
        OwnershipKept, LiveAt, Labelled, Awaits, AccessTurn, ClusterKept, Undone, Usable, BeingDeleted, HasFinalizer,
        OwnedOrAbsent;
      if !cluster.finalizer {
        RemoveKnownCluster(c);
        NoCall(api.p, c, api.log);
        return rr;
      }
      var m, p := api.mode, api.p;
      ghost var a, torn := api.Now(), api.library.Torn(c);
      r := UndeployHelmRelease(c, rr);
      ghost var b := api.Now();
      Widen(m, p, c, One(ReleaseKey(c)), Everything, a, b);
      Log(m, p, c, a, b);
      if r.Stop() {
        UndoneAtRelease(api.Terms(), c, r, Stretch(a, torn, b, torn));
        return;
      }
      r := RemoveRemains(c, r);
      ghost var e := api.Now();
      ghost var x := Stretch(a, torn, e, api.library.Torn(c));
      NextPhase(m, p, c, a, b, e);
      UndoneAtAccess(api.Terms(), c, r, x, b);
      if r.Stop() { return; }
      ghost var undone := r;
      var ok := api.PatchFinalizerAway(c);
      LastCall(p, c, a.log, e.log, api.log);
      r := if ok then r else r.Fail(PlatformProblem);
      UndoneAtEnd(api.Terms(), c, undone, x, r, Since(c));
      if ok { RemoveKnownCluster(c); }
    }

    // ---------------------------------------------------------------- reconcile

    /** The loop over the purpose configurations: the first one that applies. */
    method FindConfig(configs: seq<PurposeConfig>, purposes: seq<string>) returns (found: Option<PurposeConfig>)
      ensures found == Choice(configs, purposes)
      ensures found.Some? ==>
                exists i ::
                  && 0 <= i < |configs| && found.value == configs[i]
                  && (configs[i].selector.None? || Selectors.Matches(configs[i].selector.value, purposes))
                  && forall j :: 0 <= j < i ==>
                       configs[j].selector.Some? && !Selectors.Matches(configs[j].selector.value, purposes)
      ensures found.None? <==>
                forall i :: 0 <= i < |configs| ==>
                  configs[i].selector.Some? && !Selectors.Matches(configs[i].selector.value, purposes)
    {
      found := None;
      for i := 0 to |configs|
        invariant found.None? && Choice(configs, purposes) == Choice(configs[i..], purposes)
        invariant forall j :: 0 <= j < i ==>
                    configs[j].selector.Some? && !Selectors.Matches(configs[j].selector.value, purposes)
      {
        assert configs[i..][0] == configs[i] && configs[i..][1..] == configs[i + 1..];
        var outcome := Selecting.Selected(configs[i], purposes);
        if outcome == SelectorGraph.Value(true) { return Some(configs[i]); }
      }
    }

    /**
    The first part of reconcile: both configuration objects are read and the configuration for the Cluster is chosen.
     */
    method LoadConfiguration(c: NamespacedName, purposes: seq<string>) returns (r: ReconcileResult)
      requires api.Consistent()
      modifies api
      ensures api.Consistent() && api.Did(c, Nobody)
      ensures AllPreliminary(api.log, |old(api.log)|)
      ensures r == EMPTY_RESULT.(error := r.error, providerConfig := r.providerConfig,
                                 platformService := r.platformService, config := r.config)
      ensures r.error.None? ==> Loaded(api.log, |old(api.log)|, purposes, r)
      ensures r.error.None? ==> r.providerConfig.Some? && r.platformService.Some? && ConfigFits(api.p, r.providerConfig)
      ensures r.error.None? ==> IsFirstMatch(r.providerConfig.value.purposes, purposes, r.config)
      ensures r.error.Some? ==> r.error == Some(ConfigurationProblem) || r.error == Some(PlatformProblem)
      ensures r.error.Some? && api.reliable ==> NotLoaded(api.log, |old(api.log)|, r.error)
      ensures api.mode.Quiet? ==> api.w == old(api.w)
      ensures api.mode.Quiet? && r.error.None? ==>
                r.providerConfig == old(api.w).config && r.platformService == old(api.w).service
      ensures api.mode.Quiet? && api.reliable ==>
                && (r.error.None? <==> old(api.w).config.Some? && old(api.w).service.Some?)
                && (r.error == Some(ConfigurationProblem) <==> old(api.w).config.None?)
    {
      hide ApiServer.Consistent, Env, Progressed, Choice;
      var m, p := api.mode, api.p;
      ghost var b := api.Now();
      r := EMPTY_RESULT;
      var ok, config := api.ReadConfigFor(c);
      ghost var d := api.Now();
      if !ok { return r.Fail(PlatformProblem); }
      if config.None? { return r.Fail(ConfigurationProblem); }
      r := r.(providerConfig := config);
      var service;
      ok, service := api.ReadServiceFor(c);
      ghost var e := api.Now();
      Chain(m, p, c, Nobody, b, Nobody, d, Nobody, e);
      if !ok || service.None? { return r.Fail(PlatformProblem); }
      var purpose := FindConfig(config.value.purposes, purposes);
      r := r.(platformService := service, config := purpose);
    }

    /** The last part of reconcile: create or update, or delete. */
    method Dispatch(c: NamespacedName, cluster: Cluster, rr: ReconcileResult) returns (r: ReconcileResult)
      requires api.Consistent() && (cluster.finalizer ==> HasFinalizer(api.w, c))
      requires rr.providerConfig.Some? && rr.platformService.Some? && ConfigFits(api.p, rr.providerConfig)
      requires !rr.Stop() && !rr.access && rr.accessRequest.None?
      modifies this, api, api.library
      ensures api.Consistent() && Grew(c, Everything, old(api.log), api.log)
      ensures r.providerConfig == rr.providerConfig && r.platformService == rr.platformService && r.config == rr.config
      ensures known == old(known) || known == old(known) + {c} || known == old(known) - {c}
      ensures !api.mode.Free? && Calm(old(api.w), c) ==> ReleasesLive(api.p, old(api.log), api.log)
      ensures Handled(api.Terms(), c, cluster, r.config.Some?
                      && !cluster.deleting, Reply(r.error, r.requeue, known), Since(c))
      ensures !api.mode.Free? && api.library.promise.Clinging() && cluster.finalizer ==> Clung(api.Terms(), c, Since(c))
      ensures api.mode.Quiet? ==>
                Effected(api.Terms(), c, cluster, r.providerConfig.value, r.platformService.value,
                         if cluster.deleting then None else r.config, Reply(r.error, r.requeue, known), Since(c))
    {
      hide ApiServer.Consistent, Env, Progressed, ReleasesLive, SourcesSpared, PlansFit, Settled, Grew, Calm,
        Deployable, AccessStage, AccessTurn, Advances, OwnershipKept, Clung;
      ghost var a := api.Now();
      if !cluster.deleting && rr.config.Some? {
        r := HandleCreateOrUpdate(c, cluster, rr);
        Log(api.mode, api.p, c, a, api.Now());
        KeepsCluster(api.mode, api.p, c, Everything, a, api.Now());
        if cluster.finalizer {
          StillClung(api.Terms(), c, Stretch(a, api.library.Torn(c), api.Now(), api.library.Torn(c)));
        }
      } else {
        r := HandleDelete(c, cluster, rr);
      }
    }

    /** What comes first: a reconcile annotation is removed, and the configuration is loaded. */
    method Begin(c: NamespacedName, cluster: Cluster) returns (r: ReconcileResult)
      requires api.Consistent() && EffectiveOperation(cluster) != Some(OPERATION_IGNORE)
      modifies api
      ensures api.Consistent() && api.Did(c, Nobody) && AllPreliminary(api.log, |old(api.log)|)
      ensures !r.requeue && !r.access && r.accessRequest.None?
      ensures r.error.None? ==> Loaded(api.log, ReadAt(cluster, |old(api.log)|), cluster.purposes, r)
      ensures r.error.None? ==> r.providerConfig.Some? && r.platformService.Some? && ConfigFits(api.p, r.providerConfig)
      ensures r.error.None? && EffectiveOperation(cluster) == Some(OPERATION_RECONCILE) ==>
                |old(api.log)| < |api.log| && api.log[|old(api.log)|].action.DropAnnotation?
      ensures r.error.Some? && api.reliable && c in old(api.w).clusters ==>
                NotLoaded(api.log, ReadAt(cluster, |old(api.log)|), r.error)
      ensures api.mode.Quiet? ==> api.w.objs == old(api.w).objs
      ensures api.mode.Quiet? && r.error.None? ==>
                r.providerConfig == old(api.w).config && r.platformService == old(api.w).service
      ensures api.mode.Quiet? && r.error.Some? && api.reliable && c in old(api.w).clusters ==>
                NotLoadedFrom(old(api.w), r.error)
    {
      hide ApiServer.Consistent, Env, Progressed, Loaded, NotLoaded, AllPreliminary, EffectiveOperation;
      var m, p := api.mode, api.p;
      ghost var a := api.Now();
      r := EMPTY_RESULT;
      Standstill(m, p, c, Nobody, a);
      if EffectiveOperation(cluster) == Some(OPERATION_RECONCILE) {
        var ok := api.PatchAnnotationAway(c);
        OnlyAnnotationRemoved(api.log, |a.log|);
        if !ok { return r.Fail(PlatformProblem); }
      }
      ghost var b := api.Now();
      r := LoadConfiguration(c, cluster.purposes);
      ghost var e := api.Now();
      ReadsKeep(m, p, c, b, e);
      Chain(m, p, c, Nobody, a, Nobody, b, Nobody, e);
      if b != a { PreliminaryChain(a.log, b.log, e.log); }
    }

    method ReconcileCluster(c: NamespacedName, cluster: Cluster) returns (r: ReconcileResult)
      requires api.Consistent() && (cluster.finalizer ==> HasFinalizer(api.w, c))
      modifies this, api, api.library
      ensures api.Consistent() && Grew(c, Everything, old(api.log), api.log)
      ensures known == old(known) || known == old(known) + {c} || known == old(known) - {c}
      ensures InForce(cluster, "ignore") ==>
                api.w == old(api.w) && api.log == old(api.log) && known == old(known)
      ensures !r.Stop() && InForce(cluster, "reconcile") ==>
                |old(api.log)| < |api.log| && api.log[|old(api.log)|].action.DropAnnotation?
      ensures !api.mode.Free? && Calm(old(api.w), c) ==> ReleasesLive(api.p, old(api.log), api.log)
      ensures Conducted(api.Terms(), c, cluster, Reply(r.error, r.requeue, known), Since(c))
      ensures api.mode.Quiet? ==> Resulted(api.Terms(), c, cluster, Reply(r.error, r.requeue, known), Since(c))
    {
      hide ApiServer.Consistent, Env, Progressed, ReleasesLive, Grew, Calm, EffectiveOperation, AccessStage, Choice,
        Loaded, NotLoaded, NotLoadedFrom, AllPreliminary, Conducted, Resulted, Handled, Effected, Clung, InForce;
      var m, p := api.mode, api.p;
      ghost var a, torn := api.Now(), api.library.Torn(c);
      r := EMPTY_RESULT;
      NoCall(p, c, a.log);
      OperationsByCases(cluster);
      if EffectiveOperation(cluster) == Some(OPERATION_IGNORE) {
        Ignored(api.Terms(), c, cluster, known, a, torn);
        return;
      }
      r := Begin(c, cluster);
      ghost var e := api.Now();
      StaysCalm(m, p, c, a, e);
      if r.error.Some? {
        FailsEarly(api.Terms(), c, cluster, Reply(r.error, r.requeue, known), Stretch(a, torn, e, torn));
        return;
      }
      ghost var loaded := r;
      r := Dispatch(c, cluster, r);
      FirstStays(c, a.log, e.log, api.log);
      Dispatched(api.Terms(), c, cluster, loaded, Reply(r.error, r.requeue, known),
                 Stretch(a, torn, api.Now(), api.library.Torn(c)), e);
      GrewChain(c, a.log, e.log, api.log);
      ReleasesLiveChain(p, a.log, e.log, api.log);
    }

    /** Reconcile: a request for a Cluster, which may be gone. */
    method Reconcile(c: NamespacedName) returns (error: Option<Error>, requeue: bool)
      requires api.Consistent()
      modifies this, api, api.library
      ensures api.Consistent() && Grew(c, Everything, old(api.log), api.log)
      ensures known == old(known) || known == old(known) + {c} || known == old(known) - {c}
      ensures api.reliable && c !in old(api.w).clusters ==>
                error.None? && !requeue && c !in known && api.log == old(api.log)
      ensures !api.mode.Free? && Calm(old(api.w), c) ==> ReleasesLive(api.p, old(api.log), api.log)
      ensures c in old(api.w).clusters ==>
                Conducted(api.Terms(), c, old(api.w).clusters[c], Reply(error, requeue, known), Since(c))
      ensures c in old(api.w).clusters && api.mode.Quiet? ==>
                Resulted(api.Terms(), c, old(api.w).clusters[c], Reply(error, requeue, known), Since(c))
    {
      hide ApiServer.Consistent, Env, Progressed, ReleasesLive, Grew, SourcesUnmarked, EffectiveOperation, AccessStage,
        Conducted, Resulted;
      var m, p := api.mode, api.p;
      ghost var a, torn := api.Now(), api.library.Torn(c);
      var ok, cluster := api.GetCluster(c);
      ghost var b := api.Now();
      EnvProgresses(m, p, c, Nobody, a.world, b.world, a.log);
      Undisturbed(m, p, c, a, b);
      if !ok {
        if c in a.world.clusters {
          NotRead(api.Terms(), c, a.world.clusters[c], known, Stretch(a, torn, b, torn));
        }
        return Some(PlatformProblem), false;
      }
      if cluster.None? {
        RemoveKnownCluster(c);
        return None, false;
      }
      var r := ReconcileCluster(c, cluster.value);
      ConductedFrom(api.Terms(), c, cluster.value, Reply(r.error, r.requeue, known),
                    Stretch(a, torn, api.Now(), api.library.Torn(c)), b);
      GrewChain(c, a.log, b.log, api.log);
      ReleasesLiveChain(p, a.log, b.log, api.log);
      return r.error, r.requeue;
    }

    /**
    Idempotence: left alone, a reconcile that follows a successful one changes no object on either cluster, and where
    calls do not fail and access is still usable, it succeeds as well.
     */
    method ReconcileTwice(c: NamespacedName) returns (success: bool, again: bool, ghost between: World)
      requires api.Consistent()
      modifies this, api, api.library
      ensures api.Consistent()
      ensures api.mode.Quiet? && success && ToDeploy(c, old(api.w))
              && PlansFit(api.p, c, old(api.w).config.value, old(api.w).service.value)
              && SourcesSpared(api.p, c, old(api.w).config.value, old(api.w).service.value, old(api.w)) ==>
                && Settled(api.p, c, old(api.w).config.value, old(api.w).service.value,
                           Chosen(old(api.w).clusters[c], old(api.w)).value, between)
                && api.w.objs == between.objs
                && (api.reliable && Usable(between, c) ==> again)
    {
      hide ApiServer.Consistent, Env, ReleasesLive, Grew, SourcesSpared, PlansFit, Settled, AccessStage, AccessTurn,
        Choice, Blocked, Deploys, HeldUp, WentOn, Clung, OwnershipKept, Deployable, Usable;
      ghost var w := api.w;
      var error, requeue := Reconcile(c);
      success, between := error.None? && !requeue, api.w;
      if api.mode.Quiet? && ToDeploy(c, w)
      && Settled(api.p, c, w.config.value, w.service.value, Chosen(w.clusters[c], w).value, between) {
        SettledIsDeployable(api.p, c, w.config.value, w.service.value, Chosen(w.clusters[c], w).value, between);
      }
      error, requeue := Reconcile(c);
      again := error.None? && !requeue;
    }

    /**
    The reconciles of a Cluster with finalizer, on servers whose calls do not fail, for at most so many rounds, until
    the finalizer is off. If the Cluster stays deleted or unmatched, and access that is torn down does not come back or
    is not held, then every round finishes, brings the HelmRelease or access closer to its end, has to wait for others
    to do so, or is held up by a missing configuration or service or the ignore annotation: so there are at most seven
    rounds more than there are of the latter two kinds. If torn down access is always held and requested access is
    waited for, the finalizer does not come off at all, unless the library is steady and the Cluster is being deleted.
     */
    method TearDown(c: NamespacedName, limit: nat) returns (ghost rounds: seq<Round>)
      requires api.Consistent() && api.reliable && !api.mode.Free? && OwnedOrAbsent(api.p, c, api.w, ReleaseKey(c))
      modifies this, api, api.library
      ensures api.Consistent() && api.log == old(api.log) + AllCalls(rounds) && Successive(c, old(api.w), rounds)
      ensures |rounds| == limit || (|rounds| < limit && !HasFinalizer(api.w, c))
      ensures rounds != [] && !HasFinalizer(api.w, c) ==> c !in known
      ensures api.library.promise.Progressive(BeingDeleted(old(api.w), c)) && HasFinalizer(api.w, c)
              && NeverDeploys(rounds) ==>
                limit <= Delays(rounds, api.w) + ReleaseStage(old(api.w), c) + old(api.Stage(c)) <= Delays(rounds,
                                                                                                           api.w) + 7
      ensures BeingDeleted(old(api.w), c) ==> NeverDeploys(rounds)
      ensures api.library.promise.Clinging() && HasFinalizer(old(api.w), c) ==>
                Clung(api.Terms(), c, Since(c))
    {
      hide ApiServer.Consistent, Env, Progressed, Grew, AccessStage, Conducted, Resulted, TearingDown, Clung;
      rounds := [];
      StageAtMost(api.library.Torn(c), api.w, c);
      SetOut(api.Terms(), c, Since(c), known);
      for i := 0 to limit
        invariant api.Consistent() && |rounds| == i && TearingDown(api.Terms(), c, Since(c), rounds, known)
      {
        ghost var x, before := Since(c), known;
        if !(c in api.w.clusters && api.w.clusters[c].finalizer) { break; }
        var error, requeue := Reconcile(c);
        FirstStays(c, x.b.log, x.b.log, api.log);
        ghost var round := Round(c, x.b.world, api.log[|x.b.log|..]);
        GoOn(api.Terms(), c, x, rounds, before, Reply(error, requeue, known), Since(c), round);
        rounds := rounds + [round];
      }
      TearingDownMeans(api.Terms(), c, Since(c), rounds, known);
    }
  }

  ghost predicate WritesRelease(r: Round) { exists i :: 0 <= i < |r.calls| && r.calls[i].action.PutRelease? }

  /** Every reconcile that wrote a HelmRelease began when no source and no access of its Cluster was on its way out. */
  ghost predicate AllCalm(rounds: seq<Round>) {
    forall i :: 0 <= i < |rounds| && WritesRelease(rounds[i]) ==> Calm(rounds[i].begin, rounds[i].cluster)
  }

  lemma NothingWritten(p: Params, log: seq<Event>, r: Round)
    requires !WritesRelease(r)
    ensures ReleasesLive(p, log, log + r.calls)
  {
    var all := log + r.calls;
    forall i | |log| <= i < |all| ensures ReleaseLive(p, all[i]) {
      assert all[i] == r.calls[i - |log|];
    }
  }

  /** Every world of a run, before and after each call. */
  ghost predicate Throughout(log: seq<Event>, inv: World -> bool) {
    forall i :: 0 <= i < |log| ==> inv(log[i].pre) && inv(log[i].post)
  }

  /**
  The controller at work: requests are served one after the other, in an environment that moves at any time, with calls
  that fail at any time, and with a process that dies at any time and is started again with nothing remembered. `rounds`
  are the reconciles.
   */
  method Operate(api: ApiServer, requests: seq<NamespacedName>) returns (ghost rounds: seq<Round>)
    requires api.Consistent() && api.log == []
    modifies api, api.library
    ensures api.Consistent() && |rounds| == |requests|
            && (forall i :: 0 <= i < |rounds| ==> rounds[i].cluster == requests[i])
    ensures api.log == AllCalls(rounds)
    ensures CrashSafe(api.p, api.origin) ==> CrashSafe(api.p, api.w) && Throughout(api.log, w => CrashSafe(api.p, w))
    ensures api.p.fixedKind.Some? && !api.mode.Free? && AllAnchored(api.p, api.origin) && AllCalm(rounds) ==>
              AllAnchored(api.p, api.w) && Throughout(api.log, w => AllAnchored(api.p, w))
    ensures api.p.fixedKind.Some? && api.mode.Orderly? && AllAnchored(api.p, api.origin)
            && SourcesOwn(api.p, api.origin) ==>
              (Undangling(api.p, api.log) <==> ReleasesLive(api.p, [], api.log))
  {
    hide ReleasesLive, AllCalm, AllAnchored, CrashSafe, Calm, Grew, Throughout, Undangling, SourcesOwn, Conducted,
      Resulted, AllCalls, Run, Env, StartsAt, Reached, ConfigFits;
    var r := new ClusterReconciler(api);
    rounds := [];
    NoRounds(api.mode, api.p);
    for i := 0 to |requests|
      invariant api.Consistent() && r.api == api && fresh(r)
      invariant |rounds| == i && (forall j :: 0 <= j < i ==> rounds[j].cluster == requests[j])
      invariant Recorded(api.mode, api.p, rounds, api.log)
    {
      if * {
        api.Restart();
        r := new ClusterReconciler(api);
      }
      ghost var a := api.Now();
      var error, requeue := r.Reconcile(requests[i]);
      var round := OneMoreRound(api.mode, api.p, rounds, requests[i], a, api.log);
      rounds := rounds + [round];
    }
    Kept(api.mode, api.p, api.origin, api.log, api.w);
  }

  /** The log consists of the rounds' calls; with calm rounds the sources and access of HelmReleases were alive. */
  ghost predicate Recorded(m: Mode, p: Params, rounds: seq<Round>, log: seq<Event>) {
    log == AllCalls(rounds) && (!m.Free? && AllCalm(rounds) ==> ReleasesLive(p, [], log))
  }

  lemma NoRounds(m: Mode, p: Params)
    ensures Recorded(m, p, [], [])
  {
  }

  lemma OneMoreRound(m: Mode, p: Params, rounds: seq<Round>, c: NamespacedName, a: Moment, log: seq<Event>)
      returns (r: Round)
    requires Recorded(m, p, rounds, a.log) && Grew(c, Everything, a.log, log)
    requires !m.Free? && Calm(a.world, c) ==> ReleasesLive(p, a.log, log)
    ensures r == Round(c, a.world, log[|a.log|..]) && Recorded(m, p, rounds + [r], log)
  {
    hide ReleaseLive, Calm;
    r := Round(c, a.world, log[|a.log|..]);
    var more := rounds + [r];
    assert more[..|more| - 1] == rounds && more[|more| - 1] == r && a.log + r.calls == log;
    if !m.Free? && AllCalm(more) {
      assert forall i :: 0 <= i < |rounds| ==> more[i] == rounds[i];
      if !WritesRelease(r) { NothingWritten(p, a.log, r); }
      ReleasesLiveChain(p, [], a.log, log);
    }
  }

  /** What the run of the controller keeps. */
  lemma Kept(m: Mode, p: Params, origin: World, log: seq<Event>, w: World)
    requires StartsAt(m, p, origin, log) && Run(m, p, log) && Env(m, p, Reached(origin, log), w)
    ensures CrashSafe(p, origin) ==> CrashSafe(p, w) && Throughout(log, w => CrashSafe(p, w))
    ensures p.fixedKind.Some? && !m.Free? && AllAnchored(p, origin) && ReleasesLive(p, [], log) ==>
              AllAnchored(p, w) && Throughout(log, w => AllAnchored(p, w))
    ensures p.fixedKind.Some? && m.Orderly? && AllAnchored(p, origin) && SourcesOwn(p, origin) ==>
              (Undangling(p, log) <==> ReleasesLive(p, [], log))
  {
    hide Run, Env, ReleasesLive, CrashSafe, AllAnchored, SourcesOwn;
    if p.fixedKind.Some? && m.Orderly? && AllAnchored(p, origin) && SourcesOwn(p, origin) {
      NoDanglingIffLive(p, origin, log);
    }
    if CrashSafe(p, origin) { CrashSafety(m, p, origin, log); }
    if p.fixedKind.Some? && !m.Free? && AllAnchored(p, origin) && ReleasesLive(p, [], log) {
      NoDangling(m, p, origin, log);
    }
  }
}
