/**
The reconciler as a guarded protocol: what the environment may do between two API calls, what a single API call of
the controller may do and under which guard, and what follows for every run. The controller's methods (module
Controller) prove that each of their API calls is Legal; this module proves what legal runs keep.
 */
module Protocol {
  import opened Options
  import opened Kubernetes

  // ---------------------------------------------------------------- environment

  /**
  Free: anybody may act at any time. Orderly: nobody else creates objects, deletes managed ones or revokes access.
  Quiet: nothing moves.
   */
  datatype Mode = Free | Orderly | Quiet

  predicate HasSuffix(s: string, suffix: string) {
    |suffix| <= |s| && s[|s| - |suffix|..] == suffix
  }

  /** Keys that only this controller (or its access library) uses. */
  predicate Reserved(k: Key) {
    && k.site.Platform?
    && (k.kind.AccessRequest? || ((k.kind.HelmRelease? || IsSourceKind(k.kind)) && HasSuffix(k.name, NAME_SUFFIX)))
  }

  predicate Managed(p: Params, k: Key, o: Obj) {
    Reserved(k) || (MANAGED_BY in o.labels && o.labels[MANAGED_BY] == ManagedByValue(p))
  }

  /** Users create, edit and delete Clusters; a Cluster that carries the finalizer neither vanishes nor loses it. */
  predicate ClustersMove(w: World, v: World) {
    && (forall c | c in v.clusters :: v.clusters[c].finalizer ==> c in w.clusters && w.clusters[c].finalizer)
    && (forall c | c in w.clusters :: w.clusters[c].finalizer ==>
          c in v.clusters && v.clusters[c].finalizer && (w.clusters[c].deleting ==> v.clusters[c].deleting))
  }

  /**
  Others neither create managed objects nor relabel nor revive them; they may delete them, finish deletions, grant
  access.
   */
  predicate ObjectsMove(p: Params, w: World, v: World) {
    forall k | k in v.objs :: Managed(p, k, v.objs[k]) ==>
      && k in w.objs && Managed(p, k, w.objs[k])
      && v.objs[k].labels == w.objs[k].labels
      && (w.objs[k].terminating ==> v.objs[k].terminating)
  }

  predicate OrderlyMove(p: Params, w: World, v: World) {
    && (forall k | k in v.objs :: k in w.objs && (Managed(p, k, w.objs[k]) ==>
          Managed(p, k, v.objs[k]) && (k.kind.AccessRequest? || v.objs[k].body == w.objs[k].body)))
    && (forall k | k in w.objs :: Managed(p, k, w.objs[k]) && !w.objs[k].terminating ==>
          && k in v.objs && !v.objs[k].terminating
          && (k.kind.AccessRequest? || v.objs[k] == w.objs[k])
          && (IsGranted(w.objs[k]) ==> IsGranted(v.objs[k])))
  }

  predicate IsGranted(o: Obj) { o.body.Grant? && o.body.granted }

  /** Any number of moves of everybody else, between two API calls of the controller. */
  predicate Env(m: Mode, p: Params, w: World, v: World) {
    && (ConfigFits(p, w.config) ==> ConfigFits(p, v.config))
    && match m
       case Quiet => v == w
       case Orderly => ClustersMove(w, v) && ObjectsMove(p, w, v) && OrderlyMove(p, w, v)
       case Free => ClustersMove(w, v) && ObjectsMove(p, w, v)
  }

  lemma EnvReflexive(m: Mode, p: Params, w: World)
    ensures Env(m, p, w, w)
  {
  }

  lemma EnvTransitive(m: Mode, p: Params, u: World, v: World, w: World)
    requires Env(m, p, u, v) && Env(m, p, v, w)
    ensures Env(m, p, u, w)
  {
  }

  // ---------------------------------------------------------------- state predicates

  predicate HasFinalizer(w: World, c: NamespacedName) { c in w.clusters && w.clusters[c].finalizer }

  predicate BeingDeleted(w: World, c: NamespacedName) { c in w.clusters && w.clusters[c].deleting }

  predicate ReleaseAbsent(w: World, c: NamespacedName) { ReleaseKey(c) !in w.objs }
  predicate AccessAbsent(w: World, c: NamespacedName) { AccessKey(c) !in w.objs }

  /** A labelled object of the given kind in the Cluster's namespace (or copy namespace) that is not being deleted. */
  predicate LiveAt(p: Params, w: World, c: NamespacedName, site: Site, kind: Kind, k: Key) {
    && k in w.objs && k.site == site && k.kind == kind && k.namespace == CopyNamespace(c, site)
    && Labelled(p, c, w.objs[k]) && !w.objs[k].terminating
  }

  /** What a list call with the Cluster's labels returns. */
  predicate Listed(p: Params, w: World, c: NamespacedName, site: Site, kind: Kind, namespace: string, k: Key) {
    k in w.objs && k.site == site && k.kind == kind && k.namespace == namespace && Labelled(p, c, w.objs[k])
  }

  /** All live labelled objects of a kind are among `keys`. */
  ghost predicate LiveWithin(p: Params, w: World, c: NamespacedName, site: Site, kind: Kind, keys: set<Key>) {
    forall k :: LiveAt(p, w, c, site, kind, k) ==> k in keys
  }

  /** What must hold of a Cluster that does not carry the finalizer. */
  ghost predicate Clean(p: Params, w: World, c: NamespacedName) {
    && ReleaseAbsent(w, c)
    && AccessAbsent(w, c)
    && LiveWithin(p, w, c, Platform, HelmRepository, {})
    && LiveWithin(p, w, c, Platform, GitRepository, {})
    && LiveWithin(p, w, c, Platform, OCIRepository, {})
    && LiveWithin(p, w, c, Platform, Secret, {})
  }

  ghost predicate CrashSafe(p: Params, w: World) {
    forall c :: !HasFinalizer(w, c) ==> Clean(p, w, c)
  }

  // ---------------------------------------------------------------- API calls of the controller

  datatype Cause = Undeploy | Teardown | Obsolete(selected: Kind) | Prune

  datatype Action =
    | AddFinalizer
    | RemoveFinalizer
    | DropAnnotation
    | ReadConfig
    | ReadService
    | RequestAccess
    | ReleaseAccess
    | ReadSource(name: string, registered: bool)
    | PutSecret(key: Key, checked: World)
    | PutSource(key: Key)
    | PutRelease
    | PutNamespace
    | Delete(key: Key, cause: Cause, seen: World, at: nat)

  /**
  One API call on behalf of a Cluster: the world it found and the world it left. `checked` and `seen` are the worlds in
  which the call's target was looked at before; `at` is the number of calls that had been made then.
   */
  datatype Event = Event(cluster: NamespacedName, action: Action, pre: World, post: World)

  function Write(w: World, k: Key, o: Obj): World { w.(objs := w.objs[k := o]) }

  function Gone(w: World, k: Key): World { w.(objs := w.objs - {k}) }

  function Marked(w: World, k: Key): World {
    if k in w.objs then Write(w, k, w.objs[k].(terminating := true)) else w
  }

  /**
  Deleting removes an object, or marks it when somebody's finalizer holds it; an object already marked stays as it is.
   */
  predicate DeleteEffect(w: World, k: Key, v: World) {
    if k in w.objs && !w.objs[k].terminating then v == Gone(w, k) || v == Marked(w, k) else v == w
  }

  predicate IsWrite(p: Params, c: NamespacedName, w: World, k: Key, v: World) {
    && k in v.objs
    && v == Write(w, k, v.objs[k])
    && Labelled(p, c, v.objs[k])
    && v.objs[k].terminating == TerminatingOf(Lookup(w, k))
  }

  predicate IsCopyKey(c: NamespacedName, k: Key) {
    k.kind.Secret? && (k.site.Platform? || k.site == Target(c)) && k.namespace == CopyNamespace(c, k.site)
  }

  predicate OwnedOrAbsent(p: Params, c: NamespacedName, w: World, k: Key) {
    k in w.objs ==> Labelled(p, c, w.objs[k])
  }

  /** The guard under which a delete call is issued: teardown calls come only after the HelmRelease is gone. */
  predicate MayDelete(p: Params, c: NamespacedName, w: World, k: Key, cause: Cause) {
    DeletableKey(p, c, k, cause) && (cause.Teardown? ==> ReleaseAbsent(w, c))
  }

  predicate DeletableKey(p: Params, c: NamespacedName, k: Key, cause: Cause) {
    match cause
    case Undeploy => k == ReleaseKey(c)
    case Teardown => IsCopyKey(c, k) || IsPlatformSource(c, k)
    case Obsolete(selected) => IsPlatformSource(c, k) && k != SourceKey(c, selected) && KindFits(p, selected)
    case Prune => IsCopyKey(c, k)
  }

  predicate IsPlatformSource(c: NamespacedName, k: Key) {
    k.site.Platform? && IsSourceKind(k.kind) && k.namespace == c.namespace
  }

  /** The effect of an API call together with the guard the controller's code establishes before it. */
  ghost predicate Legal(m: Mode, p: Params, e: Event) {
    var c, w, v := e.cluster, e.pre, e.post;
    && v.config == w.config && v.service == w.service
    && match e.action
       case AddFinalizer =>
         c in w.clusters && v == w.(clusters := w.clusters[c := w.clusters[c].(finalizer := true)])
       case RemoveFinalizer =>
         && HasFinalizer(w, c) && Clean(p, w, c)
         && (v == w.(clusters := w.clusters - {c})
             || v == w.(clusters := w.clusters[c := w.clusters[c].(finalizer := false)]))
       case DropAnnotation =>
         c in w.clusters && v == w.(clusters := w.clusters[c := w.clusters[c].(operation := None)])
       case ReadConfig => v == w
       case ReadService => v == w
       case RequestAccess =>
         HasFinalizer(w, c) && (v == w || (AccessAbsent(w, c) && IsWrite(p, c, w, AccessKey(c), v)))
       case ReleaseAccess =>
         HasFinalizer(w, c) && ReleaseAbsent(w, c) && DeleteEffect(w, AccessKey(c), v)
       case ReadSource(_, registered) =>
         HasFinalizer(w, c) && registered && v == w
       case PutSecret(k, checked) =>
         && Env(m, p, checked, w) && OwnedOrAbsent(p, c, checked, k)
         && HasFinalizer(w, c) && IsCopyKey(c, k) && IsWrite(p, c, w, k, v)
         && (!m.Free? ==> OwnedOrAbsent(p, c, w, k))
       case PutSource(k) =>
         && HasFinalizer(w, c) && IsSourceKind(k.kind) && k == SourceKey(c, k.kind) && IsWrite(p, c, w, k, v)
       case PutRelease =>
         && HasFinalizer(w, c) && IsWrite(p, c, w, ReleaseKey(c), v)
         && var b := v.objs[ReleaseKey(c)].body;
            && b.Release? && IsSourceKind(b.sourceKind) && KindFits(p, b.sourceKind)
            && b.sourceNamespace == c.namespace && b.sourceName == DerivedName(c.name)
       case PutNamespace =>
         && HasFinalizer(w, c) && NamespaceKey(c) !in w.objs
         && v == Write(w, NamespaceKey(c), NEW_NAMESPACE)
       case Delete(k, cause, seen, _) =>
         && k in seen.objs && Labelled(p, c, seen.objs[k])
         && HasFinalizer(w, c) && MayDelete(p, c, w, k, cause) && DeleteEffect(w, k, v)
         && (!m.Free? ==> OwnedOrAbsent(p, c, w, k))
  }

  /** The world together with the calls recorded so far. */
  datatype Moment = Moment(world: World, log: seq<Event>)

  /** From the world of an earlier point others have moved on to the next call, or to now if there was none. */
  ghost predicate Follows(m: Mode, p: Params, a: Moment, b: Moment) {
    a.log <= b.log && Env(m, p, a.world, if |a.log| < |b.log| then b.log[|a.log|].pre else b.world)
  }

  /** The run was in this world once `at` calls had been made, and since then only calls for this Cluster followed. */
  ghost predicate OnTheWay(m: Mode, p: Params, c: NamespacedName, seen: World, at: nat, b: Moment) {
    && at <= |b.log|
    && (at > 0 ==> Env(m, p, b.log[at - 1].post, seen))
    && Env(m, p, seen, if at < |b.log| then b.log[at].pre else b.world)
    && forall j :: at <= j < |b.log| ==> b.log[j].cluster == c
  }

  /** What a call remembers was indeed seen on the way. */
  ghost predicate Recalls(m: Mode, p: Params, log: seq<Event>, e: Event) {
    match e.action
    case PutSecret(_, checked) => OnTheWay(m, p, e.cluster, checked, |log|, Moment(e.pre, log))
    case Delete(_, _, seen, at) => OnTheWay(m, p, e.cluster, seen, at, Moment(e.pre, log))
    case _ => true
  }

  /** A run: legal calls, with the environment moving in between. Crashes and restarts are invisible here: a crash
      merely ends one reconcile after some call, and the calls of the next one follow. */
  ghost predicate Run(m: Mode, p: Params, log: seq<Event>) {
    && (forall i :: 0 <= i < |log| ==> Legal(m, p, log[i]))
    && (forall i :: 0 <= i < |log| - 1 ==> Env(m, p, log[i].post, log[i + 1].pre))
    && (forall i :: 0 <= i < |log| ==> Recalls(m, p, log[..i], log[i]))
  }

  /** The world a run has reached: the last call's outcome, or where it started. */
  ghost function Reached(start: World, log: seq<Event>): World {
    if log == [] then start else log[|log| - 1].post
  }

  ghost predicate StartsAt(m: Mode, p: Params, start: World, log: seq<Event>) {
    log != [] ==> Env(m, p, start, log[0].pre)
  }

  lemma RunExtends(m: Mode, p: Params, start: World, log: seq<Event>, e: Event)
    requires Run(m, p, log) && StartsAt(m, p, start, log)
    requires Legal(m, p, e) && Env(m, p, Reached(start, log), e.pre) && Recalls(m, p, log, e)
    ensures Run(m, p, log + [e]) && StartsAt(m, p, start, log + [e]) && Reached(start, log + [e]) == e.post
  {
    var longer := log + [e];
    forall i | 0 <= i < |longer| ensures Legal(m, p, longer[i]) {
      if i < |log| { assert longer[i] == log[i]; }
    }
    forall i | 0 <= i < |longer| - 1 ensures Env(m, p, longer[i].post, longer[i + 1].pre) {
      if i < |log| - 1 { assert longer[i] == log[i] && longer[i + 1] == log[i + 1]; }
    }
    forall i | 0 <= i < |longer| ensures Recalls(m, p, longer[..i], longer[i]) {
      if i < |log| {
        assert longer[..i] == log[..i] && longer[i] == log[i];
      } else {
        assert longer[..i] == log;
      }
    }
  }

  lemma RunAt(m: Mode, p: Params, log: seq<Event>, i: nat)
    requires Run(m, p, log) && i < |log|
    ensures Legal(m, p, log[i]) && Recalls(m, p, log[..i], log[i])
    ensures i > 0 ==> Env(m, p, log[i - 1].post, log[i].pre)
  {
    hide Legal, Recalls, Env;
    if i > 0 { assert Env(m, p, log[i - 1].post, log[i - 1 + 1].pre); }
  }

  /** A run cut short is a run. */
  lemma RunShrinks(m: Mode, p: Params, log: seq<Event>, n: nat)
    requires Run(m, p, log) && n <= |log|
    ensures Run(m, p, log[..n])
  {
    var front := log[..n];
    forall i | 0 <= i < n ensures Legal(m, p, front[i]) && Recalls(m, p, front[..i], front[i]) {
      assert front[i] == log[i] && front[..i] == log[..i];
    }
    forall i | 0 <= i < n - 1 ensures Env(m, p, front[i].post, front[i + 1].pre) {
      assert front[i] == log[i] && front[i + 1] == log[i + 1];
    }
  }

  lemma LegalKeepsConfig(m: Mode, p: Params, e: Event)
    requires Legal(m, p, e)
    ensures e.post.config == e.pre.config
  {
  }

  // ---------------------------------------------------------------- derived names are injective

  lemma DerivedNameInjective(a: string, b: string)
    requires DerivedName(a) == DerivedName(b)
    ensures a == b
  {
    assert DerivedName(a)[..|a|] == a && DerivedName(b)[..|b|] == b;
  }

  lemma DerivedNameReserved(a: string)
    ensures HasSuffix(DerivedName(a), NAME_SUFFIX)
  {
  }

  // ---------------------------------------------------------------- what calls and moves leave alone

  /** Nothing of the Cluster came to life, and its finalizer is still on. */
  ghost predicate Shrunk(p: Params, c: NamespacedName, w: World, v: World) {
    && (HasFinalizer(w, c) ==> HasFinalizer(v, c))
    && (ReleaseAbsent(w, c) ==> ReleaseAbsent(v, c))
    && (AccessAbsent(w, c) ==> AccessAbsent(v, c))
    && (forall site, kind, k :: LiveAt(p, v, c, site, kind, k) ==> LiveAt(p, w, c, site, kind, k))
  }

  /**
  The resource is there or not as before, and only its finalizer may have changed, or its operation annotation gone.
   */
  predicate SameResource(c: NamespacedName, w: World, v: World) {
    && (c in v.clusters <==> c in w.clusters)
    && (c in w.clusters ==>
          v.clusters[c] == w.clusters[c].(finalizer := v.clusters[c].finalizer, operation := v.clusters[c].operation)
          && (v.clusters[c].operation == w.clusters[c].operation || v.clusters[c].operation.None?))
  }

  /**
  A finalizer stays on, and with it a deletion that was asked for; left alone, the resource and the configuration stay.
   */
  ghost predicate ClusterKept(m: Mode, c: NamespacedName, w: World, v: World) {
    && (HasFinalizer(w, c) ==> HasFinalizer(v, c) && (BeingDeleted(w, c) ==> BeingDeleted(v, c)))
    && (m.Quiet? ==> v.config == w.config && v.service == w.service && SameResource(c, w, v))
  }

  lemma ClusterKeptChain(m: Mode, c: NamespacedName, u: World, w: World, v: World)
    requires ClusterKept(m, c, u, w) && ClusterKept(m, c, w, v)
    ensures ClusterKept(m, c, u, v)
  {
  }

  lemma EnvKeepsCluster(m: Mode, p: Params, c: NamespacedName, w: World, v: World)
    requires Env(m, p, w, v)
    ensures ClusterKept(m, c, w, v)
  {
  }

  /** A call other than the removal of the finalizer. */
  lemma CallKeepsCluster(m: Mode, p: Params, e: Event)
    requires Legal(m, p, e) && !e.action.RemoveFinalizer?
    ensures ClusterKept(m, e.cluster, e.pre, e.post)
  {
    hide Clean, Env, Labelled;
  }

  /**
  Nothing appears under this key, and a live managed object survives unchanged (an AccessRequest may change its status).
   */
  predicate Stays(p: Params, w: World, v: World, k: Key) {
    && (k !in w.objs ==> k !in v.objs)
    && (k in w.objs && Managed(p, k, w.objs[k]) && !w.objs[k].terminating ==>
          && k in v.objs && !v.objs[k].terminating && v.objs[k].labels == w.objs[k].labels
          && (k.kind.AccessRequest? || v.objs[k] == w.objs[k])
          && (IsGranted(w.objs[k]) ==> IsGranted(v.objs[k])))
    && (Reserved(k) && TerminatingOf(Lookup(w, k)) && k in v.objs ==> v.objs[k].terminating)
  }

  /** What is absent or the Cluster's own stays absent or its own. */
  ghost predicate OwnershipKept(m: Mode, p: Params, c: NamespacedName, w: World, v: World) {
    !m.Free? ==> forall k: Key :: !k.kind.Namespace? && OwnedOrAbsent(p, c, w, k) ==> OwnedOrAbsent(p, c, v, k)
  }

  /** The keys a phase of a reconcile may write. */
  datatype Scope =
    | Nobody | One(key: Key) | Among(keys: seq<Key>) | SecretsAt(site: Site) | SourcesIn(namespace: string)
    | CopiesOnly | Supporting | NoReleases | Everything

  predicate InScope(s: Scope, k: Key) {
    match s
    case Nobody => false
    case One(key) => k == key
    case Among(keys) => k in keys
    case SecretsAt(site) => k.kind.Secret? && k.site == site
    case SourcesIn(namespace) => k.site.Platform? && IsSourceKind(k.kind) && k.namespace == namespace
    case CopiesOnly => k.kind.Secret? || k.kind.Namespace?
    case Supporting => !k.kind.HelmRelease? && !k.kind.AccessRequest?
    case NoReleases => !k.kind.HelmRelease?
    case Everything => true
  }

  ghost predicate Inside(s: Scope, t: Scope) { forall k :: InScope(s, k) ==> InScope(t, k) }

  /**
  The calls recorded between two points: all on behalf of one Cluster, none writing a HelmRelease outside the scope.
   */
  ghost predicate Grew(c: NamespacedName, s: Scope, before: seq<Event>, after: seq<Event>) {
    && before <= after
    && forall i :: |before| <= i < |after| ==>
         after[i].cluster == c && (after[i].action.PutRelease? ==> InScope(s, ReleaseKey(c)))
  }

  /**
  A phase of a reconcile, with everybody else's moves: the finalizer stays on, and nothing outside the scope changes.
   */
  ghost predicate Progressed(m: Mode, p: Params, c: NamespacedName, s: Scope, a: Moment, b: Moment) {
    && ClusterKept(m, c, a.world, b.world)
    && Grew(c, s, a.log, b.log)
    && Follows(m, p, a, b)
    && OwnershipKept(m, p, c, a.world, b.world)
    && (!m.Free? ==> forall k: Key :: !InScope(s, k) ==> Stays(p, a.world, b.world, k))
  }

  lemma Widen(m: Mode, p: Params, c: NamespacedName, s: Scope, t: Scope, a: Moment, b: Moment)
    requires Progressed(m, p, c, s, a, b) && Inside(s, t)
    ensures Progressed(m, p, c, t, a, b)
  {
  }

  lemma Chain(m: Mode, p: Params, c: NamespacedName, s: Scope, a: Moment, t: Scope, b: Moment, r: Scope, d: Moment)
    requires Progressed(m, p, c, t, a, b) && Progressed(m, p, c, r, b, d)
    requires Inside(t, s) && Inside(r, s)
    ensures Progressed(m, p, c, s, a, d)
    ensures HasFinalizer(a.world, c) ==> HasFinalizer(d.world, c)
  {
    hide Follows, Env, SameResource;
    ClusterKeptChain(m, c, a.world, b.world, d.world);
    FollowsChain(m, p, a, b, d);
  }

  lemma FollowsChain(m: Mode, p: Params, a: Moment, b: Moment, d: Moment)
    requires Follows(m, p, a, b) && Follows(m, p, b, d)
    ensures Follows(m, p, a, d)
  {
    hide Env;
    if |a.log| == |b.log| {
      EnvTransitive(m, p, a.world, b.world, if |b.log| < |d.log| then d.log[|b.log|].pre else d.world);
    }
  }

  lemma Standstill(m: Mode, p: Params, c: NamespacedName, s: Scope, a: Moment)
    ensures Progressed(m, p, c, s, a, a)
  {
    EnvReflexive(m, p, a.world);
  }

  // ---------------------------------------------------------------- what was seen before

  /** The Cluster's own object was seen under this key, and since then only calls for this Cluster were made. */
  ghost predicate WasSeen(m: Mode, p: Params, c: NamespacedName, b: Moment, k: Key) {
    exists seen: World, at: nat :: OnTheWay(m, p, c, seen, at, b) && k in seen.objs && Labelled(p, c, seen.objs[k])
  }

  ghost predicate AllSeen(m: Mode, p: Params, c: NamespacedName, b: Moment, items: seq<Key>) {
    forall k :: k in items ==> WasSeen(m, p, c, b, k)
  }

  lemma LookedAround(m: Mode, p: Params, c: NamespacedName, w: World, v: World, log: seq<Event>)
    requires Env(m, p, w, v) && (log != [] ==> Env(m, p, log[|log| - 1].post, w))
    ensures OnTheWay(m, p, c, w, |log|, Moment(v, log))
  {
  }

  lemma ListedIsSeen(m: Mode, p: Params, c: NamespacedName, w: World, v: World, log: seq<Event>,
                     site: Site, kind: Kind, namespace: string, items: seq<Key>)
    requires Env(m, p, w, v) && (log != [] ==> Env(m, p, log[|log| - 1].post, w))
    requires forall k :: k in items ==> Listed(p, w, c, site, kind, namespace, k)
    ensures AllSeen(m, p, c, Moment(v, log), items)
  {
    hide Env;
    forall k | k in items ensures WasSeen(m, p, c, Moment(v, log), k) {
      LookedAround(m, p, c, w, v, log);
    }
  }

  lemma FoundIsSeen(m: Mode, p: Params, c: NamespacedName, w: World, v: World, log: seq<Event>, k: Key)
    requires Env(m, p, w, v) && (log != [] ==> Env(m, p, log[|log| - 1].post, w))
    requires k in w.objs && Labelled(p, c, w.objs[k])
    ensures WasSeen(m, p, c, Moment(v, log), k)
  {
    hide Env;
    LookedAround(m, p, c, w, v, log);
  }

  lemma StillOnTheWay(m: Mode, p: Params, c: NamespacedName, s: Scope, seen: World, at: nat, a: Moment, b: Moment)
    requires OnTheWay(m, p, c, seen, at, a) && Progressed(m, p, c, s, a, b)
    ensures OnTheWay(m, p, c, seen, at, b)
  {
    hide Env, OwnershipKept, Stays, HasFinalizer, InScope;
    if at == |a.log| {
      EnvTransitive(m, p, seen, a.world, if at < |b.log| then b.log[at].pre else b.world);
    }
    forall j | at <= j < |b.log| ensures b.log[j].cluster == c {
      if j < |a.log| { assert b.log[j] == a.log[j]; }
    }
  }

  lemma AllSeenStay(m: Mode, p: Params, c: NamespacedName, s: Scope, a: Moment, b: Moment, items: seq<Key>)
    requires AllSeen(m, p, c, a, items) && Progressed(m, p, c, s, a, b)
    ensures AllSeen(m, p, c, b, items)
  {
    hide Progressed, OnTheWay;
    forall k | k in items ensures WasSeen(m, p, c, b, k) {
      var seen, at := SeenWitness(m, p, c, a, k);
      StillOnTheWay(m, p, c, s, seen, at, a, b);
    }
  }

  lemma SeenWitness(m: Mode, p: Params, c: NamespacedName, b: Moment, k: Key) returns (seen: World, at: nat)
    requires WasSeen(m, p, c, b, k)
    ensures OnTheWay(m, p, c, seen, at, b) && k in seen.objs && Labelled(p, c, seen.objs[k])
  {
    seen, at :| OnTheWay(m, p, c, seen, at, b) && k in seen.objs && Labelled(p, c, seen.objs[k]);
  }

  // ---------------------------------------------------------------- what a phase keeps

  lemma Checked(p: Params, c: NamespacedName, w: World, k: Key)
    requires k in w.objs ==> Labelled(p, c, w.objs[k])
    ensures OwnedOrAbsent(p, c, w, k)
  {
  }

  lemma StillForeign(p: Params, c: NamespacedName, w: World, v: World, k: Key)
    requires k in w.objs && !Labelled(p, c, w.objs[k])
    ensures v == w ==> !OwnedOrAbsent(p, c, v, k)
  {
  }

  lemma KeepsOwnership(m: Mode, p: Params, c: NamespacedName, s: Scope, a: Moment, b: Moment, k: Key)
    requires Progressed(m, p, c, s, a, b) && !m.Free? && !k.kind.Namespace? && OwnedOrAbsent(p, c, a.world, k)
    ensures OwnedOrAbsent(p, c, b.world, k)
  {
  }

  lemma ListedStaysOwned(m: Mode, p: Params, c: NamespacedName, s: Scope, a: Moment, b: Moment, items: seq<Key>)
    requires Progressed(m, p, c, s, a, b)
    requires forall k :: k in items ==> OwnedOrAbsent(p, c, a.world, k) && !k.kind.Namespace?
    ensures !m.Free? ==> forall k :: k in items ==> OwnedOrAbsent(p, c, b.world, k)
  {
  }

  /**
  An object of this controller that is not terminating does not start to, and one that is absent does not appear
  terminating.
   */
  lemma KeepsUnmarked(m: Mode, p: Params, c: NamespacedName, s: Scope, a: Moment, b: Moment, k: Key)
    requires Progressed(m, p, c, s, a, b) && !m.Free? && !InScope(s, k) && Reserved(k)
    requires !TerminatingOf(Lookup(a.world, k))
    ensures !TerminatingOf(Lookup(b.world, k))
  {
  }

  // ---------------------------------------------------------------- releases and what they refer to

  predicate SourcesUnmarked(w: World, c: NamespacedName) {
    && !TerminatingOf(Lookup(w, SourceKey(c, HelmRepository)))
    && !TerminatingOf(Lookup(w, SourceKey(c, GitRepository)))
    && !TerminatingOf(Lookup(w, SourceKey(c, OCIRepository)))
  }

  predicate AccessLive(w: World, c: NamespacedName) {
    AccessKey(c) in w.objs && !w.objs[AccessKey(c)].terminating
  }

  lemma SourcesStayUnmarked(m: Mode, p: Params, c: NamespacedName, s: Scope, a: Moment, b: Moment)
    requires Progressed(m, p, c, s, a, b) && !m.Free? && SourcesUnmarked(a.world, c)
    requires forall k: Key :: IsSourceKind(k.kind) ==> !InScope(s, k)
    ensures SourcesUnmarked(b.world, c)
  {
  }

  lemma LiveAccessStays(m: Mode, p: Params, c: NamespacedName, s: Scope, a: Moment, b: Moment)
    requires Progressed(m, p, c, s, a, b) && !m.Free? && AccessLive(a.world, c)
    requires !InScope(s, AccessKey(c))
    ensures AccessLive(b.world, c)
  {
  }

  lemma LiveSourceStays(m: Mode, p: Params, c: NamespacedName, kind: Kind, a: Moment, b: Moment)
    requires Progressed(m, p, c, CopiesOnly, a, b) && IsSourceKind(kind) && !m.Free?
    requires LiveAt(p, a.world, c, Platform, kind, SourceKey(c, kind))
    ensures LiveAt(p, b.world, c, Platform, kind, SourceKey(c, kind))
  {
    DerivedNameReserved(c.name);
    assert Stays(p, a.world, b.world, SourceKey(c, kind));
  }

  /** A call that writes a HelmRelease does so while the source it names and the Cluster's access are alive. */
  ghost predicate ReleaseLive(p: Params, e: Event) {
    e.action.PutRelease? ==>
      && ReleaseKey(e.cluster) in e.post.objs && e.post.objs[ReleaseKey(e.cluster)].body.Release?
      && var kind := e.post.objs[ReleaseKey(e.cluster)].body.sourceKind;
         LiveAt(p, e.pre, e.cluster, Platform, kind, SourceKey(e.cluster, kind)) && AccessLive(e.pre, e.cluster)
  }

  ghost predicate ReleasesLive(p: Params, before: seq<Event>, after: seq<Event>) {
    before <= after && forall i :: |before| <= i < |after| ==> ReleaseLive(p, after[i])
  }

  lemma NoRelease(m: Mode, p: Params, c: NamespacedName, a: Moment, b: Moment)
    requires Progressed(m, p, c, NoReleases, a, b)
    ensures ReleasesLive(p, a.log, b.log)
  {
  }

  lemma ReleasesLiveChain(p: Params, first: seq<Event>, second: seq<Event>, third: seq<Event>)
    ensures ReleasesLive(p, first, second) && ReleasesLive(p, second, third) ==> ReleasesLive(p, first, third)
  {
  }

  lemma Log(m: Mode, p: Params, c: NamespacedName, a: Moment, b: Moment)
    requires Progressed(m, p, c, Everything, a, b)
    ensures Grew(c, Everything, a.log, b.log) && OwnershipKept(m, p, c, a.world, b.world)
  {
  }

  lemma GrewChain(c: NamespacedName, first: seq<Event>, second: seq<Event>, third: seq<Event>)
    requires Grew(c, Everything, first, second)
             && (Grew(c, Nobody, second, third) || Grew(c, Everything, second, third))
    ensures Grew(c, Everything, first, third)
  {
  }

  lemma FirstStays(c: NamespacedName, first: seq<Event>, second: seq<Event>, third: seq<Event>)
    requires Grew(c, Everything, second, third)
    ensures second <= third
    ensures |first| < |second| ==> |first| < |third| && third[|first|] == second[|first|]
  {
  }

  lemma GrewNothing(p: Params, c: NamespacedName, before: seq<Event>, after: seq<Event>)
    requires Grew(c, Nobody, before, after)
    ensures ReleasesLive(p, before, after)
  {
  }

  /** Before its first write, a reconcile finds sources and access as they were. */
  lemma Undisturbed(m: Mode, p: Params, c: NamespacedName, a: Moment, b: Moment)
    requires Progressed(m, p, c, Nobody, a, b)
    ensures HasFinalizer(a.world, c) ==> HasFinalizer(b.world, c)
    ensures !m.Free? && SourcesUnmarked(a.world, c) ==> SourcesUnmarked(b.world, c)
    ensures !m.Free? && !TerminatingOf(Lookup(a.world, AccessKey(c))) ==> !TerminatingOf(Lookup(b.world, AccessKey(c)))
    ensures Grew(c, Everything, a.log, b.log) && ReleasesLive(p, a.log, b.log)
  {
    if !m.Free? && SourcesUnmarked(a.world, c) { SourcesStayUnmarked(m, p, c, Nobody, a, b); }
    if !m.Free? && !TerminatingOf(Lookup(a.world, AccessKey(c))) { KeepsUnmarked(m, p, c, Nobody, a, b, AccessKey(c)); }
  }

  /** A listing of a kind of Flux source that may be somewhat old. */
  ghost predicate SourceList(m: Mode, p: Params, c: NamespacedName, kind: Kind, items: seq<Key>, w: World) {
    && (forall k :: LiveAt(p, w, c, Platform, kind, k) ==> k in items)
    && (forall k :: k in items ==> IsPlatformSource(c, k) && k.kind == kind)
    && (!m.Free? ==> forall k :: k in items ==> OwnedOrAbsent(p, c, w, k))
    && (m.Quiet? ==> forall k :: k in items <==> Listed(p, w, c, Platform, kind, c.namespace, k))
  }

  lemma ListedSources(m: Mode, p: Params, c: NamespacedName, s: Scope, kind: Kind, a: Moment, items: seq<Key>,
                      b: Moment)
    requires forall k :: k in items <==> Listed(p, a.world, c, Platform, kind, c.namespace, k)
    requires Progressed(m, p, c, s, a, b) && Shrunk(p, c, a.world, b.world) && IsSourceKind(kind)
    requires m.Quiet? ==> a.world == b.world
    ensures SourceList(m, p, c, kind, items, b.world)
  {
  }

  lemma KeepsObject(m: Mode, p: Params, c: NamespacedName, s: Scope, a: Moment, b: Moment, k: Key)
    requires Progressed(m, p, c, s, a, b) && !m.Free? && !InScope(s, k)
    ensures Stays(p, a.world, b.world, k)
  {
  }

  lemma PutSecretLegal(m: Mode, p: Params, c: NamespacedName, checked: World, w: World, log: seq<Event>, k: Key,
                       source: Obj)
    requires OnTheWay(m, p, c, checked, |log|, Moment(w, log)) && OwnedOrAbsent(p, c, checked, k)
    requires HasFinalizer(w, c) && IsCopyKey(c, k)
    requires !m.Free? ==> OwnedOrAbsent(p, c, w, k)
    ensures var o := CopyOf(Lookup(w, k), source, ExpectedLabels(p, c));
            var e := Event(c, PutSecret(k, checked), w, Write(w, k, o));
            Labelled(p, c, o) && Legal(m, p, e) && Recalls(m, p, log, e)
  {
    hide Env;
  }

  lemma PutSourceLegal(m: Mode, p: Params, c: NamespacedName, w: World, kind: Kind, spec: string)
    requires HasFinalizer(w, c) && IsSourceKind(kind)
    ensures var k := SourceKey(c, kind);
            var o := Deployed(Lookup(w, k), SourceSpec(spec), ExpectedLabels(p, c));
            Labelled(p, c, o) && Legal(m, p, Event(c, PutSource(k), w, Write(w, k, o)))
  {
  }

  lemma FinalizerOff(m: Mode, p: Params, c: NamespacedName, w: World, v: World)
    requires HasFinalizer(w, c) && Clean(p, w, c)
    requires v == w.(clusters := w.clusters - {c})
             || v == w.(clusters := w.clusters[c := w.clusters[c].(finalizer := false)])
    ensures Legal(m, p, Event(c, RemoveFinalizer, w, v)) && !HasFinalizer(v, c)
    ensures forall x :: Env(m, p, v, x) ==> !HasFinalizer(x, c)
  {
  }

  /** What is known after the call that removes the finalizer got through or not. */
  lemma FinalizerOffOutcome(m: Mode, p: Params, e: Event, a: Moment, b: Moment)
    requires e.pre == a.world && e.post.objs == a.world.objs && e.action.RemoveFinalizer?
    requires (b.log == a.log + [e] && Env(m, p, e.post, b.world)) || (b.log == a.log && Env(m, p, a.world, b.world))
    ensures Grew(e.cluster, Nobody, a.log, b.log)
    ensures b.log == a.log && HasFinalizer(a.world, e.cluster) ==> HasFinalizer(b.world, e.cluster)
    ensures forall site, kind, k :: LiveAt(p, b.world, e.cluster, site, kind, k) ==>
              LiveAt(p, a.world, e.cluster, site, kind, k)
  {
    var w := if b.log == a.log then a.world else e.post;
    EnvShrinks(m, p, e.cluster, w, b.world);
    hide Env;
  }

  lemma DeleteLegal(m: Mode, p: Params, c: NamespacedName, w: World, k: Key, cause: Cause, seen: World, at: nat,
                    v: World)
    requires HasFinalizer(w, c) && MayDelete(p, c, w, k, cause) && DeleteEffect(w, k, v)
    requires k in seen.objs && Labelled(p, c, seen.objs[k]) && (!m.Free? ==> OwnedOrAbsent(p, c, w, k))
    ensures Legal(m, p, Event(c, Delete(k, cause, seen, at), w, v))
  {
  }

  lemma PutReleaseLegal(m: Mode, p: Params, c: NamespacedName, w: World, body: Body)
    requires HasFinalizer(w, c) && body.Release? && IsSourceKind(body.sourceKind) && KindFits(p, body.sourceKind)
    requires body.sourceNamespace == c.namespace && body.sourceName == DerivedName(c.name)
    ensures var o := Deployed(Lookup(w, ReleaseKey(c)), body, ExpectedLabels(p, c));
            Labelled(p, c, o) && Legal(m, p, Event(c, PutRelease, w, Write(w, ReleaseKey(c), o)))
  {
  }

  lemma SourceListShape(m: Mode, p: Params, c: NamespacedName, kind: Kind, items: seq<Key>, w: World)
    requires SourceList(m, p, c, kind, items, w)
    ensures forall k :: k in items ==> IsPlatformSource(c, k) && k.kind == kind
  {
  }

  lemma EnvShrinks(m: Mode, p: Params, c: NamespacedName, w: World, v: World)
    requires Env(m, p, w, v)
    ensures Shrunk(p, c, w, v)
    ensures HasFinalizer(w, c) ==> HasFinalizer(v, c)
    ensures m.Quiet? ==> v == w
  {
    DerivedNameReserved(c.name);
  }

  lemma EnvStays(m: Mode, p: Params, w: World, v: World, k: Key)
    requires Env(m, p, w, v) && !m.Free?
    ensures Stays(p, w, v, k)
  {
  }

  lemma EnvKeepsOwnership(m: Mode, p: Params, c: NamespacedName, w: World, v: World)
    requires Env(m, p, w, v)
    ensures OwnershipKept(m, p, c, w, v)
  {
  }

  lemma EnvProgresses(m: Mode, p: Params, c: NamespacedName, s: Scope, w: World, v: World, log: seq<Event>)
    requires Env(m, p, w, v)
    ensures Progressed(m, p, c, s, Moment(w, log), Moment(v, log))
    ensures Shrunk(p, c, w, v)
    ensures HasFinalizer(w, c) ==> HasFinalizer(v, c)
    ensures m.Quiet? ==> v == w
  {
    hide Env, Shrunk, Stays, OwnershipKept, HasFinalizer, InScope, ClusterKept;
    EnvShrinks(m, p, c, w, v);
    EnvKeepsCluster(m, p, c, w, v);
    EnvKeepsOwnership(m, p, c, w, v);
    if !m.Free? {
      forall k ensures Stays(p, w, v, k) { EnvStays(m, p, w, v, k); }
    }
  }

  /** A call that changes at most one object, and the environment after it. */
  lemma CallProgresses(m: Mode, p: Params, w: World, log: seq<Event>, e: Event, k: Key, v: World)
    requires e.pre == w && Env(m, p, e.post, v)
    requires forall q :: q != k ==> Lookup(e.post, q) == Lookup(w, q)
    requires !k.kind.Namespace? && OwnedOrAbsent(p, e.cluster, w, k) ==> OwnedOrAbsent(p, e.cluster, e.post, k)
    requires ClusterKept(m, e.cluster, w, e.post)
    requires e.action.PutRelease? ==> k == ReleaseKey(e.cluster)
    ensures Progressed(m, p, e.cluster, One(k), Moment(w, log), Moment(v, log + [e]))
    ensures m.Quiet? ==> v == e.post
  {
    EnvProgresses(m, p, e.cluster, Nobody, e.post, v, log);
    forall q | !m.Free? && q != k ensures Stays(p, w, v, q) {
      assert Stays(p, e.post, v, q);
      assert Lookup(e.post, q) == Lookup(w, q);
    }
    forall q: Key | !m.Free? && !q.kind.Namespace? && OwnedOrAbsent(p, e.cluster, w, q)
      ensures OwnedOrAbsent(p, e.cluster, v, q)
    {
      assert q != k ==> Lookup(e.post, q) == Lookup(w, q);
      assert OwnedOrAbsent(p, e.cluster, e.post, q);
    }
  }

  lemma NewNamespaceProgresses(m: Mode, p: Params, c: NamespacedName, w: World, log: seq<Event>, e: Event, v: World)
    requires e == Event(c, PutNamespace, w, Write(w, NamespaceKey(c), NEW_NAMESPACE)) && Env(m, p, e.post, v)
    requires NamespaceKey(c) !in w.objs
    ensures Progressed(m, p, c, One(NamespaceKey(c)), Moment(w, log), Moment(v, log + [e]))
    ensures m.Quiet? ==> v == e.post
  {
    CallProgresses(m, p, w, log, e, NamespaceKey(c), v);
  }

  /** A call that changes no object, and the environment after it. */
  lemma NoObjectProgresses(m: Mode, p: Params, w: World, log: seq<Event>, e: Event, v: World)
    requires e.pre == w && Env(m, p, e.post, v) && e.post.objs == w.objs
    requires ClusterKept(m, e.cluster, w, e.post)
    requires !e.action.PutRelease?
    ensures Progressed(m, p, e.cluster, Nobody, Moment(w, log), Moment(v, log + [e]))
    ensures forall site, kind, q :: LiveAt(p, v, e.cluster, site, kind, q) ==> LiveAt(p, w, e.cluster, site, kind, q)
    ensures HasFinalizer(e.post, e.cluster) ==> HasFinalizer(v, e.cluster)
    ensures m.Quiet? ==> v == e.post
  {
  }

  /** A delete call, and the environment after it. */
  lemma DeleteProgresses(m: Mode, p: Params, w: World, log: seq<Event>, e: Event, k: Key, v: World)
    requires e.pre == w && DeleteEffect(w, k, e.post) && Env(m, p, e.post, v) && !e.action.PutRelease?
    ensures Progressed(m, p, e.cluster, One(k), Moment(w, log), Moment(v, log + [e]))
    ensures Shrunk(p, e.cluster, w, v)
    ensures !LiveAt(p, v, e.cluster, k.site, k.kind, k)
    ensures Reserved(k) ==> k !in v.objs || v.objs[k].terminating
    ensures AccessAbsent(e.post, e.cluster) ==> AccessAbsent(v, e.cluster)
    ensures m.Quiet? ==> v == e.post
  {
    hide Env, Shrunk, Progressed, HasFinalizer, Labelled;
    DeleteShrinks(p, e.cluster, w, k, e.post);
    DeleteLeaves(p, e.cluster, w, k, e.post);
    OnlyObjects(m, e.cluster, w, e.post);
    CallProgresses(m, p, w, log, e, k, v);
    EnvShrinks(m, p, e.cluster, e.post, v);
    ShrunkChain(p, e.cluster, w, e.post, v);
    StaysDeleted(m, p, e.cluster, e.post, k, v);
  }

  lemma DeleteShrinks(p: Params, c: NamespacedName, w: World, k: Key, v: World)
    requires DeleteEffect(w, k, v)
    ensures Shrunk(p, c, w, v)
  {
  }

  lemma DeleteLeaves(p: Params, c: NamespacedName, w: World, k: Key, v: World)
    requires DeleteEffect(w, k, v)
    ensures k !in v.objs || v.objs[k].terminating
    ensures forall q :: q != k ==> Lookup(v, q) == Lookup(w, q)
    ensures OwnedOrAbsent(p, c, w, k) ==> OwnedOrAbsent(p, c, v, k)
    ensures v == w.(objs := v.objs)
  {
  }

  /** A call that changes objects only. */
  lemma OnlyObjects(m: Mode, c: NamespacedName, w: World, v: World)
    requires v == w.(objs := v.objs)
    ensures ClusterKept(m, c, w, v)
  {
  }

  lemma StaysDeleted(m: Mode, p: Params, c: NamespacedName, w: World, k: Key, v: World)
    requires Env(m, p, w, v) && (k !in w.objs || w.objs[k].terminating)
    ensures !LiveAt(p, v, c, k.site, k.kind, k)
    ensures Reserved(k) ==> k !in v.objs || v.objs[k].terminating
    ensures AccessAbsent(w, c) ==> AccessAbsent(v, c)
    ensures m.Quiet? ==> v == w
  {
  }

  /** What is known after a delete call that got through or not. */
  lemma DeleteOutcome(m: Mode, p: Params, c: NamespacedName, k: Key, e: Event, a: Moment, b: Moment, ok: bool)
    requires e.cluster == c && e.pre == a.world && DeleteEffect(a.world, k, e.post) && !e.action.PutRelease?
    requires (b.log == a.log + [e] && Env(m, p, e.post, b.world))
             || (!ok && b.log == a.log && Env(m, p, a.world, b.world))
    ensures Progressed(m, p, c, One(k), a, b) && Shrunk(p, c, a.world, b.world) && ReleasesLive(p, a.log, b.log)
    ensures ok ==> !LiveAt(p, b.world, c, k.site, k.kind, k)
    ensures ok && Reserved(k) ==> k !in b.world.objs || b.world.objs[k].terminating
    ensures m.Quiet? ==> DeleteEffect(a.world, k, b.world) || (!ok && b.world == a.world)
  {
    hide Env, Progressed, Shrunk, DeleteEffect, LiveAt;
    if b.log == a.log {
      EnvProgresses(m, p, c, One(k), a.world, b.world, a.log);
    } else {
      DeleteProgresses(m, p, a.world, a.log, e, k, b.world);
    }
  }

  /** What is known after a call that writes one object and got through or not. */
  lemma WriteOutcome(m: Mode, p: Params, c: NamespacedName, k: Key, o: Obj, e: Event, a: Moment, b: Moment, ok: bool)
    requires e.cluster == c && e.pre == a.world && e.post == Write(a.world, k, o) && Labelled(p, c, o)
    requires e.action.PutRelease? ==> k == ReleaseKey(c)
    requires (b.log == a.log + [e] && Env(m, p, e.post, b.world))
             || (!ok && b.log == a.log && Env(m, p, a.world, b.world))
    ensures Progressed(m, p, c, One(k), a, b)
    ensures HasFinalizer(a.world, c) ==> HasFinalizer(b.world, c)
    ensures forall site, kind, q :: LiveAt(p, b.world, c, site, kind, q) ==>
              q == k || LiveAt(p, a.world, c, site, kind, q)
    ensures ok && !m.Free? && !o.terminating && !k.kind.AccessRequest? ==> k in b.world.objs && b.world.objs[k] == o
    ensures m.Quiet? ==> b.world == e.post || (!ok && b.world == a.world)
  {
    hide Env, Progressed, LiveAt;
    if b.log == a.log {
      EnvProgresses(m, p, c, One(k), a.world, b.world, a.log);
    } else {
      OnlyObjects(m, c, a.world, e.post);
      CallProgresses(m, p, a.world, a.log, e, k, b.world);
      WriteRevivesOne(m, p, c, a.world, k, o, b.world);
      EnvShrinks(m, p, c, e.post, b.world);
    }
  }

  /** A call that requests access, and the environment after it. */
  lemma RequestProgresses(m: Mode, p: Params, w: World, log: seq<Event>, e: Event, v: World)
    requires e.pre == w && e.action == RequestAccess && Legal(m, p, e) && Env(m, p, e.post, v)
    ensures Progressed(m, p, e.cluster, One(AccessKey(e.cluster)), Moment(w, log), Moment(v, log + [e]))
    ensures ReleaseAbsent(w, e.cluster) ==> ReleaseAbsent(v, e.cluster)
    ensures forall site, kind, q :: kind != AccessRequest && LiveAt(p, v, e.cluster, site, kind, q) ==>
              LiveAt(p, w, e.cluster, site, kind, q)
    ensures HasFinalizer(v, e.cluster)
    ensures !m.Free? && !TerminatingOf(Lookup(w, AccessKey(e.cluster))) ==>
              !TerminatingOf(Lookup(v, AccessKey(e.cluster)))
    ensures m.Quiet? ==> v == e.post
  {
    hide Env, Progressed, ClusterKept, Clean;
    CallKeepsCluster(m, p, e);
    CallProgresses(m, p, w, log, e, AccessKey(e.cluster), v);
    EnvProgresses(m, p, e.cluster, Nobody, e.post, v, log);
    if !m.Free? && !TerminatingOf(Lookup(w, AccessKey(e.cluster))) { EnvKeepsAccess(m, p, e.cluster, e.post, v); }
  }

  /** What is known after a request for access that got through or not. */
  lemma RequestOutcome(m: Mode, p: Params, c: NamespacedName, e: Event, a: Moment, b: Moment, ok: bool)
    requires e.cluster == c && e.pre == a.world && e.action == RequestAccess && Legal(m, p, e)
             && HasFinalizer(a.world, c)
    requires (b.log == a.log + [e] && Env(m, p, e.post, b.world))
             || (!ok && b.log == a.log && Env(m, p, a.world, b.world))
    ensures Progressed(m, p, c, One(AccessKey(c)), a, b) && HasFinalizer(b.world, c)
    ensures ReleaseAbsent(a.world, c) ==> ReleaseAbsent(b.world, c)
    ensures forall site, kind, q :: kind != AccessRequest && LiveAt(p, b.world, c, site, kind, q) ==>
              LiveAt(p, a.world, c, site, kind, q)
    ensures !m.Free? && !TerminatingOf(Lookup(a.world, AccessKey(c))) ==> !TerminatingOf(Lookup(b.world, AccessKey(c)))
  {
    hide Legal, Env, Progressed, LiveAt;
    if b.log == a.log {
      EnvProgresses(m, p, c, One(AccessKey(c)), a.world, b.world, a.log);
      if !m.Free? && !TerminatingOf(Lookup(a.world, AccessKey(c))) { EnvKeepsAccess(m, p, c, a.world, b.world); }
    } else {
      RequestProgresses(m, p, a.world, a.log, e, b.world);
    }
  }

  lemma EnvKeepsAccess(m: Mode, p: Params, c: NamespacedName, w: World, v: World)
    requires Env(m, p, w, v) && !m.Free? && !TerminatingOf(Lookup(w, AccessKey(c)))
    ensures !TerminatingOf(Lookup(v, AccessKey(c)))
  {
  }

  lemma EnvKeepsGrant(m: Mode, p: Params, c: NamespacedName, w: World, v: World)
    requires Env(m, p, w, v) && !m.Free? && AccessLive(w, c) && IsGranted(w.objs[AccessKey(c)])
    ensures AccessLive(v, c) && IsGranted(v.objs[AccessKey(c)])
  {
  }

  lemma ReleaseStaysMarked(m: Mode, p: Params, c: NamespacedName, w: World, v: World)
    requires Env(m, p, w, v) && TerminatingOf(Lookup(w, ReleaseKey(c)))
    ensures ReleaseAbsent(v, c) || TerminatingOf(Lookup(v, ReleaseKey(c)))
  {
  }

  ghost predicate NoLiveSources(p: Params, w: World, c: NamespacedName) {
    && LiveWithin(p, w, c, Platform, HelmRepository, {})
    && LiveWithin(p, w, c, Platform, GitRepository, {})
    && LiveWithin(p, w, c, Platform, OCIRepository, {})
  }

  lemma NowClean(p: Params, c: NamespacedName, u: World, w: World, v: World)
    requires ReleaseAbsent(v, c) && AccessAbsent(v, c) && NoLiveSources(p, u, c) && Shrunk(p, c, u, w)
             && Shrunk(p, c, w, v)
    requires forall k :: LiveAt(p, w, c, Platform, Secret, k) ==> k.name in {}
    ensures Clean(p, v, c)
  {
  }

  /** How far the HelmRelease is from being gone. */
  function ReleaseStage(w: World, c: NamespacedName): nat {
    if ReleaseAbsent(w, c) then 0 else if w.objs[ReleaseKey(c)].terminating then 1 else 2
  }

  // ---------------------------------------------------------------- deleting a list of objects

  /** v differs from w only in live objects on the list whose names are not to be kept. */
  ghost predicate OnlyDeleted(items: seq<Key>, keep: set<string>, w: World, v: World) {
    && v == w.(objs := v.objs)
    && forall k :: Lookup(v, k) == Lookup(w, k) || (k in items && k.name !in keep && !TerminatingOf(Lookup(w, k)))
  }

  /** The state of a deletion loop that has reached position i. */
  ghost predicate Deleting(m: Mode, p: Params, c: NamespacedName, items: seq<Key>, keep: set<string>, i: nat, a: Moment,
                           b: Moment) {
    && Progressed(m, p, c, Among(items), a, b)
    && Shrunk(p, c, a.world, b.world)
    && i <= |items|
    && (!m.Free? ==> forall k :: k in items ==> OwnedOrAbsent(p, c, b.world, k))
    && (forall j :: 0 <= j < i ==>
          items[j].name in keep || !LiveAt(p, b.world, c, items[j].site, items[j].kind, items[j]))
    && (m.Quiet? ==> OnlyDeleted(items, keep, a.world, b.world))
  }

  lemma DeletingStarts(m: Mode, p: Params, c: NamespacedName, items: seq<Key>, keep: set<string>, a: Moment)
    requires !m.Free? ==> forall k :: k in items ==> OwnedOrAbsent(p, c, a.world, k)
    ensures Deleting(m, p, c, items, keep, 0, a, a)
  {
  }

  lemma DeletingStep(m: Mode, p: Params, c: NamespacedName, items: seq<Key>, keep: set<string>, i: nat, a: Moment,
                     b: Moment, d: Moment, ok: bool)
    requires i < |items| && items[i].name !in keep && !items[i].kind.Namespace?
    requires Deleting(m, p, c, items, keep, i, a, b)
    requires Progressed(m, p, c, One(items[i]), b, d) && Shrunk(p, c, b.world, d.world)
    requires ok ==> !LiveAt(p, d.world, c, items[i].site, items[i].kind, items[i])
    requires m.Quiet? ==> DeleteEffect(b.world, items[i], d.world) || d.world == b.world
    requires forall k :: k in items ==> !k.kind.Namespace?
    ensures Deleting(m, p, c, items, keep, if ok then i + 1 else i, a, d)
  {
    hide Progressed, OnlyDeleted, DeleteEffect, LiveAt, OwnedOrAbsent;
    Chain(m, p, c, Among(items), a, Among(items), b, One(items[i]), d);
    ShrunkChain(p, c, a.world, b.world, d.world);
    if !m.Free? { ListedStaysOwned(m, p, c, One(items[i]), b, d, items); }
    if m.Quiet? { OneMoreDeleted(items, keep, items[i], a.world, b.world, d.world); }
  }

  lemma OneMoreDeleted(items: seq<Key>, keep: set<string>, k: Key, w: World, u: World, v: World)
    requires OnlyDeleted(items, keep, w, u) && k in items && k.name !in keep && (DeleteEffect(u, k, v) || v == u)
    ensures OnlyDeleted(items, keep, w, v)
  {
    forall q ensures Lookup(v, q) == Lookup(w, q) || (q in items && q.name !in keep && !TerminatingOf(Lookup(w, q))) {
      assert Lookup(u, q) == Lookup(w, q) || (q in items && q.name !in keep && !TerminatingOf(Lookup(w, q)));
      if q != k { assert Lookup(v, q) == Lookup(u, q); }
    }
  }

  /** What the loop knows before its next call. */
  lemma DeletingNext(m: Mode, p: Params, c: NamespacedName, items: seq<Key>, keep: set<string>, i: nat, a: Moment,
                     b: Moment, cause: Cause)
    requires Deleting(m, p, c, items, keep, i, a, b) && i < |items| && AllSeen(m, p, c, a, items)
    requires DeletableKey(p, c, items[i], cause) && (cause.Teardown? ==> ReleaseAbsent(a.world, c))
    ensures !m.Free? ==> OwnedOrAbsent(p, c, b.world, items[i])
    ensures MayDelete(p, c, b.world, items[i], cause)
    ensures HasFinalizer(a.world, c) ==> HasFinalizer(b.world, c)
    ensures items[i].name in keep ==> Deleting(m, p, c, items, keep, i + 1, a, b)
    ensures WasSeen(m, p, c, b, items[i])
  {
    hide WasSeen;
    AllSeenStay(m, p, c, Among(items), a, b, items);
  }

  lemma DeletingEnds(m: Mode, p: Params, c: NamespacedName, items: seq<Key>, keep: set<string>, i: nat, a: Moment,
                     b: Moment)
    requires Deleting(m, p, c, items, keep, i, a, b)
    ensures Deleting(m, p, c, items, keep, 0, a, b)
    ensures HasFinalizer(a.world, c) ==> HasFinalizer(b.world, c)
  {
  }

  lemma AllSourcesListed(m: Mode, p: Params, c: NamespacedName, w: World, helm: seq<Key>, git: seq<Key>, oci: seq<Key>)
    requires SourceList(m, p, c, HelmRepository, helm, w)
    requires SourceList(m, p, c, GitRepository, git, w)
    requires SourceList(m, p, c, OCIRepository, oci, w)
    ensures AllListed(p, c, helm + git + oci, w)
    ensures !m.Free? ==> forall k :: k in helm + git + oci ==> OwnedOrAbsent(p, c, w, k)
  {
  }

  ghost predicate AllListed(p: Params, c: NamespacedName, items: seq<Key>, w: World) {
    && (forall k :: k in items ==> IsPlatformSource(c, k))
    && (forall kind, k :: IsSourceKind(kind) && LiveAt(p, w, c, Platform, kind, k) ==> k in items)
  }

  lemma AllSourcesDead(m: Mode, p: Params, c: NamespacedName, a: Moment, items: seq<Key>, b: Moment, done: bool)
    requires AllListed(p, c, items, a.world)
    requires Deleting(m, p, c, items, {}, if done then |items| else 0, a, b)
    ensures Progressed(m, p, c, Among(items), a, b) && Shrunk(p, c, a.world, b.world)
    ensures HasFinalizer(a.world, c) ==> HasFinalizer(b.world, c)
    ensures done ==> NoLiveSources(p, b.world, c)
  {
  }

  /** After all that was listed has been deleted, only what was to be kept is alive. */
  lemma ListedAreDead(m: Mode, p: Params, c: NamespacedName, site: Site, kind: Kind, w: World,
                      a: Moment, items: seq<Key>, keep: set<string>, b: Moment)
    requires forall k :: k in items <==> Listed(p, w, c, site, kind, CopyNamespace(c, site), k)
    requires Shrunk(p, c, w, a.world) && Deleting(m, p, c, items, keep, |items|, a, b)
    ensures forall k :: LiveAt(p, b.world, c, site, kind, k) ==> k.name in keep
  {
    forall k | LiveAt(p, b.world, c, site, kind, k) ensures k.name in keep {
      assert LiveAt(p, a.world, c, site, kind, k);
      assert LiveAt(p, w, c, site, kind, k);
      assert k in items;
    }
  }

  lemma ShrunkChain(p: Params, c: NamespacedName, u: World, w: World, v: World)
    requires Shrunk(p, c, u, w) && Shrunk(p, c, w, v)
    ensures Shrunk(p, c, u, v)
  {
  }

  /** Writing one object brings only this object to life. */
  lemma WriteRevivesOne(m: Mode, p: Params, c: NamespacedName, w: World, k: Key, o: Obj, v: World)
    requires Env(m, p, Write(w, k, o), v)
    ensures forall site, kind, q :: LiveAt(p, v, c, site, kind, q) ==> q == k || LiveAt(p, w, c, site, kind, q)
    ensures !m.Free? && !o.terminating && Managed(p, k, o) ==> k in v.objs && (k.kind.AccessRequest? || v.objs[k] == o)
  {
  }

  // ---------------------------------------------------------------- crash safety

  lemma EnvKeepsClean(m: Mode, p: Params, w: World, v: World, c: NamespacedName)
    requires Env(m, p, w, v) && Clean(p, w, c)
    ensures Clean(p, v, c)
  {
  }

  lemma EnvKeepsCrashSafe(m: Mode, p: Params, w: World, v: World)
    requires Env(m, p, w, v) && CrashSafe(p, w)
    ensures CrashSafe(p, v)
  {
    forall c | !HasFinalizer(v, c) ensures Clean(p, v, c) {
      assert !HasFinalizer(w, c);
      EnvKeepsClean(m, p, w, v, c);
    }
  }

  lemma WriteKeepsClean(p: Params, w: World, k: Key, v: World, c: NamespacedName, d: NamespacedName)
    requires Clean(p, w, d) && IsWrite(p, c, w, k, v) && c != d
    requires k.site.Platform? ==> k.namespace == c.namespace
    requires k != ReleaseKey(d) && k != AccessKey(d)
    ensures Clean(p, v, d)
  {
  }

  lemma DeleteKeepsClean(p: Params, w: World, k: Key, v: World, d: NamespacedName)
    requires Clean(p, w, d) && DeleteEffect(w, k, v)
    ensures Clean(p, v, d)
  {
  }

  lemma SameObjectsKeepClean(p: Params, w: World, v: World, d: NamespacedName)
    requires Clean(p, w, d) && v.objs == w.objs
    ensures Clean(p, v, d)
  {
  }

  /** No API call of the controller leaves a Cluster without finalizer but with live leftovers. */
  lemma LegalKeepsCrashSafe(m: Mode, p: Params, e: Event)
    requires CrashSafe(p, e.pre) && Legal(m, p, e)
    ensures CrashSafe(p, e.post)
  {
    var c, w, v := e.cluster, e.pre, e.post;
    forall d | !HasFinalizer(v, d) ensures Clean(p, v, d) {
      if d != c {
        assert !HasFinalizer(w, d);
        if DerivedName(c.name) == DerivedName(d.name) {
          DerivedNameInjective(c.name, d.name);
        }
        match e.action
        case RequestAccess => if v != w { WriteKeepsClean(p, w, AccessKey(c), v, c, d); }
        case ReleaseAccess => DeleteKeepsClean(p, w, AccessKey(c), v, d);
        case PutSecret(k, _) => WriteKeepsClean(p, w, k, v, c, d);
        case PutSource(k) => WriteKeepsClean(p, w, k, v, c, d);
        case PutRelease => WriteKeepsClean(p, w, ReleaseKey(c), v, c, d);
        case Delete(k, _, _, _) => DeleteKeepsClean(p, w, k, v, d);
        case PutNamespace =>
        case _ => SameObjectsKeepClean(p, w, v, d);
      } else if e.action.RemoveFinalizer? {
        SameObjectsKeepClean(p, w, v, d);
      } else {
        assert !HasFinalizer(w, d) && v.objs == w.objs;
        SameObjectsKeepClean(p, w, v, d);
      }
    }
  }

  /**
  Induction over runs: what every move of the environment and every fitting call keeps, holds before and after every
  call.
   */
  lemma {:induction false} Invariant(m: Mode, p: Params, start: World, log: seq<Event>, inv: World -> bool,
                                     fits: Event -> bool)
    requires inv(start) && StartsAt(m, p, start, log) && Run(m, p, log)
    requires forall i :: 0 <= i < |log| ==> fits(log[i])
    requires forall w, v :: inv(w) && Env(m, p, w, v) ==> inv(v)
    requires forall e: Event :: inv(e.pre) && Legal(m, p, e) && fits(e) ==> inv(e.post)
    ensures forall i :: 0 <= i < |log| ==> inv(log[i].pre) && inv(log[i].post)
    ensures forall w :: Env(m, p, Reached(start, log), w) ==> inv(w)
  {
    if log == [] {
    } else {
      var n := |log| - 1;
      var front := log[..n];
      assert forall i :: 0 <= i < n ==> front[i] == log[i];
      RunShrinks(m, p, log, n);
      Invariant(m, p, start, front, inv, fits);
      assert Env(m, p, Reached(start, front), log[n].pre) by {
        if n > 0 {
          assert Env(m, p, log[n - 1].post, log[n - 1 + 1].pre);
        }
      }
      assert forall i :: 0 <= i < n ==> log[i] == front[i];
    }
  }

  /**
  Crash-safe finalizer: from a world in which unfinalized Clusters own nothing, every world before and after every API
  call of every run, and everything the environment turns it into, keeps it so.
   */
  lemma CrashSafety(m: Mode, p: Params, start: World, log: seq<Event>)
    requires CrashSafe(p, start) && StartsAt(m, p, start, log) && Run(m, p, log)
    ensures forall i :: 0 <= i < |log| ==> CrashSafe(p, log[i].pre) && CrashSafe(p, log[i].post)
    ensures forall w :: Env(m, p, Reached(start, log), w) ==> CrashSafe(p, w)
  {
    forall w, v | CrashSafe(p, w) && Env(m, p, w, v) ensures CrashSafe(p, v) {
      EnvKeepsCrashSafe(m, p, w, v);
    }
    forall e: Event | CrashSafe(p, e.pre) && Legal(m, p, e) ensures CrashSafe(p, e.post) {
      LegalKeepsCrashSafe(m, p, e);
    }
    hide Run, Legal, Env, CrashSafe;
    Invariant(m, p, start, log, w => CrashSafe(p, w), e => true);
  }
}
