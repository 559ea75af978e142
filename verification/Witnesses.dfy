/**
Runs in which something goes wrong, each produced by the reconciler's own methods. A stretch in which nobody interferes
is run on undisturbed servers, where the methods' effects are known; in between others make one move.
 */
module Witnesses {
  import opened Options
  import opened Kubernetes
  import opened Protocol
  import opened Safety
  import opened ApiServers
  import opened CopyPlan
  import opened Mirroring
  import opened Deploying
  import opened Settling
  import opened Reconciling
  import opened Controller

  // ---------------------------------------------------------------- ownership

  /**
  The check before a copy does not protect a secret that somebody creates after it: CheckCopy finds the place free,
  others put their secret there, and WriteCopy overwrites it.
   */
  method OwnershipRace(p: Params, c: NamespacedName, name: string, w: World, theirs: Obj)
      returns (v: World, problem: Option<Error>, ghost log: seq<Event>)
    requires ConfigFits(p, w.config) && HasFinalizer(w, c)
    requires ProviderSecret(p, name) in w.objs && CopyKey(c, Platform, name) !in w.objs && theirs.labels == map[]
    ensures v == Write(w, CopyKey(c, Platform, name), theirs) && Env(Free, p, w, v)
    ensures problem.None? && |log| == 1 && Run(Free, p, log) && log[0].pre == v && log[0].cluster == c
    ensures Touches(log[0], CopyKey(c, Platform, name)) && !OwnedOrAbsent(p, c, v, CopyKey(c, Platform, name))
  {
    var key := CopyKey(c, Platform, name);
    var library := new AccessLibrary(Promise(true, true, None));
    var undisturbed := new ApiServer(p, Quiet, true, library, w);
    var reconciler := new ClusterReconciler(undisturbed);
    reconciler.AddKnownCluster(c);
    var decision, checked := reconciler.CheckCopy(c, Platform, name, name);
    assert Unhindered(p, c, Platform, name, name, w);
    assert decision.Copy? && checked == w;

    v := Write(w, key, theirs);
    PuttingIsFree(p, w, key, theirs);
    LookedAround(Free, p, c, w, v, []);

    var disturbed := new ApiServer(p, Free, true, library, v);
    reconciler := new ClusterReconciler(disturbed);
    problem := reconciler.WriteCopy(c, Platform, name, decision.source, checked);
    log := disturbed.log;
    CopyIsLabelled(Lookup(v, key), decision.source, p, c);
  }

  lemma PuttingIsFree(p: Params, w: World, k: Key, o: Obj)
    requires k.kind.Secret? && o.labels == map[]
    ensures Env(Free, p, w, Write(w, k, o))
  {
  }

  lemma CopyIsLabelled(current: Option<Obj>, source: Obj, p: Params, c: NamespacedName)
    ensures Labelled(p, c, CopyOf(current, source, ExpectedLabels(p, c)))
  {
  }

  /**
  Nor does the selection by labels protect a secret whose labels are taken off after it was listed: List finds the
  Cluster's secret, others take its labels off, and DeleteItems deletes it.
   */
  method DeletionRace(p: Params, c: NamespacedName, name: string, w: World)
      returns (v: World, ok: bool, ghost log: seq<Event>)
    requires ConfigFits(p, w.config) && HasFinalizer(w, c)
    requires LiveAt(p, w, c, Platform, Secret, CopyKey(c, Platform, name))
    requires forall k :: Listed(p, w, c, Platform, Secret, c.namespace, k) ==> k == CopyKey(c, Platform, name)
    ensures v == Write(w, CopyKey(c, Platform, name), w.objs[CopyKey(c, Platform, name)].(labels := map[]))
            && Env(Free, p, w, v)
    ensures ok && log != [] && Run(Free, p, log) && log[0].pre == v && log[0].cluster == c && log[0].action.Delete?
    ensures Touches(log[0], CopyKey(c, Platform, name)) && !OwnedOrAbsent(p, c, v, CopyKey(c, Platform, name))
  {
    hide Run, Env, OnTheWay, WasSeen, Deleting;
    var key := CopyKey(c, Platform, name);
    var library := new AccessLibrary(Promise(true, true, None));
    var undisturbed := new ApiServer(p, Quiet, true, library, w);
    var items;
    ok, items := undisturbed.List(c, Platform, Secret, c.namespace);
    assert key in items && items[0] in items && items[0] == key;

    v := Write(w, key, w.objs[key].(labels := map[]));
    PuttingIsFree(p, w, key, v.objs[key]);
    ListedIsSeen(Free, p, c, w, v, [], Platform, Secret, c.namespace, items);

    var disturbed := new ApiServer(p, Free, true, library, v);
    var reconciler := new ClusterReconciler(disturbed);
    ok := reconciler.DeleteItems(c, items, {}, Prune);
    log := disturbed.log;
  }

  // ---------------------------------------------------------------- references

  lemma QuietRunIsOrderly(p: Params, log: seq<Event>)
    requires Run(Quiet, p, log)
    ensures Run(Orderly, p, log)
  {
    forall i | 0 <= i < |log| ensures Legal(Orderly, p, log[i]) && Recalls(Orderly, p, log[..i], log[i]) {
      QuietCallIsOrderly(p, log[..i], log[i]);
    }
    forall i | 0 <= i < |log| - 1 ensures Env(Orderly, p, log[i].post, log[i + 1].pre) {
      QuietMoveIsOrderly(p, log[i].post, log[i + 1].pre);
    }
  }

  lemma QuietMoveIsOrderly(p: Params, w: World, v: World)
    requires Env(Quiet, p, w, v)
    ensures Env(Orderly, p, w, v)
  {
    EnvReflexive(Orderly, p, w);
  }

  lemma QuietCallIsOrderly(p: Params, log: seq<Event>, e: Event)
    requires Legal(Quiet, p, e) && Recalls(Quiet, p, log, e)
    ensures Legal(Orderly, p, e) && Recalls(Orderly, p, log, e)
  {
    forall w, v | Env(Quiet, p, w, v) ensures Env(Orderly, p, w, v) { QuietMoveIsOrderly(p, w, v); }
    hide Env, Clean, Labelled;
  }

  /** What is being deleted stays so as long as nobody else moves: no call removes or revives it. */
  lemma MarkedStays(p: Params, start: World, log: seq<Event>, w: World, k: Key)
    requires Run(Quiet, p, log) && StartsAt(Quiet, p, start, log) && Env(Quiet, p, Reached(start, log), w)
    requires TerminatingOf(Lookup(start, k))
    ensures TerminatingOf(Lookup(w, k))
  {
    forall e: Event | TerminatingOf(Lookup(e.pre, k)) && Legal(Quiet, p, e) ensures TerminatingOf(Lookup(e.post, k)) {
      CallKeepsMarked(p, e, k);
    }
    hide Legal, Recalls;
    Invariant(Quiet, p, start, log, v => TerminatingOf(Lookup(v, k)), e => true);
  }

  lemma CallKeepsMarked(p: Params, e: Event, k: Key)
    requires Legal(Quiet, p, e) && TerminatingOf(Lookup(e.pre, k))
    ensures TerminatingOf(Lookup(e.post, k))
  {
    hide HasFinalizer, Clean, Env, Labelled;
    match e.action
    case RequestAccess =>
    case ReleaseAccess =>
    case PutSecret(_, _) =>
    case PutSource(_) =>
    case PutRelease =>
    case PutNamespace =>
    case Delete(_, _, _, _) =>
    case _ =>
  }

  const OCI_SOURCE := ChartSource(None, None, Some("oci://registry.example/external-dns"))
  const OCI_PURPOSE := PurposeConfig(None, "{}")
  const OCI_CONFIG := Config(OCI_SOURCE, None, [OCI_PURPOSE])
  const NO_PULL_SECRETS := Service([])
  const FINALIZED := Cluster(true, false, [], None, None)

  /** A Cluster with granted access whose OCI source is still being deleted from an earlier teardown. */
  function AfterTeardown(p: Params, c: NamespacedName): World {
    World(map[c := FINALIZED],
          map[SourceKey(c, OCIRepository) := Obj(ExpectedLabels(p, c), map[], true,
                                                 SourceSpec("oci://registry.example/external-dns")),
              AccessKey(c) := Obj(ExpectedLabels(p, c), map[], false, Grant(true, "kubeconfig"))],
          Some(OCI_CONFIG), Some(NO_PULL_SECRETS))
  }

  lemma NothingHinders(p: Params, c: NamespacedName, w: World)
    ensures PlansFit(p, c, OCI_CONFIG, NO_PULL_SECRETS) && Deployable(p, c, OCI_CONFIG, NO_PULL_SECRETS, w)
    ensures SourcesSpared(p, c, OCI_CONFIG, NO_PULL_SECRETS, w)
  {
  }

  lemma TeardownLeavesOrder(p: Params, c: NamespacedName)
    ensures AllAnchored(p, AfterTeardown(p, c)) && SourcesOwn(p, AfterTeardown(p, c))
  {
    var w := AfterTeardown(p, c);
    forall d: NamespacedName, kind: Kind | IsSourceKind(kind) && SourceKey(d, kind) in w.objs
      ensures Labelled(p, d, w.objs[SourceKey(d, kind)])
    {
      DerivedNameInjective(c.name, d.name);
    }
  }

  /**
  A reference that dangles: in a world without dangling references an undisturbed reconcile succeeds, with a settled
  world, although its source is being deleted, and when others complete that deletion, the HelmRelease refers to
  nothing.
   */
  method DanglingReference(p: Params, c: NamespacedName)
      returns (error: Option<Error>, requeue: bool, ghost log: seq<Event>, w: World, v: World)
    requires p.fixedKind == Some(OCIRepository)
    ensures error.None? && !requeue && Settled(p, c, OCI_CONFIG, NO_PULL_SECRETS, OCI_PURPOSE, w)
    ensures var start := AfterTeardown(p, c);
            && AllAnchored(p, start) && SourcesOwn(p, start)
            && Run(Orderly, p, log) && StartsAt(Orderly, p, start, log) && Env(Orderly, p, Reached(start, log), w)
    ensures Env(Orderly, p, w, v) && Dangles(v, c)
  {
    hide PlansFit, Deployable, SourcesSpared, AllAnchored, SourcesOwn, Progressed, ReleasesLive, Settled, Conducted;
    var start := AfterTeardown(p, c);
    TeardownLeavesOrder(p, c);
    NothingHinders(p, c, start);
    var library := new AccessLibrary(Promise(true, true, None));
    var api := new ApiServer(p, Quiet, true, library, start);
    var reconciler := new ClusterReconciler(api);
    assert ToDeploy(c, start) && Chosen(FINALIZED, start) == Some(OCI_PURPOSE);
    error, requeue := reconciler.Reconcile(c);
    log, w := api.log, api.w;
    ReferenceDangles(p, c, start, log, w);
    v := Gone(w, SourceKey(c, OCIRepository));
  }

  lemma ReferenceDangles(p: Params, c: NamespacedName, start: World, log: seq<Event>, w: World)
    requires Run(Quiet, p, log) && StartsAt(Quiet, p, start, log) && Env(Quiet, p, Reached(start, log), w)
    requires TerminatingOf(Lookup(start, SourceKey(c, OCIRepository)))
    requires Settled(p, c, OCI_CONFIG, NO_PULL_SECRETS, OCI_PURPOSE, w)
    ensures Run(Orderly, p, log) && StartsAt(Orderly, p, start, log) && Env(Orderly, p, Reached(start, log), w)
    ensures var v := Gone(w, SourceKey(c, OCIRepository)); Env(Orderly, p, w, v) && Dangles(v, c)
  {
    hide Run, PlatformReady, TargetReady;
    QuietRunIsOrderly(p, log);
    if log != [] { QuietMoveIsOrderly(p, start, log[0].pre); }
    QuietMoveIsOrderly(p, Reached(start, log), w);
    MarkedStays(p, start, log, w, SourceKey(c, OCIRepository));
    TakesAway(p, c, OCIRepository, SourceKey(c, OCIRepository), w);
    hide Env;
  }

  // ---------------------------------------------------------------- teardown

  /** Rounds of orderly calls, with moves of others in between. */
  ghost predicate Linked(p: Params, rounds: seq<Round>, w: World) {
    && (forall i :: 0 <= i < |rounds| ==>
          Run(Orderly, p, rounds[i].calls) && StartsAt(Orderly, p, rounds[i].begin, rounds[i].calls))
    && (forall i :: 0 <= i < |rounds| ==>
          Env(Orderly, p, Reached(rounds[i].begin, rounds[i].calls), Next(rounds, i, w)))
  }

  /** Where the round after the i-th begins. */
  ghost function Next(rounds: seq<Round>, i: nat, w: World): World {
    if i + 1 < |rounds| then rounds[i + 1].begin else w
  }

  lemma LinkedOn(p: Params, rounds: seq<Round>, r: Round, w: World, v: World)
    requires Linked(p, rounds, r.begin) && Run(Quiet, p, r.calls) && StartsAt(Quiet, p, r.begin, r.calls)
    requires w == Reached(r.begin, r.calls) && Env(Orderly, p, w, v)
    ensures Linked(p, rounds + [r], v)
  {
    hide Run, Env;
    QuietRunIsOrderly(p, r.calls);
    if r.calls != [] { QuietMoveIsOrderly(p, r.begin, r.calls[0].pre); }
    var more := rounds + [r];
    forall i | 0 <= i < |more|
      ensures Run(Orderly, p, more[i].calls) && StartsAt(Orderly, p, more[i].begin, more[i].calls)
      ensures Env(Orderly, p, Reached(more[i].begin, more[i].calls), Next(more, i, v))
    {
      if i < |rounds| {
        assert more[i] == rounds[i] && Next(more, i, v) == Next(rounds, i, r.begin);
        assert Env(Orderly, p, Reached(rounds[i].begin, rounds[i].calls), Next(rounds, i, r.begin));
      }
    }
  }

  /** Nothing is left of a Cluster but its access, which is granted. */
  predicate OnlyAccessLeft(w: World, c: NamespacedName) { HasFinalizer(w, c) && ReleaseAbsent(w, c) && Usable(w, c) }

  lemma AccessGoes(p: Params, c: NamespacedName, w: World)
    requires TerminatingOf(Lookup(w, AccessKey(c)))
    ensures Env(Orderly, p, w, Gone(w, AccessKey(c)))
  {
  }

  function GrantedIn(w: World, k: Key): World
    requires k in w.objs
  {
    Write(w, k, w.objs[k].(body := Grant(true, "kubeconfig")))
  }

  lemma AccessComes(p: Params, c: NamespacedName, w: World)
    requires Lookup(w, AccessKey(c)) == Some(NewAccess(p, c))
    ensures Env(Orderly, p, w, GrantedIn(w, AccessKey(c)))
    ensures HasFinalizer(w, c) && ReleaseAbsent(w, c) ==> OnlyAccessLeft(GrantedIn(w, AccessKey(c)), c)
  {
  }

  /** Nothing is deployed for the Cluster any more, and a steady library does not know that. */
  predicate Unfinished(c: NamespacedName, steady: bool, w: World) {
    HasFinalizer(w, c) && ReleaseAbsent(w, c) && ToTearDown(c, w) && !(steady && BeingDeleted(w, c))
  }

  /** The round ends with the deletion of the AccessRequest, which a finalizer holds; then others remove it. */
  predicate DeletesAccess(c: NamespacedName, r: Round, next: World) {
    && Usable(r.begin, c) && r.calls != []
    && var e := r.calls[|r.calls| - 1];
       AwaitsRemoval(e, c) && TerminatingOf(Lookup(e.post, AccessKey(c))) && next == Gone(e.post, AccessKey(c))
  }

  /** The round ends with the creation of an AccessRequest; then others grant it. */
  predicate RequestsAccess(p: Params, c: NamespacedName, r: Round, next: World) {
    && AccessAbsent(r.begin, c) && r.calls != []
    && var e := r.calls[|r.calls| - 1];
       && AwaitsGrant(e, c) && AccessAbsent(e.pre, c) && Lookup(e.post, AccessKey(c)) == Some(NewAccess(p, c))
       && next == GrantedIn(e.post, AccessKey(c))
  }

  /** Even rounds delete the AccessRequest, odd ones request a new one. */
  ghost predicate IsTurn(p: Params, c: NamespacedName, rounds: seq<Round>, i: nat, w: World)
    requires i < |rounds|
  {
    && rounds[i].cluster == c && HasFinalizer(rounds[i].begin, c)
    && if i % 2 == 0 then DeletesAccess(c, rounds[i], Next(rounds, i, w))
       else RequestsAccess(p, c, rounds[i], Next(rounds, i, w))
  }

  /** One reconcile in which nobody interferes, with a library that waits and AccessRequests that are held. */
  method UndisturbedRound(p: Params, c: NamespacedName, library: AccessLibrary, begin: World)
      returns (ghost r: Round, w: World)
    requires ConfigFits(p, begin.config) && library.promise.held == Some(true)
             && Unfinished(c, library.promise.steady, begin)
    requires Usable(begin, c) || AccessAbsent(begin, c)
    modifies library
    ensures r.cluster == c && r.begin == begin && Run(Quiet, p, r.calls) && StartsAt(Quiet, p, begin, r.calls)
    ensures r.calls != [] && w == r.calls[|r.calls| - 1].post == Reached(begin, r.calls)
    ensures ConfigFits(p, w.config) && Unfinished(c, library.promise.steady, w)
    ensures if Usable(begin, c) then AwaitsRemoval(r.calls[|r.calls| - 1], c) && TerminatingOf(Lookup(w, AccessKey(c)))
            else
              && AwaitsGrant(r.calls[|r.calls| - 1], c) && AccessAbsent(r.calls[|r.calls| - 1].pre, c)
              && Lookup(w, AccessKey(c)) == Some(NewAccess(p, c))
  {
    hide Progressed, ReleasesLive, Run, NewAccess, AwaitsGrant, AwaitsRemoval, Choice, Blocked, Deploys, OwnershipKept,
      HeldUp, Clung;
    var api := new ApiServer(p, Quiet, true, library, begin);
    var reconciler := new ClusterReconciler(api);
    var error, requeue := reconciler.Reconcile(c);
    r, w := Round(c, begin, api.log), api.w;
  }

  /**
  A teardown that goes on for ever, with AccessRequests that are held by a finalizer and an access library that requests
  access again when it is gone, as every library does for an unmatched Cluster: a reconcile deletes the AccessRequest
  and waits; others remove it; a reconcile requests access again and waits; others grant it; and so on, for any number
  of rounds.
   */
  method EndlessTeardown(p: Params, c: NamespacedName, steady: bool, w: World, cycles: nat)
      returns (ghost rounds: seq<Round>, v: World)
    requires ConfigFits(p, w.config) && Unfinished(c, steady, w) && Usable(w, c)
    ensures |rounds| == 2 * cycles && (rounds != [] ==> rounds[0].begin == w) && Linked(p, rounds, v)
    ensures forall i :: 0 <= i < |rounds| ==> IsTurn(p, c, rounds, i, v)
    ensures Unfinished(c, steady, v) && Usable(v, c)
  {
    hide Linked, Run, Env, NewAccess;
    var library := new AccessLibrary(Promise(true, steady, Some(true)));
    rounds, v := [], w;
    assert Linked(p, [], w) by { NoRound(p, w); }
    for i := 0 to cycles
      invariant |rounds| == 2 * i && (rounds != [] ==> rounds[0].begin == w) && Linked(p, rounds, v)
                && ConfigFits(p, v.config)
      invariant i == 0 ==> v == w
      invariant Unfinished(c, steady, v) && Usable(v, c)
      invariant forall j :: 0 <= j < |rounds| ==> IsTurn(p, c, rounds, j, v)
    {
      var r, deleted := UndisturbedRound(p, c, library, v);
      var gone := Gone(deleted, AccessKey(c));
      AccessGoes(p, c, deleted);
      LinkedOn(p, rounds, r, deleted, gone);
      OneMoreTurn(p, c, rounds, r, gone);
      rounds := rounds + [r];
      var requested;
      r, requested := UndisturbedRound(p, c, library, gone);
      v := GrantedIn(requested, AccessKey(c));
      AccessComes(p, c, requested);
      LinkedOn(p, rounds, r, requested, v);
      OneMoreTurn(p, c, rounds, r, v);
      rounds := rounds + [r];
    }
  }

  lemma OneMoreTurn(p: Params, c: NamespacedName, rounds: seq<Round>, r: Round, w: World)
    requires forall j :: 0 <= j < |rounds| ==> IsTurn(p, c, rounds, j, r.begin)
    requires r.cluster == c && HasFinalizer(r.begin, c)
    requires if |rounds| % 2 == 0 then DeletesAccess(c, r, w) else RequestsAccess(p, c, r, w)
    ensures forall j :: 0 <= j < |rounds| + 1 ==> IsTurn(p, c, rounds + [r], j, w)
  {
    hide HasFinalizer, DeletesAccess, RequestsAccess;
    var more := rounds + [r];
    forall j | 0 <= j < |more| ensures IsTurn(p, c, more, j, w) {
      if j < |rounds| {
        assert IsTurn(p, c, rounds, j, r.begin);
        assert more[j] == rounds[j] && Next(more, j, w) == Next(rounds, j, r.begin);
      }
    }
  }

  lemma NoRound(p: Params, w: World)
    ensures Linked(p, [], w)
  {
  }

  /**
  A teardown that is stranded: without a configuration or a service every reconcile of a Cluster that is being deleted
  fails, and its finalizer stays on, however often it is tried.
   */
  method StrandedTeardown(p: Params, c: NamespacedName, promise: Promise, w: World, attempts: nat)
      returns (errors: seq<Option<Error>>, v: World)
    requires ConfigFits(p, w.config) && HasFinalizer(w, c) && BeingDeleted(w, c) && (w.config.None? || w.service.None?)
    requires EffectiveOperation(w.clusters[c]) != Some(OPERATION_IGNORE)
    ensures |errors| == attempts
    ensures forall e :: e in errors ==> e == Some(if w.config.None? then ConfigurationProblem else PlatformProblem)
    ensures v.objs == w.objs && HasFinalizer(v, c) && BeingDeleted(v, c)
  {
    hide Progressed, ReleasesLive, Blocked, Deploys, Grew;
    var library := new AccessLibrary(promise);
    var api := new ApiServer(p, Quiet, true, library, w);
    var reconciler := new ClusterReconciler(api);
    errors := [];
    for i := 0 to attempts
      invariant api.Consistent() && |errors| == i && api.w.objs == w.objs && ClusterKept(Quiet, c, w, api.w)
      invariant forall e :: e in errors ==> e == Some(if w.config.None? then ConfigurationProblem else PlatformProblem)
    {
      ghost var a := api.Now();
      var error, requeue := reconciler.Reconcile(c);
      ReadsKeep(Quiet, p, c, a, api.Now());
      ClusterKeptChain(Quiet, c, w, a.world, api.w);
      errors := errors + [error];
    }
    v := api.w;
  }
}
