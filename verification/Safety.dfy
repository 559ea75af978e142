/**
Safety over whole runs, beyond crash safety: order of the teardown, ownership, non-interference, no dangling references.
 */
module Safety {
  import opened Options
  import opened Kubernetes
  import opened Protocol

  // ---------------------------------------------------------------- order

  /** Calls by which a teardown removes sources, copies or access. */
  predicate TearsDown(a: Action) { a.ReleaseAccess? || (a.Delete? && a.cause.Teardown?) }

  predicate Releases(e: Event, c: NamespacedName) { e.action.PutRelease? && e.cluster == c }

  lemma ReleaseStaysAbsent(m: Mode, p: Params, e: Event, c: NamespacedName)
    requires Legal(m, p, e) && ReleaseAbsent(e.pre, c) && !Releases(e, c)
    ensures ReleaseAbsent(e.post, c)
  {
    if DerivedName(e.cluster.name) == DerivedName(c.name) { DerivedNameInjective(e.cluster.name, c.name); }
  }

  lemma TearsDownLate(m: Mode, p: Params, e: Event)
    requires Legal(m, p, e) && TearsDown(e.action)
    ensures ReleaseAbsent(e.pre, e.cluster)
  {
  }

  /**
  A teardown removes anything only after the HelmRelease is gone, and until the controller writes a HelmRelease again,
  there is none: neither at that call nor at any later one, whatever the environment does.
   */
  lemma {:induction false} TeardownOrdering(m: Mode, p: Params, log: seq<Event>, i: nat, j: nat)
    requires Run(m, p, log) && i <= j < |log| && TearsDown(log[i].action)
    requires forall n :: i <= n < j ==> !Releases(log[n], log[i].cluster)
    ensures ReleaseAbsent(log[j].pre, log[i].cluster)
    decreases j
  {
    hide Run, Legal, Recalls, Env;
    RunAt(m, p, log, j);
    if j == i {
      TearsDownLate(m, p, log[i]);
    } else {
      var c := log[i].cluster;
      TeardownOrdering(m, p, log, i, j - 1);
      RunAt(m, p, log, j - 1);
      ReleaseStaysAbsent(m, p, log[j - 1], c);
      EnvShrinks(m, p, c, log[j - 1].post, log[j].pre);
    }
  }

  predicate TakesOn(e: Event, c: NamespacedName) { e.action.AddFinalizer? && e.cluster == c }

  /**
  What a reconcile does before it turns to the Cluster: it removes an operation annotation, and reads the configuration.
   */
  predicate Preliminary(a: Action) { a.DropAnnotation? || a.ReadConfig? || a.ReadService? }
  lemma StaysOff(m: Mode, p: Params, e: Event, c: NamespacedName)
    requires Legal(m, p, e) && !HasFinalizer(e.pre, c)
    ensures e.cluster == c ==> e.action.AddFinalizer? || Preliminary(e.action)
    ensures !TakesOn(e, c) ==> !HasFinalizer(e.post, c)
  {
  }

  lemma TakenOff(m: Mode, p: Params, e: Event)
    requires Legal(m, p, e) && e.action.RemoveFinalizer?
    ensures !HasFinalizer(e.post, e.cluster)
  {
  }

  lemma MovesKeepItOff(m: Mode, p: Params, w: World, v: World, c: NamespacedName)
    requires Env(m, p, w, v) && !HasFinalizer(w, c)
    ensures !HasFinalizer(v, c)
  {
  }

  /**
  The finalizer brackets the controller's work: once it has been taken off, the controller makes no call for the Cluster
  (apart from removing an operation annotation and reading the configuration) before it has put the finalizer on again.
   */
  lemma {:induction false} FinalizerBrackets(m: Mode, p: Params, log: seq<Event>, i: nat, j: nat)
    requires Run(m, p, log) && i < j < |log| && log[i].action.RemoveFinalizer?
    requires forall n :: i < n < j ==> !TakesOn(log[n], log[i].cluster)
    ensures !HasFinalizer(log[j].pre, log[i].cluster)
    ensures log[j].cluster == log[i].cluster ==> log[j].action.AddFinalizer? || Preliminary(log[j].action)
    decreases j
  {
    var c := log[i].cluster;
    hide Run, Legal, Recalls, Env, HasFinalizer;
    RunAt(m, p, log, j - 1);
    RunAt(m, p, log, j);
    if i < j - 1 {
      FinalizerBrackets(m, p, log, i, j - 1);
      StaysOff(m, p, log[j - 1], c);
    } else {
      TakenOff(m, p, log[i]);
    }
    MovesKeepItOff(m, p, log[j - 1].post, log[j].pre, c);
    StaysOff(m, p, log[j], c);
  }

  // ---------------------------------------------------------------- ownership

  /** The call changes or removes the object under k. */
  predicate Touches(e: Event, k: Key) { Lookup(e.post, k) != Lookup(e.pre, k) }

  /** Copies are written, and objects are deleted, only where the controller has looked before. */
  predicate Looks(a: Action) { a.PutSecret? || a.Delete? }

  function LookedAt(e: Event): World
    requires Looks(e.action)
  {
    if e.action.PutSecret? then e.action.checked else e.action.seen
  }

  /** The number of calls made when the i-th call's target was looked at. */
  function LookIndex(log: seq<Event>, i: nat): nat
    requires i < |log| && Looks(log[i].action)
  {
    if log[i].action.PutSecret? then i else log[i].action.at
  }

  predicate Targets(a: Action, k: Key) { Looks(a) && a.key == k }

  lemma LookedBefore(m: Mode, p: Params, log: seq<Event>, i: nat)
    requires Run(m, p, log) && i < |log| && Looks(log[i].action)
    ensures var c, at := log[i].cluster, LookIndex(log, i);
            && at <= i && OwnedOrAbsent(p, c, LookedAt(log[i]), log[i].action.key)
            && Env(m, p, LookedAt(log[i]), log[at].pre)
            && forall n :: at <= n < i ==> log[n].cluster == c
  {
    hide Env;
    assert Legal(m, p, log[i]) && Recalls(m, p, log[..i], log[i]);
    assert forall n :: 0 <= n < i ==> log[..i][n] == log[n];
  }

  lemma SecretsAreTargets(m: Mode, p: Params, e: Event, k: Key)
    requires Legal(m, p, e) && (k.kind.Secret? || e.action.Delete?) && Touches(e, k)
    ensures Targets(e.action, k)
  {
    hide HasFinalizer, Clean, Env, Labelled, Managed;
    match e.action
    case RequestAccess =>
    case ReleaseAccess =>
    case PutSecret(_, _) =>
    case PutSource(_) =>
    case PutRelease =>
    case PutNamespace =>
    case Delete(_, _, _, _) =>
    case _ =>
  }

  lemma CallKeepsOwnership(m: Mode, p: Params, e: Event, k: Key)
    requires Legal(m, p, e) && !k.kind.Namespace? && OwnedOrAbsent(p, e.cluster, e.pre, k)
    ensures OwnedOrAbsent(p, e.cluster, e.post, k)
  {
    LegalKeepsLabels(m, p, e);
    hide Legal;
  }

  /**
  Between the look (for j == at) or the call before it and the call j, others took the object under k away from the
  Cluster, or put one there.
   */
  predicate TakenAway(p: Params, c: NamespacedName, log: seq<Event>, seen: World, at: nat, j: nat, k: Key)
    requires at <= j < |log|
  {
    OwnedOrAbsent(p, c, if j == at then seen else log[j - 1].post, k) && !OwnedOrAbsent(p, c, log[j].pre, k)
  }

  lemma {:induction false} TakenByOthers(m: Mode, p: Params, log: seq<Event>, c: NamespacedName, seen: World, at: nat,
                                         i: nat, k: Key)
      returns (j: nat)
    requires Run(m, p, log) && at <= i < |log| && !k.kind.Namespace?
    requires forall n :: at <= n < i ==> log[n].cluster == c
    requires OwnedOrAbsent(p, c, seen, k) && !OwnedOrAbsent(p, c, log[i].pre, k)
    ensures at <= j <= i && TakenAway(p, c, log, seen, at, j, k)
    decreases i
  {
    hide Legal, Env, Recalls;
    if i == at || OwnedOrAbsent(p, c, log[i - 1].post, k) {
      j := i;
    } else {
      assert Legal(m, p, log[i - 1]);
      if OwnedOrAbsent(p, c, log[i - 1].pre, k) { CallKeepsOwnership(m, p, log[i - 1], k); }
      j := TakenByOthers(m, p, log, c, seen, at, i - 1, k);
    }
  }

  /**
  Ownership, in every run, also where others create, delete and relabel secrets at any time: a secret that is not the
  Cluster's own is overwritten or deleted (and any other object deleted) only if others put it there, or took it away
  from the Cluster, after the controller had looked. Where others do neither, no such secret is ever touched, on either
  cluster and in any namespace.
   */
  lemma OwnershipSafety(m: Mode, p: Params, log: seq<Event>, i: nat, k: Key)
    requires Run(m, p, log) && i < |log| && Touches(log[i], k) && (k.kind.Secret? || log[i].action.Delete?)
    requires !OwnedOrAbsent(p, log[i].cluster, log[i].pre, k)
    ensures Targets(log[i].action, k) && LookIndex(log, i) <= i
    ensures exists j ::
              && LookIndex(log, i) <= j <= i
              && TakenAway(p, log[i].cluster, log, LookedAt(log[i]), LookIndex(log, i), j, k)
    ensures m.Free?
  {
    hide Legal, Env, Recalls;
    assert Legal(m, p, log[i]);
    SecretsAreTargets(m, p, log[i], k);
    LookedBefore(m, p, log, i);
    NotANamespace(m, p, log[i]);
    var j := TakenByOthers(m, p, log, log[i].cluster, LookedAt(log[i]), LookIndex(log, i), i, k);
    if j > LookIndex(log, i) { assert Env(m, p, log[j - 1].post, log[j - 1 + 1].pre); }
    OthersTakeOnlyWhenFree(m, p, log[i].cluster, if j == LookIndex(log, i) then LookedAt(log[i])
                           else log[j - 1].post, log[j].pre, k);
  }

  lemma NotANamespace(m: Mode, p: Params, e: Event)
    requires Legal(m, p, e) && Looks(e.action)
    ensures !e.action.key.kind.Namespace?
  {
    hide HasFinalizer, Clean, Env, Labelled;
  }

  lemma OthersTakeOnlyWhenFree(m: Mode, p: Params, c: NamespacedName, w: World, v: World, k: Key)
    requires Env(m, p, w, v) && OwnedOrAbsent(p, c, w, k) && !OwnedOrAbsent(p, c, v, k)
    ensures m.Free?
  {
  }

  /**
  In every run, also where others create and relabel secrets at any time, a copy overwrites a secret that is not the
  Cluster's own only if somebody put it there after its place had been checked.
   */
  lemma OverwritesOnlyWhenRaced(m: Mode, p: Params, log: seq<Event>)
    requires Run(m, p, log)
    ensures forall i, k ::
              0 <= i < |log| && log[i].action.PutSecret? && Touches(log[i], k)
              && !OwnedOrAbsent(p, log[i].cluster, log[i].pre, k) ==>
                var checked := log[i].action.checked;
                && OwnedOrAbsent(p, log[i].cluster, checked, k) && Env(m, p, checked, log[i].pre)
                && Lookup(log[i].pre, k) != Lookup(checked, k)
  {
    forall i, k | 0 <= i < |log| && log[i].action.PutSecret? && Touches(log[i], k)
    && !OwnedOrAbsent(p, log[i].cluster, log[i].pre, k)
      ensures OwnedOrAbsent(p, log[i].cluster, log[i].action.checked, k) && Env(m, p, log[i].action.checked, log[i].pre)
      ensures Lookup(log[i].pre, k) != Lookup(log[i].action.checked, k)
    {
      OverwriteWasChecked(m, p, log[i], k);
    }
  }

  lemma OverwriteWasChecked(m: Mode, p: Params, e: Event, k: Key)
    requires Legal(m, p, e) && e.action.PutSecret? && Touches(e, k)
    ensures OwnedOrAbsent(p, e.cluster, e.action.checked, k) && Env(m, p, e.action.checked, e.pre)
    ensures !OwnedOrAbsent(p, e.cluster, e.pre, k) ==> Lookup(e.pre, k) != Lookup(e.action.checked, k)
  {
  }

  /** An object that is none of this controller's, for no Cluster. */
  predicate Foreign(p: Params, w: World, k: Key) {
    k in w.objs && !(MANAGED_BY in w.objs[k].labels && w.objs[k].labels[MANAGED_BY] == ManagedByValue(p))
  }

  /**
  Others neither remove the object under k nor label it as this controller's: not before a call, and not before a look.
   */
  ghost predicate OthersKeepForeign(p: Params, start: World, log: seq<Event>, k: Key) {
    forall i :: 0 <= i < |log| ==>
      && (Foreign(p, Reached(start, log[..i]), k) ==> Foreign(p, log[i].pre, k))
      && (Looks(log[i].action) && LookIndex(log, i) <= i && Foreign(p, Reached(start, log[..LookIndex(log, i)]), k) ==>
            Foreign(p, LookedAt(log[i]), k))
  }

  /**
  Secrets that were there before and that nobody hands over to the controller are never changed or deleted: whatever
  else others do, in every run, on either cluster and in any namespace, also in the provider namespace itself.
   */
  lemma {:induction false} ForeignSecretsSurvive(m: Mode, p: Params, start: World, log: seq<Event>, k: Key, n: nat)
    requires Run(m, p, log) && k.kind.Secret? && Foreign(p, start, k) && OthersKeepForeign(p, start, log, k)
             && n <= |log|
    ensures forall i :: 0 <= i < n ==> Foreign(p, log[i].pre, k) && Foreign(p, log[i].post, k) && !Touches(log[i], k)
    ensures forall i :: 0 <= i <= n ==> Foreign(p, Reached(start, log[..i]), k)
  {
    hide Legal, Env, Recalls, Foreign;
    if n == 0 {
      assert log[..0] == [];
    } else {
      var i := n - 1;
      ForeignSecretsSurvive(m, p, start, log, k, i);
      assert Foreign(p, log[i].pre, k);
      assert Legal(m, p, log[i]);
      if Touches(log[i], k) {
        SecretsAreTargets(m, p, log[i], k);
        LookedBefore(m, p, log, i);
        LookedWhereOwn(p, log[i], k);
      }
      SparedStaysForeign(p, log[i], k);
      assert Reached(start, log[..n]) == log[i].post;
    }
  }

  lemma LookedWhereOwn(p: Params, e: Event, k: Key)
    requires Looks(e.action) && OwnedOrAbsent(p, e.cluster, LookedAt(e), k)
    ensures !Foreign(p, LookedAt(e), k)
  {
  }

  lemma SparedStaysForeign(p: Params, e: Event, k: Key)
    requires Foreign(p, e.pre, k) && !Touches(e, k)
    ensures Foreign(p, e.post, k)
  {
  }

  /**
  Nobody moves an object from one Cluster to another: one of this controller's that is not c's was not c's before
  either.
   */
  predicate NotOwn(p: Params, c: NamespacedName, w: World, k: Key) {
    k in w.objs && Managed(p, k, w.objs[k]) && !Labelled(p, c, w.objs[k])
  }

  lemma NotOwnBeforeMoves(m: Mode, p: Params, c: NamespacedName, w: World, v: World, k: Key)
    requires Env(m, p, w, v) && NotOwn(p, c, v, k)
    ensures NotOwn(p, c, w, k)
  {
  }

  lemma NotOwnBeforeCall(m: Mode, p: Params, e: Event, k: Key)
    requires Legal(m, p, e) && NotOwn(p, e.cluster, e.post, k)
    ensures NotOwn(p, e.cluster, e.pre, k)
  {
    LegalKeepsLabels(m, p, e);
    hide Legal;
  }

  lemma {:induction false} NotOwnBefore(m: Mode, p: Params, log: seq<Event>, c: NamespacedName, seen: World, at: nat,
                                        i: nat, k: Key)
    requires Run(m, p, log) && at <= i < |log| && Env(m, p, seen, log[at].pre)
    requires forall n :: at <= n < i ==> log[n].cluster == c
    requires NotOwn(p, c, log[i].pre, k)
    ensures NotOwn(p, c, seen, k)
    decreases i
  {
    hide Legal, Env, Recalls, NotOwn;
    if i == at {
      NotOwnBeforeMoves(m, p, c, seen, log[i].pre, k);
    } else {
      assert Env(m, p, log[i - 1].post, log[i - 1 + 1].pre) && Legal(m, p, log[i - 1]);
      NotOwnBeforeMoves(m, p, c, log[i - 1].post, log[i].pre, k);
      NotOwnBeforeCall(m, p, log[i - 1], k);
      NotOwnBefore(m, p, log, c, seen, at, i - 1, k);
    }
  }

  /** In every run, what is some other Cluster's is neither overwritten by a copy nor deleted. */
  lemma OthersObjectsAreSpared(m: Mode, p: Params, log: seq<Event>, i: nat, k: Key)
    requires Run(m, p, log) && i < |log| && Looks(log[i].action) && NotOwn(p, log[i].cluster, log[i].pre, k)
    ensures !Touches(log[i], k)
  {
    hide Legal, Env, Recalls;
    assert Legal(m, p, log[i]);
    if Touches(log[i], k) {
      LookTouchesTarget(m, p, log[i], k);
      LookedBefore(m, p, log, i);
      NotOwnBefore(m, p, log, log[i].cluster, LookedAt(log[i]), LookIndex(log, i), i, k);
    }
  }

  lemma LookTouchesTarget(m: Mode, p: Params, e: Event, k: Key)
    requires Legal(m, p, e) && Looks(e.action) && Touches(e, k)
    ensures e.action.key == k
  {
    hide HasFinalizer, Clean, Env, Labelled;
  }

  // ---------------------------------------------------------------- non-interference

  /** No Flux source under a Cluster's derived name carries the labels of another Cluster. */
  ghost predicate WellLabelled(p: Params, w: World) {
    forall c: NamespacedName, d: NamespacedName, kind: Kind ::
      IsSourceKind(kind) && SourceKey(c, kind) in w.objs && Labelled(p, d, w.objs[SourceKey(c, kind)]) ==>
        c.name == d.name
  }

  /** Every Flux source under a Cluster's derived name carries that Cluster's labels. */
  ghost predicate SourcesOwn(p: Params, w: World) {
    forall c: NamespacedName, kind: Kind :: IsSourceKind(kind) && SourceKey(c, kind) in w.objs ==>
      Labelled(p, c, w.objs[SourceKey(c, kind)])
  }

  /**
  A call leaves labels alone, except that it labels objects, and among the sources its own one only, as its Cluster's.
   */
  predicate LabelsKept(p: Params, c: NamespacedName, w: World, v: World) {
    forall k | k in v.objs ::
      || (k in w.objs && v.objs[k].labels == w.objs[k].labels)
      || (Labelled(p, c, v.objs[k]) && (IsSourceKind(k.kind) ==> k == SourceKey(c, k.kind)))
      || (k.kind.Namespace? && v.objs[k].labels == map[])
  }

  lemma WriteKeepsLabels(p: Params, c: NamespacedName, w: World, k: Key, v: World)
    requires IsWrite(p, c, w, k, v) && (IsSourceKind(k.kind) ==> k == SourceKey(c, k.kind))
    ensures LabelsKept(p, c, w, v)
  {
  }

  lemma DeleteKeepsLabels(p: Params, c: NamespacedName, w: World, k: Key, v: World)
    requires DeleteEffect(w, k, v)
    ensures LabelsKept(p, c, w, v)
  {
  }

  lemma SameObjectsKeepLabels(p: Params, c: NamespacedName, w: World, v: World)
    requires v.objs == w.objs
    ensures LabelsKept(p, c, w, v)
  {
  }

  lemma LegalKeepsLabels(m: Mode, p: Params, e: Event)
    requires Legal(m, p, e)
    ensures LabelsKept(p, e.cluster, e.pre, e.post)
  {
    hide HasFinalizer, Clean, Env, Labelled, LabelsKept, DeleteEffect, IsWrite, MayDelete;
    var c, w, v := e.cluster, e.pre, e.post;
    match e.action
    case RequestAccess =>
      if v == w { SameObjectsKeepLabels(p, c, w, v); } else { WriteKeepsLabels(p, c, w, AccessKey(c), v); }
    case ReleaseAccess => DeleteKeepsLabels(p, c, w, AccessKey(c), v);
    case PutSecret(k, _) => WriteKeepsLabels(p, c, w, k, v);
    case PutSource(k) => WriteKeepsLabels(p, c, w, k, v);
    case PutRelease => WriteKeepsLabels(p, c, w, ReleaseKey(c), v);
    case PutNamespace => NamespaceKeepsLabels(p, c, w, v);
    case Delete(k, _, _, _) => DeleteKeepsLabels(p, c, w, k, v);
    case _ => SameObjectsKeepLabels(p, c, w, v);
  }

  lemma NamespaceKeepsLabels(p: Params, c: NamespacedName, w: World, v: World)
    requires v == Write(w, NamespaceKey(c), NEW_NAMESPACE)
    ensures LabelsKept(p, c, w, v)
  {
  }

  lemma EnvKeepsWellLabelled(m: Mode, p: Params, w: World, v: World)
    requires Env(m, p, w, v) && WellLabelled(p, w)
    ensures WellLabelled(p, v)
  {
  }

  lemma LegalKeepsWellLabelled(m: Mode, p: Params, e: Event)
    requires Legal(m, p, e) && WellLabelled(p, e.pre)
    ensures WellLabelled(p, e.post)
  {
    LegalKeepsLabels(m, p, e);
    hide Legal;
    forall c: NamespacedName, d: NamespacedName, kind: Kind |
      IsSourceKind(kind) && SourceKey(c, kind) in e.post.objs && Labelled(p, d, e.post.objs[SourceKey(c, kind)])
      ensures c.name == d.name
    {
      if DerivedName(e.cluster.name) == DerivedName(c.name) { DerivedNameInjective(e.cluster.name, c.name); }
    }
  }

  lemma EnvKeepsSourcesOwn(m: Mode, p: Params, w: World, v: World)
    requires Env(m, p, w, v) && SourcesOwn(p, w)
    ensures SourcesOwn(p, v)
  {
    forall c: NamespacedName, kind: Kind | IsSourceKind(kind) && SourceKey(c, kind) in v.objs
      ensures Labelled(p, c, v.objs[SourceKey(c, kind)])
    {
      DerivedNameReserved(c.name);
    }
  }

  lemma LegalKeepsSourcesOwn(m: Mode, p: Params, e: Event)
    requires Legal(m, p, e) && SourcesOwn(p, e.pre)
    ensures SourcesOwn(p, e.post)
  {
    LegalKeepsLabels(m, p, e);
    hide Legal;
    forall c: NamespacedName, kind: Kind | IsSourceKind(kind) && SourceKey(c, kind) in e.post.objs
      ensures Labelled(p, c, e.post.objs[SourceKey(c, kind)])
    {
      if DerivedName(e.cluster.name) == DerivedName(c.name) { DerivedNameInjective(e.cluster.name, c.name); }
    }
  }

  /** The objects that make up a Cluster's deployment. */
  predicate BelongsTo(p: Params, d: NamespacedName, w: World, k: Key) {
    || k == ReleaseKey(d) || k == AccessKey(d) || k == NamespaceKey(d)
    || (IsSourceKind(k.kind) && k == SourceKey(d, k.kind))
    || (IsCopyKey(d, k) && k in w.objs && Labelled(p, d, w.objs[k]))
  }

  /** What a call for c may copy over or delete, if it belongs to another Cluster, is not c's own. */
  lemma OthersAreNotOwn(m: Mode, p: Params, e: Event, d: NamespacedName, k: Key)
    requires Legal(m, p, e) && WellLabelled(p, e.pre) && e.cluster != d && BelongsTo(p, d, e.pre, k)
    requires Targets(e.action, k) && k in e.pre.objs
    ensures NotOwn(p, e.cluster, e.pre, k)
  {
    if DerivedName(e.cluster.name) == DerivedName(d.name) { DerivedNameInjective(e.cluster.name, d.name); }
    DerivedNameReserved(d.name);
    hide HasFinalizer, Clean, Env, DerivedName;
    if e.action.PutSecret? {
      assert IsCopyKey(e.cluster, k);
    } else {
      assert DeletableKey(p, e.cluster, k, e.action.cause);
    }
  }

  lemma LooksSpareOthers(m: Mode, p: Params, log: seq<Event>, i: nat, d: NamespacedName, k: Key)
    requires Run(m, p, log) && i < |log| && WellLabelled(p, log[i].pre) && log[i].cluster != d
             && BelongsTo(p, d, log[i].pre, k)
    requires Looks(log[i].action)
    ensures !Touches(log[i], k)
  {
    hide Legal, Env, Recalls, WellLabelled, BelongsTo, NotOwn;
    assert Legal(m, p, log[i]);
    if Touches(log[i], k) {
      LookTouchesTarget(m, p, log[i], k);
      if k in log[i].pre.objs {
        OthersAreNotOwn(m, p, log[i], d, k);
        OthersObjectsAreSpared(m, p, log, i, k);
      } else {
        NewCopiesAreOwn(m, p, log[i], d, k);
      }
    }
  }

  lemma NewCopiesAreOwn(m: Mode, p: Params, e: Event, d: NamespacedName, k: Key)
    requires Legal(m, p, e) && Targets(e.action, k) && k !in e.pre.objs && Touches(e, k)
    ensures !BelongsTo(p, d, e.pre, k)
  {
    hide HasFinalizer, Clean, Env, Labelled;
  }

  lemma CallSparesOthers(m: Mode, p: Params, e: Event, d: NamespacedName, k: Key)
    requires Legal(m, p, e) && !Looks(e.action) && e.cluster != d && BelongsTo(p, d, e.pre, k)
    ensures !Touches(e, k)
  {
    if DerivedName(e.cluster.name) == DerivedName(d.name) { DerivedNameInjective(e.cluster.name, d.name); }
    hide HasFinalizer, Clean, Env, DerivedName, Labelled;
    match e.action
    case PutSource(_) =>
    case PutRelease =>
    case PutNamespace =>
    case RequestAccess =>
    case ReleaseAccess =>
    case _ =>
  }

  lemma CallSparesResource(m: Mode, p: Params, e: Event, d: NamespacedName)
    requires Legal(m, p, e) && e.cluster != d
    ensures d in e.post.clusters <==> d in e.pre.clusters
    ensures d in e.pre.clusters ==> e.post.clusters[d] == e.pre.clusters[d]
  {
  }

  /**
  Non-interference: no call made for one Cluster touches the HelmRelease, the source, the copies, the access, the target
  namespace or the resource itself of another one: in every run, whatever others do, also where the two share a
  namespace.
   */
  lemma NonInterference(m: Mode, p: Params, start: World, log: seq<Event>)
    requires WellLabelled(p, start) && StartsAt(m, p, start, log) && Run(m, p, log)
    ensures forall i, d, k :: 0 <= i < |log| && log[i].cluster != d && BelongsTo(p, d, log[i].pre, k) ==>
              !Touches(log[i], k)
    ensures forall i, d :: 0 <= i < |log| && log[i].cluster != d ==>
              (d in log[i].post.clusters <==> d in log[i].pre.clusters)
              && (d in log[i].pre.clusters ==> log[i].post.clusters[d] == log[i].pre.clusters[d])
  {
    forall w, v | WellLabelled(p, w) && Env(m, p, w, v) ensures WellLabelled(p, v) {
      EnvKeepsWellLabelled(m, p, w, v);
    }
    forall e: Event | WellLabelled(p, e.pre) && Legal(m, p, e) ensures WellLabelled(p, e.post) {
      LegalKeepsWellLabelled(m, p, e);
    }
    hide Legal, Env, Recalls, WellLabelled, BelongsTo, Touches;
    Invariant(m, p, start, log, w => WellLabelled(p, w), e => true);
    forall i, d | 0 <= i < |log| && log[i].cluster != d
      ensures d in log[i].post.clusters <==> d in log[i].pre.clusters
      ensures d in log[i].pre.clusters ==> log[i].post.clusters[d] == log[i].pre.clusters[d]
    {
      CallSparesResource(m, p, log[i], d);
    }
    forall i, d, k | 0 <= i < |log| && log[i].cluster != d && BelongsTo(p, d, log[i].pre, k)
      ensures !Touches(log[i], k)
    {
      if Looks(log[i].action) { LooksSpareOthers(m, p, log, i, d, k); } else { CallSparesOthers(m, p, log[i], d, k); }
    }
  }

  // ---------------------------------------------------------------- references

  /**
  What a HelmRelease refers to is there: the source it names, and the access it uses, neither of them being deleted.
   */
  predicate Anchored(p: Params, w: World, c: NamespacedName) {
    ReleaseKey(c) in w.objs ==>
      var b := w.objs[ReleaseKey(c)].body;
      && b.Release? && IsSourceKind(b.sourceKind) && KindFits(p, b.sourceKind)
      && b.sourceNamespace == c.namespace && b.sourceName == DerivedName(c.name)
      && LiveAt(p, w, c, Platform, b.sourceKind, SourceKey(c, b.sourceKind)) && AccessLive(w, c)
  }

  ghost predicate AllAnchored(p: Params, w: World) { forall c :: Anchored(p, w, c) }

  lemma EnvKeepsAnchored(m: Mode, p: Params, w: World, v: World, c: NamespacedName)
    requires !m.Free? && Env(m, p, w, v) && Anchored(p, w, c)
    ensures Anchored(p, v, c)
  {
  }

  /** The release, the source of the fixed kind and the access of c are as they were. */
  lemma SameAnchor(p: Params, w: World, v: World, c: NamespacedName)
    requires p.fixedKind.Some? && Anchored(p, w, c)
    requires Lookup(v, ReleaseKey(c)) == Lookup(w, ReleaseKey(c)) && Lookup(v, AccessKey(c)) == Lookup(w, AccessKey(c))
    requires IsSourceKind(p.fixedKind.value) ==>
               Lookup(v, SourceKey(c, p.fixedKind.value)) == Lookup(w, SourceKey(c, p.fixedKind.value))
    ensures Anchored(p, v, c)
  {
  }

  lemma NoReleaseIsAnchored(p: Params, w: World, c: NamespacedName)
    requires ReleaseAbsent(w, c)
    ensures Anchored(p, w, c)
  {
  }

  lemma AccessWritten(p: Params, w: World, v: World, e: NamespacedName, c: NamespacedName)
    requires p.fixedKind.Some? && Anchored(p, w, c)
    requires v == w || (AccessAbsent(w, e) && IsWrite(p, e, w, AccessKey(e), v))
    ensures Anchored(p, v, c)
  {
    hide LiveAt;
    if v != w && c != e { SameAnchor(p, w, v, c); }
  }

  lemma AccessDeleted(p: Params, w: World, v: World, e: NamespacedName, c: NamespacedName)
    requires p.fixedKind.Some? && Anchored(p, w, c)
    requires ReleaseAbsent(w, e) && DeleteEffect(w, AccessKey(e), v)
    ensures Anchored(p, v, c)
  {
    hide Anchored;
    if c == e { NoReleaseIsAnchored(p, v, c); } else { SameAnchor(p, w, v, c); }
  }

  lemma SecretWritten(p: Params, w: World, v: World, e: NamespacedName, k: Key, c: NamespacedName)
    requires p.fixedKind.Some? && Anchored(p, w, c)
    requires k.kind.Secret? && IsWrite(p, e, w, k, v)
    ensures Anchored(p, v, c)
  {
    hide Anchored;
    SameAnchor(p, w, v, c);
  }

  lemma SourceWritten(p: Params, w: World, v: World, e: NamespacedName, k: Key, c: NamespacedName)
    requires p.fixedKind.Some? && Anchored(p, w, c)
    requires IsSourceKind(k.kind) && k == SourceKey(e, k.kind) && IsWrite(p, e, w, k, v)
    ensures Anchored(p, v, c)
  {
    if DerivedName(e.name) == DerivedName(c.name) { DerivedNameInjective(e.name, c.name); }
    hide DerivedName;
  }

  lemma ReleaseWritten(m: Mode, p: Params, e: Event, c: NamespacedName)
    requires p.fixedKind.Some? && Anchored(p, e.pre, c) && Legal(m, p, e) && e.action.PutRelease? && ReleaseLive(p, e)
    ensures Anchored(p, e.post, c)
  {
    if DerivedName(e.cluster.name) == DerivedName(c.name) { DerivedNameInjective(e.cluster.name, c.name); }
    hide DerivedName, Clean, Env, MayDelete;
  }

  lemma ObjectDeleted(p: Params, w: World, v: World, e: NamespacedName, k: Key, cause: Cause, c: NamespacedName)
    requires p.fixedKind.Some? && Anchored(p, w, c)
    requires MayDelete(p, e, w, k, cause) && DeleteEffect(w, k, v) && OwnedOrAbsent(p, e, w, k)
    ensures Anchored(p, v, c)
  {
    if DerivedName(e.name) == DerivedName(c.name) { DerivedNameInjective(e.name, c.name); }
    hide DerivedName;
    match cause
    case Undeploy =>
    case Teardown =>
    case Obsolete(_) =>
    case Prune =>
  }

  lemma NothingWritten(p: Params, w: World, v: World, c: NamespacedName)
    requires Anchored(p, w, c) && v.objs == w.objs
    ensures Anchored(p, v, c)
  {
  }

  lemma NamespaceWritten(p: Params, w: World, v: World, e: NamespacedName, c: NamespacedName)
    requires p.fixedKind.Some? && Anchored(p, w, c)
    requires v == Write(w, NamespaceKey(e), NEW_NAMESPACE)
    ensures Anchored(p, v, c)
  {
    hide Anchored;
    SameAnchor(p, w, v, c);
  }

  lemma LegalKeepsAnchored(m: Mode, p: Params, e: Event, c: NamespacedName)
    requires !m.Free? && p.fixedKind.Some? && Legal(m, p, e) && Anchored(p, e.pre, c) && ReleaseLive(p, e)
    ensures Anchored(p, e.post, c)
  {
    hide HasFinalizer, Clean, Env, Anchored, ReleaseLive, IsWrite, DeleteEffect, MayDelete, OwnedOrAbsent;
    var d, w, v := e.cluster, e.pre, e.post;
    match e.action
    case RequestAccess => AccessWritten(p, w, v, d, c);
    case ReleaseAccess => AccessDeleted(p, w, v, d, c);
    case PutSecret(k, _) => SecretWritten(p, w, v, d, k, c);
    case PutSource(k) => SourceWritten(p, w, v, d, k, c);
    case PutRelease => ReleaseWritten(m, p, e, c);
    case PutNamespace => NamespaceWritten(p, w, v, d, c);
    case Delete(k, cause, _, _) => ObjectDeleted(p, w, v, d, k, cause, c);
    case _ => NothingWritten(p, w, v, c);
  }

  /**
  No dangling reference: with a fixed source kind and no outside deletions, and with HelmReleases written only while
  source and access are alive, every HelmRelease in every reachable world refers to a live source and a live access.
   */
  lemma NoDangling(m: Mode, p: Params, start: World, log: seq<Event>)
    requires !m.Free? && p.fixedKind.Some? && AllAnchored(p, start) && StartsAt(m, p, start, log) && Run(m, p, log)
    requires ReleasesLive(p, [], log)
    ensures forall i :: 0 <= i < |log| ==> AllAnchored(p, log[i].pre) && AllAnchored(p, log[i].post)
    ensures forall w :: Env(m, p, Reached(start, log), w) ==> AllAnchored(p, w)
  {
    hide Legal, Env, Anchored, ReleaseLive, Recalls;
    forall w, v | AllAnchored(p, w) && Env(m, p, w, v) ensures AllAnchored(p, v) {
      forall c ensures Anchored(p, v, c) {
        assert Anchored(p, w, c);
        EnvKeepsAnchored(m, p, w, v, c);
      }
    }
    forall e: Event | AllAnchored(p, e.pre) && Legal(m, p, e) && ReleaseLive(p, e) ensures AllAnchored(p, e.post) {
      forall c ensures Anchored(p, e.post, c) {
        assert Anchored(p, e.pre, c);
        LegalKeepsAnchored(m, p, e, c);
      }
    }
    Invariant(m, p, start, log, w => AllAnchored(p, w), e => ReleaseLive(p, e));
  }

  /** The source and the access a HelmRelease needs exist. */
  predicate Supported(w: World, c: NamespacedName, kind: Kind) {
    SourceKey(c, kind) in w.objs && AccessKey(c) in w.objs
  }

  /** A HelmRelease whose source or whose access is gone. */
  predicate Dangles(w: World, c: NamespacedName) {
    && ReleaseKey(c) in w.objs && w.objs[ReleaseKey(c)].body.Release?
    && !Supported(w, c, w.objs[ReleaseKey(c)].body.sourceKind)
  }

  /** The world will not contain a dangling HelmRelease, whatever others do next. */
  ghost predicate NeverDangles(p: Params, w: World) { forall v, c :: Env(Orderly, p, w, v) ==> !Dangles(v, c) }

  /** After none of the calls a HelmRelease dangles, whatever others do next. */
  ghost predicate Undangling(p: Params, log: seq<Event>) { forall i :: 0 <= i < |log| ==> NeverDangles(p, log[i].post) }

  /** What others may do to a source or access that is there: remove it exactly if it is being deleted. */
  lemma SupportedForeverIffLive(p: Params, c: NamespacedName, kind: Kind, w: World)
    requires Supported(w, c, kind) && IsSourceKind(kind)
    ensures (forall v :: Env(Orderly, p, w, v) ==> Supported(v, c, kind))
            <==> !w.objs[SourceKey(c, kind)].terminating && !w.objs[AccessKey(c)].terminating
  {
    DerivedNameReserved(c.name);
    assert Reserved(SourceKey(c, kind)) && Reserved(AccessKey(c));
    if w.objs[SourceKey(c, kind)].terminating {
      TakesAway(p, c, kind, SourceKey(c, kind), w);
    } else if w.objs[AccessKey(c)].terminating {
      TakesAway(p, c, kind, AccessKey(c), w);
    }
  }

  /** Others complete a deletion, and nothing else happens. */
  lemma TakesAway(p: Params, c: NamespacedName, kind: Kind, k: Key, w: World)
    requires (k == SourceKey(c, kind) || k == AccessKey(c)) && TerminatingOf(Lookup(w, k))
    ensures Env(Orderly, p, w, Gone(w, k)) && !Supported(Gone(w, k), c, kind)
    ensures IsSourceKind(kind) ==> Lookup(Gone(w, k), ReleaseKey(c)) == Lookup(w, ReleaseKey(c))
  {
  }

  /**
  The exact condition, at the call that writes a HelmRelease: it never dangles, whatever others do next, if and only if
  the source it names and the access are there and neither of them is being deleted. A reconcile that finds its source
  still terminating from an earlier teardown updates it and writes the HelmRelease all the same.
   */
  lemma WrittenToLast(p: Params, e: Event)
    requires Legal(Orderly, p, e) && e.action.PutRelease?
    ensures var c, kind := e.cluster, e.post.objs[ReleaseKey(e.cluster)].body.sourceKind;
            (forall v :: Env(Orderly, p, e.post, v) ==> !Dangles(v, c))
            <==>
            (&& Lookup(e.pre, SourceKey(c, kind)).Some? && !TerminatingOf(Lookup(e.pre, SourceKey(c, kind)))
             && AccessLive(e.pre, c))
  {
    var c, w := e.cluster, e.post;
    var kind := w.objs[ReleaseKey(c)].body.sourceKind;
    assert Lookup(w, SourceKey(c, kind)) == Lookup(e.pre, SourceKey(c, kind))
           && Lookup(w, AccessKey(c)) == Lookup(e.pre, AccessKey(c));
    DerivedNameReserved(c.name);
    hide Legal;
    if !Supported(w, c, kind) {
      EnvReflexive(Orderly, p, w);
      assert Dangles(w, c);
    } else {
      SupportedForeverIffLive(p, c, kind, w);
      if TerminatingOf(Lookup(w, SourceKey(c, kind))) {
        TakesAway(p, c, kind, SourceKey(c, kind), w);
        assert Dangles(Gone(w, SourceKey(c, kind)), c);
      } else if TerminatingOf(Lookup(w, AccessKey(c))) {
        TakesAway(p, c, kind, AccessKey(c), w);
        assert Dangles(Gone(w, AccessKey(c)), c);
      } else {
        forall v | Env(Orderly, p, w, v)
        && ReleaseKey(c) in v.objs ensures !Dangles(v, c) { KeepsItsSource(p, c, w, v); }
      }
    }
  }

  /** Others do not change what a HelmRelease refers to. */
  lemma KeepsItsSource(p: Params, c: NamespacedName, w: World, v: World)
    requires Env(Orderly, p, w, v) && ReleaseKey(c) in v.objs
    ensures ReleaseKey(c) in w.objs && v.objs[ReleaseKey(c)].body == w.objs[ReleaseKey(c)].body
  {
    DerivedNameReserved(c.name);
    assert Reserved(ReleaseKey(c));
  }

  lemma AnchoredDoesNotDangle(p: Params, w: World)
    requires AllAnchored(p, w)
    ensures NeverDangles(p, w)
  {
    forall v, c | Env(Orderly, p, w, v) ensures !Dangles(v, c) {
      assert Anchored(p, w, c);
      EnvKeepsAnchored(Orderly, p, w, v, c);
    }
  }

  lemma MustBeLive(p: Params, e: Event)
    requires Legal(Orderly, p, e) && NeverDangles(p, e.post) && SourcesOwn(p, e.pre)
    ensures ReleaseLive(p, e)
  {
    if e.action.PutRelease? {
      WrittenToLast(p, e);
    }
  }

  /**
  The exact condition over whole runs: from a world without dangling references, with a fixed source kind and no outside
  deletions, no HelmRelease ever dangles, at any call and whatever others do next, if and only if every call that writes
  one finds the source and the access alive.
   */
  lemma NoDanglingIffLive(p: Params, start: World, log: seq<Event>)
    requires p.fixedKind.Some? && AllAnchored(p, start) && SourcesOwn(p, start)
    requires StartsAt(Orderly, p, start, log) && Run(Orderly, p, log)
    ensures Undangling(p, log) <==> ReleasesLive(p, [], log)
  {
    hide Env, SourcesOwn, NeverDangles, AllAnchored;
    if ReleasesLive(p, [], log) {
      NoDangling(Orderly, p, start, log);
      forall i | 0 <= i < |log| ensures NeverDangles(p, log[i].post) { AnchoredDoesNotDangle(p, log[i].post); }
    }
    if Undangling(p, log) {
      AlwaysOwn(p, start, log);
      forall i | 0 <= i < |log| ensures ReleaseLive(p, log[i]) { MustBeLive(p, log[i]); }
    }
  }

  lemma AlwaysOwn(p: Params, start: World, log: seq<Event>)
    requires SourcesOwn(p, start) && StartsAt(Orderly, p, start, log) && Run(Orderly, p, log)
    ensures forall i :: 0 <= i < |log| ==> SourcesOwn(p, log[i].pre)
  {
    hide Legal, Env, Recalls, SourcesOwn;
    forall w, v | SourcesOwn(p, w) && Env(Orderly, p, w, v) ensures SourcesOwn(p, v) {
      EnvKeepsSourcesOwn(Orderly, p, w, v);
    }
    forall e: Event | SourcesOwn(p, e.pre) && Legal(Orderly, p, e) ensures SourcesOwn(p, e.post) {
      LegalKeepsSourcesOwn(Orderly, p, e);
    }
    Invariant(Orderly, p, start, log, w => SourcesOwn(p, w), e => true);
  }
}
