/**
The API servers as the controller sees them. Every call may fail, before or after taking effect; the controller's
process may die at any call, after which no further call gets through; and everybody else moves after every call.
The controller's calls are recorded in the ghost log, which always is a legal run.
 */
module ApiServers {
  import opened Options
  import opened Kubernetes
  import opened Protocol

  datatype GetResult = Found(obj: Obj) | NotFound | Failed
  datatype AccessResult = AccessReady | AccessPending | AccessFailed

  predicate Granted(w: World, c: NamespacedName) {
    AccessKey(c) in w.objs && IsGranted(w.objs[AccessKey(c)])
  }

  predicate Usable(w: World, c: NamespacedName) {
    Granted(w, c) && !w.objs[AccessKey(c)].terminating
  }

  /**
  What is known of the access library and of AccessRequests. A patient library reports access as ready only once it is
  usable. A steady one does not restart the teardown of a Cluster that is being deleted: after ReconcileDelete was
  called for the Cluster it creates no new AccessRequest as long as the Cluster is being deleted. `held` says whether a
  finalizer holds deleted AccessRequests, if that is always the same.
   */
  datatype Promise = Promise(patient: bool, steady: bool, held: Option<bool>) {
    /** Access that is torn down does not come back, or is gone at once. */
    predicate Progressive(deleting: bool) { (steady && deleting) || held == Some(false) }

    /** Access that is torn down is held, and requested access is waited for. */
    predicate Clinging() { patient && held == Some(true) }
  }

  class AccessLibrary {
    const promise: Promise
    /** The Clusters whose access was released. */
    var released: set<NamespacedName>

    constructor (promise: Promise)
      ensures this.promise == promise && released == {}
    {
      this.promise, released := promise, {};
    }

    /** No access is requested for the Cluster any more once it is being deleted. */
    predicate Torn(c: NamespacedName)
      reads this
    {
      promise.steady && c in released
    }

    predicate Begun(c: NamespacedName, w: World)
      reads this
    {
      Torn(c) && BeingDeleted(w, c)
    }

    /** Decides about a request for access: the world after it, and whether the caller has to wait. */
    method Request(p: Params, c: NamespacedName, w: World) returns (v: World, pending: bool)
      ensures Answered(p, c, Begun(c, w), promise.patient, w, v, pending)
    {
      v, pending := w, false;
      if !Begun(c, w) || AccessLive(w, c) {
        if AccessAbsent(w, c) {
          v, pending := Write(w, AccessKey(c), NewAccess(p, c)), true;
        } else if !Usable(w, c) {
          pending := *;
          if promise.patient { pending := true; }
        }
      }
    }

    /**
    Decides about the end of access: the world after it, in which the AccessRequest is gone, or held by a finalizer.
     */
    method Release(c: NamespacedName, w: World) returns (v: World)
      modifies this
      ensures Released(c, promise.held, w, v)
      ensures released == old(released) + {c}
    {
      v := w;
      if AccessLive(w, c) {
        var marked := *;
        if promise.held.Some? { marked := promise.held.value; }
        v := if marked then Marked(w, AccessKey(c)) else Gone(w, AccessKey(c));
      }
      released := released + {c};
    }
  }

  /**
  How far access is from being gone for good. If nothing is requested again: being deleted, absent; otherwise: being
  deleted, absent (and going to be requested), requested, granted. In the odd stages somebody else's move is awaited.
   */
  function AccessStage(torn: bool, w: World, c: NamespacedName): nat {
    if AccessLive(w, c) then (if Usable(w, c) then 2 else 3)
    else (if torn && BeingDeleted(w, c) then 0 else 4) + (if AccessAbsent(w, c) then 0 else 1)
  }

  function NewAccess(p: Params, c: NamespacedName): Obj {
    Obj(ExpectedLabels(p, c), map[], false, Grant(false, ""))
  }

  /**
  The answer to a request for access: in a begun teardown nothing is requested again; otherwise an AccessRequest is
  created if there is none; usable access is never waited for, other access is, unless the library is impatient.
   */
  predicate Answered(p: Params, c: NamespacedName, begun: bool, patient: bool, w: World, v: World, pending: bool) {
    if begun && !AccessLive(w, c) then v == w && !pending
    else if AccessAbsent(w, c) then v == Write(w, AccessKey(c), NewAccess(p, c)) && pending
    else v == w && (Usable(w, c) ==> !pending) && (patient && !Usable(w, c) ==> pending)
  }

  predicate Released(c: NamespacedName, held: Option<bool>, w: World, v: World) {
    && DeleteEffect(w, AccessKey(c), v)
    && (held.Some? && AccessLive(w, c) ==> v == if held.value then Marked(w, AccessKey(c)) else Gone(w, AccessKey(c)))
  }

  /** A request, and the environment after it, brings access closer to its end, or it waits. */
  lemma RequestRecedes(m: Mode, p: Params, c: NamespacedName, torn: bool, patient: bool, w: World, v: World,
                       pending: bool, x: World, ok: bool)
    requires Answered(p, c, torn && BeingDeleted(w, c), patient, w, v, pending) && HasFinalizer(w, c)
    requires Env(m, p, v, x) || (!ok && Env(m, p, w, x))
    ensures !m.Free? ==> AccessStage(torn, x, c) <= AccessStage(torn, w, c)
    ensures !m.Free? && ok && pending ==>
              AccessStage(torn, x, c) < AccessStage(torn, w, c) || AccessStage(torn, x, c) % 2 == 1
    ensures !m.Free? && AccessLive(w, c) ==> AccessLive(x, c)
    ensures m.Quiet? ==> x == v || (!ok && x == w)
  {
    hide Env;
    if Env(m, p, v, x) {
      if !m.Free? { AccessRecedes(m, p, torn, v, x, c); }
      EnvShrinks(m, p, c, v, x);
    } else {
      if !m.Free? { AccessRecedes(m, p, torn, w, x, c); }
      EnvShrinks(m, p, c, w, x);
    }
  }

  /** The same for a release, provided that access does not come back or goes at once. */
  lemma ReleaseRecedes(m: Mode, p: Params, c: NamespacedName, torn: bool, steady: bool, held: Option<bool>,
                       w: World, v: World, x: World)
    requires Released(c, held, w, v) && Env(m, p, v, x) && !m.Free? && HasFinalizer(w, c) && !AccessAbsent(v, c)
    requires (torn ==> steady) && ((steady && BeingDeleted(w, c)) || held == Some(false))
    ensures AccessStage(steady, x, c) <= AccessStage(torn, w, c)
    ensures AccessStage(steady, x, c) < AccessStage(torn, w, c) || AccessStage(steady, x, c) % 2 == 1
  {
    AccessRecedes(m, p, steady, v, x, c);
    hide Env;
  }

  /** What a caller who was or was not told to wait knows about access. */
  lemma RequestTells(p: Params, c: NamespacedName, begun: bool, patient: bool, w: World, v: World, pending: bool)
    requires Answered(p, c, begun, patient, w, v, pending)
    ensures !pending ==> (AccessKey(c) in w.objs || begun) && (patient ==> Usable(w, c) || begun) && v == w
    ensures pending ==> !Usable(w, c)
    ensures AccessKey(c) in w.objs ==> v == w
    ensures AccessKey(c) !in w.objs && !begun ==> v == Write(w, AccessKey(c), NewAccess(p, c))
    ensures v == w || v == Write(w, AccessKey(c), NewAccess(p, c))
  {
  }

  lemma RequestLegal(m: Mode, p: Params, c: NamespacedName, begun: bool, patient: bool, w: World, v: World,
                     pending: bool)
    requires Answered(p, c, begun, patient, w, v, pending) && HasFinalizer(w, c)
    ensures Legal(m, p, Event(c, RequestAccess, w, v))
  {
  }

  lemma ReleaseLegal(m: Mode, p: Params, c: NamespacedName, held: Option<bool>, w: World, v: World)
    requires Released(c, held, w, v) && HasFinalizer(w, c) && ReleaseAbsent(w, c)
    ensures Legal(m, p, Event(c, ReleaseAccess, w, v))
  {
  }

  lemma AccessRecedes(m: Mode, p: Params, torn: bool, w: World, v: World, c: NamespacedName)
    requires Env(m, p, w, v) && !m.Free? && HasFinalizer(w, c)
    ensures AccessStage(torn, v, c) <= AccessStage(torn, w, c)
    ensures AccessLive(w, c) ==> AccessLive(v, c)
  {
  }

  /** A call by which the access library finds that a grant is to be waited for. */
  predicate AwaitsGrant(e: Event, c: NamespacedName) {
    e.cluster == c && e.action.RequestAccess? && !Usable(e.pre, c)
  }

  /** A call by which the access library finds that somebody's finalizer is to be waited for. */
  predicate AwaitsRemoval(e: Event, c: NamespacedName) {
    e.cluster == c && e.action.ReleaseAccess? && !AccessAbsent(e.post, c)
  }

  predicate Awaits(e: Event, c: NamespacedName) { AwaitsGrant(e, c) || AwaitsRemoval(e, c) }

  /** The call deletes the object under k from the world w. */
  predicate IsDelete(e: Event, c: NamespacedName, k: Key, w: World) {
    e.cluster == c && e.pre == w && e.action.Delete? && e.action.key == k && DeleteEffect(w, k, e.post)
  }

  /** What stays the same while an API server is used. */
  datatype Setting = Setting(mode: Mode, p: Params, reliable: bool, promise: Promise)

  class ApiServer {
    const p: Params
    const mode: Mode
    /** No API call fails. */
    const reliable: bool
    const library: AccessLibrary
    var w: World
    /** The controller's process has died. */
    var down: bool
    ghost const origin: World
    ghost var log: seq<Event>

    constructor (p: Params, mode: Mode, reliable: bool, library: AccessLibrary, w: World)
      requires ConfigFits(p, w.config)
      ensures this.p == p && this.mode == mode && this.reliable == reliable && this.library == library && this.w == w
              && origin == w
      ensures !down && log == []
      ensures Consistent()
    {
      this.p, this.mode, this.reliable, this.library, this.w := p, mode, reliable, library, w;
      down, origin, log := false, w, [];
      new;
      EnvReflexive(mode, p, w);
    }

    ghost predicate Consistent()
      reads this
    {
      && Run(mode, p, log)
      && StartsAt(mode, p, origin, log)
      && Env(mode, p, Reached(origin, log), w)
      && (reliable ==> !down)
      && ConfigFits(p, w.config)
    }

    ghost function Now(): Moment
      reads this
    {
      Moment(w, log)
    }

    function Terms(): Setting { Setting(mode, p, reliable, library.promise) }

    function Stage(c: NamespacedName): nat
      reads this, library
    {
      AccessStage(library.Torn(c), w, c)
    }

    /** A phase on behalf of a Cluster since some earlier point. */
    twostate predicate Did(c: NamespacedName, s: Scope)
      reads this
    {
      Progressed(mode, p, c, s, old(Now()), Now())
    }

    /** Nothing of the Cluster came to life since some earlier point. */
    twostate predicate Shrank(c: NamespacedName)
      reads this
    {
      Shrunk(p, c, old(w), w)
    }

    /** Listed objects were deleted: all of them (except those to be kept) if no call failed. */
    twostate predicate Deleted(c: NamespacedName, items: seq<Key>, keep: set<string>, done: bool)
      reads this
    {
      Deleting(mode, p, c, items, keep, if done then |items| else 0, old(Now()), Now())
    }

    /** The place of a copy was free or the Cluster's own a moment ago; unless others interfere, it still is. */
    ghost predicate CheckedFor(c: NamespacedName, k: Key, checked: World)
      reads this
    {
      && OnTheWay(mode, p, c, checked, |log|, Now()) && OwnedOrAbsent(p, c, checked, k)
      && (!mode.Free? ==> OwnedOrAbsent(p, c, w, k))
    }

    lemma CopyLegal(c: NamespacedName, k: Key, source: Obj, checked: World)
      requires CheckedFor(c, k, checked) && HasFinalizer(w, c) && IsCopyKey(c, k)
      ensures var o := CopyOf(Lookup(w, k), source, ExpectedLabels(p, c));
              var e := Event(c, PutSecret(k, checked), w, Write(w, k, o));
              Labelled(p, c, o) && Legal(mode, p, e) && Recalls(mode, p, log, e)
    {
      PutSecretLegal(mode, p, c, checked, w, log, k, source);
    }

    /** Everything listed was the Cluster's own when it was listed; unless others interfere, it still is or is gone. */
    ghost predicate Owned(c: NamespacedName, items: seq<Key>)
      reads this
    {
      && AllSeen(mode, p, c, Now(), items)
      && (!mode.Free? ==> forall k :: k in items ==> OwnedOrAbsent(p, c, w, k))
    }

    /**
    The result of listing a kind of Flux source is still good: it covers what is alive, and all of it is the Cluster's.
     */
    ghost predicate Sources(c: NamespacedName, kind: Kind, items: seq<Key>)
      reads this
    {
      SourceList(mode, p, c, kind, items, w) && AllSeen(mode, p, c, Now(), items)
    }

    /** The call took effect: it is recorded, and the environment moved on from its outcome. */
    twostate predicate Applied(c: NamespacedName, a: Action, v: World)
      reads this
    {
      log == old(log) + [Event(c, a, old(w), v)] && Env(mode, p, v, w)
    }

    /** The call had no effect; only the environment moved. */
    twostate predicate Skipped()
      reads this
    {
      log == old(log) && Env(mode, p, old(w), w)
    }

    /** Everybody else moves. */
    method Interfere()
      requires Consistent()
      modifies this`w
      ensures Consistent() && Skipped()
    {
      hide Run, ClustersMove, ObjectsMove, OrderlyMove;
      EnvReflexive(mode, p, w);
      var v :| Env(mode, p, w, v);
      EnvTransitive(mode, p, Reached(origin, log), w, v);
      w := v;
    }

    /** Decides whether a call gets through to the server. */
    method Reach() returns (ok: bool)
      requires Consistent()
      modifies this`down
      ensures Consistent()
      ensures reliable ==> ok
      ensures old(down) ==> !ok && down
    {
      if !reliable {
        if * { down := true; }
        if down { return false; }
        if * { return false; }
      }
      ok := true;
    }

    /** The world now is one that the run passes through. */
    lemma OnTheRun()
      requires Consistent()
      ensures log != [] ==> Env(mode, p, log[|log| - 1].post, w)
    {
    }

    /** Records a call. */
    ghost method Record(e: Event)
      requires Consistent() && e.pre == w && Legal(mode, p, e) && Recalls(mode, p, log, e)
      modifies this`log
      ensures log == old(log) + [e]
      ensures Run(mode, p, log) && StartsAt(mode, p, origin, log) && Reached(origin, log) == e.post
    {
      hide Run, Legal, Env, Recalls;
      RunExtends(mode, p, origin, log, e);
      log := log + [e];
    }

    /** A call that takes the world to `v` if it gets through; even then the answer may be lost. */
    method Update(c: NamespacedName, ghost a: Action, v: World) returns (ok: bool)
      requires Consistent() && Legal(mode, p, Event(c, a, w, v)) && Recalls(mode, p, log, Event(c, a, w, v))
      modifies this
      ensures Consistent()
      ensures reliable ==> ok
      ensures Applied(c, a, v) || (!ok && Skipped())
    {
      hide Run, Legal, Env, Recalls;
      LegalKeepsConfig(mode, p, Event(c, a, w, v));
      ok := Reach();
      if ok {
        Record(Event(c, a, w, v));
        w := v;
        EnvReflexive(mode, p, w);
        if * { ok := reliable; }
      }
      Interfere();
    }

    /** The controller's process is started again. */
    method Restart()
      requires Consistent()
      modifies this`down
      ensures Consistent() && !down
    {
      down := false;
    }

    // ---------------------------------------------------------------- reads

    method Get(k: Key) returns (r: GetResult)
      requires Consistent()
      modifies this`w, this`down
      ensures Consistent() && Skipped()
      ensures reliable ==> !r.Failed?
      ensures r.Found? ==> k in old(w).objs && r.obj == old(w).objs[k]
      ensures r.NotFound? ==> k !in old(w).objs
    {
      var ok := Reach();
      r := if !ok then Failed else if k in w.objs then Found(w.objs[k]) else NotFound;
      Interfere();
    }

    method GetCluster(c: NamespacedName) returns (ok: bool, r: Option<Cluster>)
      requires Consistent()
      modifies this`w, this`down
      ensures Consistent() && Skipped()
      ensures reliable ==> ok
      ensures ok ==> r == if c in old(w).clusters then Some(old(w).clusters[c]) else None
    {
      ok := Reach();
      r := if c in w.clusters then Some(w.clusters[c]) else None;
      Interfere();
    }

    method GetConfig() returns (ok: bool, r: Option<Config>)
      requires Consistent()
      modifies this`w, this`down
      ensures Consistent() && Skipped()
      ensures reliable ==> ok
      ensures old(down) ==> !ok
      ensures ok ==> r == old(w).config && ConfigFits(p, r)
    {
      ok := Reach();
      r := w.config;
      Interfere();
    }

    method GetService() returns (ok: bool, r: Option<Service>)
      requires Consistent()
      modifies this`w, this`down
      ensures Consistent() && Skipped()
      ensures reliable ==> ok
      ensures ok ==> r == old(w).service
    {
      ok := Reach();
      r := w.service;
      Interfere();
    }

    /** Reads the configuration on behalf of a Cluster. */
    method ReadConfigFor(c: NamespacedName) returns (ok: bool, r: Option<Config>)
      requires Consistent()
      modifies this
      ensures Consistent() && Did(c, Nobody)
      ensures reliable ==> ok
      ensures log == old(log) || log == old(log) + [Event(c, ReadConfig, old(w), old(w))]
      ensures ok ==> Applied(c, ReadConfig, old(w)) && r == old(w).config && ConfigFits(p, r)
      ensures mode.Quiet? ==> w == old(w)
    {
      r := w.config;
      ok := Update(c, ReadConfig, w);
      WasRead(c, ReadConfig, old(Now()));
    }

    /** Reads the service on behalf of a Cluster. */
    method ReadServiceFor(c: NamespacedName) returns (ok: bool, r: Option<Service>)
      requires Consistent()
      modifies this
      ensures Consistent() && Did(c, Nobody)
      ensures reliable ==> ok
      ensures log == old(log) || log == old(log) + [Event(c, ReadService, old(w), old(w))]
      ensures ok ==> Applied(c, ReadService, old(w)) && r == old(w).service
      ensures mode.Quiet? ==> w == old(w)
    {
      r := w.service;
      ok := Update(c, ReadService, w);
      WasRead(c, ReadService, old(Now()));
    }

    /** A call that changes nothing got through or not. */
    lemma WasRead(c: NamespacedName, a: Action, before: Moment)
      requires log == before.log + [Event(c, a, before.world, before.world)] || log == before.log
      requires Env(mode, p, before.world, w) && !a.PutRelease?
      ensures Progressed(mode, p, c, Nobody, before, Now())
      ensures mode.Quiet? ==> w == before.world
    {
      hide Env, Progressed;
      if log == before.log {
        EnvProgresses(mode, p, c, Nobody, before.world, w, log);
      } else {
        OnlyObjects(mode, c, before.world, before.world);
        NoObjectProgresses(mode, p, before.world, before.log, Event(c, a, before.world, before.world), w);
      }
    }

    /** Reads a secret of the provider namespace as the source of a copy, on behalf of a registered Cluster. */
    method GetSource(c: NamespacedName, name: string, ghost registered: bool) returns (r: GetResult)
      requires Consistent() && HasFinalizer(w, c) && registered
      modifies this
      ensures Consistent()
      ensures reliable ==> !r.Failed?
      ensures r.Found? ==> ProviderSecret(p, name) in old(w).objs && r.obj == old(w).objs[ProviderSecret(p, name)]
      ensures r.NotFound? ==> ProviderSecret(p, name) !in old(w).objs
      ensures Did(c, Nobody)
      ensures HasFinalizer(w, c)
      ensures mode.Quiet? ==> w == old(w)
    {
      var k := ProviderSecret(p, name);
      r := if k in w.objs then Found(w.objs[k]) else NotFound;
      var ok := Update(c, ReadSource(name, registered), w);
      if !ok { r := Failed; }
      WasRead(c, ReadSource(name, registered), old(Now()));
    }

    /** Lists the objects of a kind in a namespace that carry the Cluster's labels, in some order. */
    method List(c: NamespacedName, site: Site, kind: Kind, namespace: string) returns (ok: bool, items: seq<Key>)
      requires Consistent()
      modifies this`w, this`down
      ensures Consistent() && Skipped()
      ensures reliable ==> ok
      ensures ok ==> forall k :: k in items <==> Listed(p, old(w), c, site, kind, namespace, k)
      ensures ok ==> AllSeen(mode, p, c, Now(), items)
    {
      hide Run, Env, Labelled, AllSeen;
      OnTheRun();
      ok := Reach();
      items := [];
      if ok {
        var rest := set k | k in w.objs && Listed(p, w, c, site, kind, namespace, k);
        while rest != {}
          invariant forall k :: k in rest || k in items <==> Listed(p, w, c, site, kind, namespace, k)
          decreases rest
        {
          var k :| k in rest;
          rest := rest - {k};
          items := items + [k];
        }
      }
      Interfere();
      if ok { ListedIsSeen(mode, p, c, old(w), w, log, site, kind, namespace, items); }
    }

    // ---------------------------------------------------------------- writes

    /** controllerutil.CreateOrUpdate: reads the object, applies the mutation, creates or updates it. */
    method CreateOrUpdate(c: NamespacedName, ghost a: Action, k: Key, mutate: Option<Obj> -> Obj) returns (ok: bool)
      requires Consistent() && Labelled(p, c, mutate(Lookup(w, k)))
      requires a.PutRelease? ==> k == ReleaseKey(c)
      requires Legal(mode, p, Event(c, a, w, Write(w, k, mutate(Lookup(w, k)))))
      requires Recalls(mode, p, log, Event(c, a, w, Write(w, k, mutate(Lookup(w, k)))))
      modifies this
      ensures Consistent()
      ensures reliable ==> ok
      ensures Applied(c, a, Write(old(w), k, mutate(Lookup(old(w), k)))) || (!ok && Skipped())
      ensures Did(c, One(k))
      ensures HasFinalizer(old(w), c) ==> HasFinalizer(w, c)
      ensures forall site, kind, q :: LiveAt(p, w, c, site, kind, q) ==> q == k || LiveAt(p, old(w), c, site, kind, q)
      ensures var o := mutate(Lookup(old(w), k));
              ok && !mode.Free? && !o.terminating && !k.kind.AccessRequest? ==> k in w.objs && w.objs[k] == o
      ensures mode.Quiet? ==> w == Write(old(w), k, mutate(Lookup(old(w), k))) || (!ok && w == old(w))
    {
      hide Run, Legal, Env, Progressed, Recalls, Labelled, LiveAt;
      var v := Write(w, k, mutate(Lookup(w, k)));
      ok := Update(c, a, v);
      WriteOutcome(mode, p, c, k, mutate(Lookup(old(w), k)), Event(c, a, old(w), v), old(Now()), Now(), ok);
    }

    /** What a delete call makes of the world: the object goes, or it is marked when a finalizer holds it. */
    method Without(k: Key) returns (v: World)
      ensures DeleteEffect(w, k, v)
    {
      v := w;
      if k in w.objs && !w.objs[k].terminating {
        if * { v := Gone(w, k); } else { v := Marked(w, k); }
      }
    }

    lemma DeletionLegal(c: NamespacedName, k: Key, cause: Cause, v: World) returns (seen: World, at: nat)
      requires HasFinalizer(w, c) && MayDelete(p, c, w, k, cause) && DeleteEffect(w, k, v)
      requires WasSeen(mode, p, c, Now(), k) && (!mode.Free? ==> OwnedOrAbsent(p, c, w, k))
      ensures var e := Event(c, Delete(k, cause, seen, at), w, v); Legal(mode, p, e) && Recalls(mode, p, log, e)
    {
      hide OnTheWay, MayDelete, DeleteEffect;
      seen, at := SeenWitness(mode, p, c, Now(), k);
      DeleteLegal(mode, p, c, w, k, cause, seen, at, v);
    }

    /** Deletes an object; not finding it counts as success. */
    method DeleteObject(c: NamespacedName, k: Key, ghost cause: Cause) returns (ok: bool)
      requires Consistent() && HasFinalizer(w, c) && MayDelete(p, c, w, k, cause)
      requires WasSeen(mode, p, c, Now(), k) && (!mode.Free? ==> OwnedOrAbsent(p, c, w, k))
      modifies this
      ensures Consistent()
      ensures reliable ==> ok
      ensures Did(c, One(k))
      ensures Shrank(c)
      ensures ReleasesLive(p, old(log), log)
      ensures reliable ==> |log| > |old(log)| && IsDelete(log[|old(log)|], c, k, old(w))
      ensures ok ==> !LiveAt(p, w, c, k.site, k.kind, k)
      ensures ok && Reserved(k) ==> k !in w.objs || w.objs[k].terminating
      ensures mode.Quiet? ==> DeleteEffect(old(w), k, w) || (!ok && w == old(w))
    {
      hide Run, Legal, Env, Progressed, Shrunk, MayDelete, WasSeen, Recalls, Labelled, OwnedOrAbsent, LiveAt,
        DeleteEffect, ReleasesLive;
      var v := Without(k);
      ghost var seen, at := DeletionLegal(c, k, cause, v);
      ghost var e := Event(c, Delete(k, cause, seen, at), w, v);
      ok := Update(c, Delete(k, cause, seen, at), v);
      DeleteOutcome(mode, p, c, k, e, old(Now()), Now(), ok);
    }

    /** Puts the DNS finalizer on; the server refuses this for a Cluster that is being deleted. */
    method PatchFinalizerOn(c: NamespacedName) returns (ok: bool)
      requires Consistent()
      modifies this
      ensures Consistent()
      ensures reliable && c in old(w).clusters && !old(w).clusters[c].deleting ==> ok
      ensures ok ==> HasFinalizer(w, c)
      ensures Did(c, Nobody)
      ensures mode.Quiet? ==> w.objs == old(w).objs && w.config == old(w).config && w.service == old(w).service
    {
      hide Run, Progressed;
      ok := false;
      if c in w.clusters && !w.clusters[c].deleting {
        var v := w.(clusters := w.clusters[c := w.clusters[c].(finalizer := true)]);
        ok := Update(c, AddFinalizer, v);
        if log != old(log) {
          CallKeepsCluster(mode, p, Event(c, AddFinalizer, old(w), v));
          NoObjectProgresses(mode, p, old(w), old(log), Event(c, AddFinalizer, old(w), v), w);
        }
      } else {
        Interfere();
      }
      if log == old(log) {
        EnvProgresses(mode, p, c, Nobody, old(w), w, log);
      }
    }

    /** Removes the generic operation annotation. */
    method PatchAnnotationAway(c: NamespacedName) returns (ok: bool)
      requires Consistent()
      modifies this
      ensures Consistent()
      ensures reliable && c in old(w).clusters ==> ok
      ensures ok ==> c in old(w).clusters
                     && Applied(c, DropAnnotation,
                                old(w).(clusters := old(w).clusters[c := old(w).clusters[c].(operation := None)]))
      ensures old(log) <= log && forall i :: |old(log)| <= i < |log| ==> log[i].action.DropAnnotation?
      ensures Did(c, Nobody)
      ensures Shrank(c)
      ensures mode.Quiet? ==> w.objs == old(w).objs && w.config == old(w).config && w.service == old(w).service
    {
      hide Run, Progressed;
      ok := false;
      if c in w.clusters {
        var v := w.(clusters := w.clusters[c := w.clusters[c].(operation := None)]);
        ok := Update(c, DropAnnotation, v);
        if log != old(log) {
          CallKeepsCluster(mode, p, Event(c, DropAnnotation, old(w), v));
          NoObjectProgresses(mode, p, old(w), old(log), Event(c, DropAnnotation, old(w), v), w);
          EnvProgresses(mode, p, c, Nobody, v, w, log);
        }
      } else {
        Interfere();
      }
      if log == old(log) {
        EnvProgresses(mode, p, c, Nobody, old(w), w, log);
      }
    }

    /** Takes the DNS finalizer off; a deleted Cluster disappears with its last finalizer. */
    method PatchFinalizerAway(c: NamespacedName) returns (ok: bool)
      requires Consistent() && HasFinalizer(w, c) && Clean(p, w, c)
      modifies this
      ensures Consistent()
      ensures reliable ==> ok
      ensures ok ==> !HasFinalizer(w, c)
      ensures !HasFinalizer(w, c) ==> |log| == |old(log)| + 1
                                      && log[|old(log)|] == Event(c, RemoveFinalizer, old(w), log[|old(log)|].post)
      ensures Grew(c, Nobody, old(log), log)
      ensures forall site, kind, k :: LiveAt(p, w, c, site, kind, k) ==> LiveAt(p, old(w), c, site, kind, k)
    {
      hide Run, Clean, Env, Legal, LiveAt, Progressed;
      var v := w.(clusters := w.clusters[c := w.clusters[c].(finalizer := false)]);
      if w.clusters[c].deleting {
        if * { v := w.(clusters := w.clusters - {c}); }
      }
      FinalizerOff(mode, p, c, w, v);
      ok := Update(c, RemoveFinalizer, v);
      FinalizerOffOutcome(mode, p, Event(c, RemoveFinalizer, old(w), v), old(Now()), Now());
    }

    function WithNamespace(w: World, c: NamespacedName): World {
      if NamespaceKey(c) in w.objs then w else Write(w, NamespaceKey(c), NEW_NAMESPACE)
    }

    /** Creates the namespace on the target cluster; finding that it already exists counts as success. */
    method CreateNamespace(c: NamespacedName) returns (ok: bool)
      requires Consistent() && HasFinalizer(w, c)
      modifies this
      ensures Consistent()
      ensures reliable ==> ok
      ensures Did(c, One(NamespaceKey(c)))
      ensures HasFinalizer(w, c)
      ensures mode.Quiet? ==> w == WithNamespace(old(w), c) || (!ok && w == old(w))
    {
      hide Run;
      var v := Write(w, NamespaceKey(c), NEW_NAMESPACE);
      if NamespaceKey(c) in w.objs {
        ok := Reach();
        Interfere();
      } else {
        ghost var e := Event(c, PutNamespace, w, v);
        assert Legal(mode, p, e);
        ok := Update(c, PutNamespace, v);
        if log != old(log) {
          NewNamespaceProgresses(mode, p, c, old(w), old(log), e, w);
        }
      }
      if log == old(log) {
        EnvProgresses(mode, p, c, One(NamespaceKey(c)), old(w), w, log);
      }
    }

    // ---------------------------------------------------------------- the access library

    /**
    ClusterAccessReconciler.Reconcile: creates the AccessRequest if there is none and waits until it is granted. Both
    paths of the reconciler make this call.
     */
    method ReconcileAccess(c: NamespacedName) returns (r: AccessResult)
      requires Consistent() && HasFinalizer(w, c)
      modifies this
      ensures Consistent()
      ensures reliable ==> !r.AccessFailed?
      ensures reliable && Usable(old(w), c) ==> r.AccessReady?
      ensures r.AccessReady? ==> AccessKey(c) in old(w).objs || old(library.Begun(c, w))
      ensures r.AccessReady? && library.promise.patient ==> Usable(old(w), c) || old(library.Begun(c, w))
      ensures r.AccessPending? ==>
                |log| == |old(log)| + 1 && log[|old(log)|].pre == old(w) && AwaitsGrant(log[|old(log)|], c)
      ensures !mode.Free? ==> Stage(c) <= old(Stage(c))
      ensures !mode.Free? && r.AccessPending? ==> Stage(c) < old(Stage(c)) || Stage(c) % 2 == 1
      ensures !mode.Free? && AccessLive(old(w), c) ==> AccessLive(w, c)
      ensures Did(c, One(AccessKey(c)))
      ensures !mode.Free? && !TerminatingOf(Lookup(old(w), AccessKey(c))) ==> !TerminatingOf(Lookup(w, AccessKey(c)))
      ensures forall site, kind, k ::
                kind != AccessRequest && LiveAt(p, w, c, site, kind, k) ==> LiveAt(p, old(w), c, site, kind, k)
      ensures ReleaseAbsent(old(w), c) ==> ReleaseAbsent(w, c)
      ensures HasFinalizer(w, c)
      ensures mode.Quiet? && (AccessKey(c) in old(w).objs || r.AccessReady?) ==> w == old(w)
      ensures mode.Quiet? && reliable && !old(library.Begun(c, w)) ==>
                w == if AccessKey(c) in old(w).objs then old(w) else Write(old(w), AccessKey(c), NewAccess(p, c))
      ensures mode.Quiet? ==> w == old(w) || w == Write(old(w), AccessKey(c), NewAccess(p, c))
    {
      hide Run, Env, Legal, Progressed, Shrunk, AccessStage, Answered, Usable, NewAccess, LiveAt, AccessLive,
        HasFinalizer, TerminatingOf, BeingDeleted;
      var v, pending := library.Request(p, c, w);
      RequestTells(p, c, library.Begun(c, w), library.promise.patient, w, v, pending);
      RequestLegal(mode, p, c, library.Begun(c, w), library.promise.patient, w, v, pending);
      var ok := Update(c, RequestAccess, v);
      r := if !ok then AccessFailed else if pending then AccessPending else AccessReady;
      RequestOutcome(mode, p, c, Event(c, RequestAccess, old(w), v), old(Now()), Now(), ok);
      RequestRecedes(mode, p, c, library.Torn(c), library.promise.patient, old(w), v, pending, w, ok);
    }

    /** Access: builds a client from the granted AccessRequest. */
    method Access(c: NamespacedName) returns (ok: bool)
      requires Consistent()
      modifies this`w, this`down
      ensures Consistent() && Skipped()
      ensures reliable && Granted(old(w), c) ==> ok
      ensures ok ==> Granted(old(w), c)
    {
      ok := Reach();
      ok := ok && Granted(w, c);
      Interfere();
    }

    /** ClusterAccessReconciler.ReconcileDelete: deletes the AccessRequest; ready once it is gone. */
    method ReconcileAccessDelete(c: NamespacedName) returns (r: AccessResult)
      requires Consistent() && HasFinalizer(w, c) && ReleaseAbsent(w, c)
      modifies this, library
      ensures Consistent()
      ensures reliable ==> !r.AccessFailed?
      ensures Did(c, One(AccessKey(c)))
      ensures Shrank(c)
      ensures r.AccessReady? ==> AccessAbsent(w, c)
      ensures r.AccessPending? ==> !AccessAbsent(old(w), c)
      ensures r.AccessPending? ==> old(log) < log && AwaitsRemoval(log[|log| - 1], c)
      ensures library.promise.held == Some(true) && AccessLive(old(w), c) ==> !r.AccessReady?
      ensures library.promise.Progressive(BeingDeleted(old(w), c)) && !mode.Free? && r.AccessPending? ==>
                Stage(c) <= old(Stage(c)) && (Stage(c) < old(Stage(c)) || Stage(c) % 2 == 1)
      ensures mode.Quiet? && r.AccessPending? ==> TerminatingOf(Lookup(w, AccessKey(c)))
    {
      hide Run, Env, Legal, Progressed, Shrunk, AccessStage;
      ghost var torn := library.Torn(c);
      var v := library.Release(c, w);
      ReleaseLegal(mode, p, c, library.promise.held, w, v);
      var ok := Update(c, ReleaseAccess, v);
      r := if !ok then AccessFailed else if AccessAbsent(v, c) then AccessReady else AccessPending;
      if log == old(log) {
        EnvProgresses(mode, p, c, One(AccessKey(c)), old(w), w, log);
      } else {
        DeleteProgresses(mode, p, old(w), old(log), Event(c, ReleaseAccess, old(w), v), AccessKey(c), w);
        if !mode.Free? && library.promise.Progressive(BeingDeleted(old(w), c)) && r.AccessPending? {
          ReleaseRecedes(mode, p, c, torn, library.promise.steady, library.promise.held, old(w), v, w);
        }
      }
    }
  }
}
