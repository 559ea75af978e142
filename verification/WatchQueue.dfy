/**
Propagation of changed source secrets, configurations and Clusters: event handlers, the work queue with its dirty mark
per Cluster, the set of known Clusters, and one worker, interleaved step by step. The question is whether a change can
be lost.
 */
module WatchQueue {
  import opened Options
  import opened Kubernetes
  import opened CopyPlan
  import Selectors

  /** One entry of a Cluster's copy plans. */
  datatype Slot = Slot(site: Site, source: string)

  /** Where a copy goes. */
  datatype Place = Place(cluster: NamespacedName, site: Site, target: string)

  datatype Change = SecretChanged(name: string) | ConfigChanged

  /** An event on its way: just arrived, found relevant, or turned into requests that are still to be enqueued. */
  datatype Handler = Arrived(change: Change) | Relevant | Listed(requests: set<NamespacedName>)

  /** A reconcile: begun, the Cluster read, the configuration read, copying, and holding the content of a source. */
  datatype Worker =
    | Idle
    | Began(cluster: NamespacedName)
    | Found(cluster: NamespacedName, purposes: seq<string>)
    | Configured(cluster: NamespacedName, purposes: seq<string>, config: Config)
    | Copying(cluster: NamespacedName, config: Config, done: set<Slot>)
    | Holding(cluster: NamespacedName, config: Config, done: set<Slot>, slot: Slot, content: Body)

  /**
  `clusters` are the Clusters that exist and are not being deleted, with their purposes; `ignored` are those with the
  ignore annotation. `used` is bookkeeping: the configuration of a Cluster's last successful reconcile.
   */
  datatype State = State(
    config: Config,
    clusters: map<NamespacedName, seq<string>>,
    ignored: set<NamespacedName>,
    sources: map<string, Body>,
    copies: map<Place, Body>,
    known: set<NamespacedName>,
    dirty: set<NamespacedName>,
    retry: set<NamespacedName>,
    flight: multiset<Handler>,
    worker: Worker,
    used: map<NamespacedName, Config>)

  predicate InPlan(config: Config, service: Service, c: NamespacedName, slot: Slot) {
    (slot.site == Platform || slot.site == Target(c)) && slot.source in PlanFor(config, service, slot.site)
  }

  function PlaceOf(config: Config, service: Service, c: NamespacedName, slot: Slot): Place
    requires InPlan(config, service, c, slot)
  {
    Place(c, slot.site, PlanFor(config, service, slot.site)[slot.source])
  }

  /** Some entry of the Cluster's plans is to be copied to this place. */
  ghost predicate Planned(config: Config, service: Service, c: NamespacedName, place: Place) {
    exists slot :: InPlan(config, service, c, slot) && PlaceOf(config, service, c, slot) == place
  }

  /** What is left of the copies when leftovers of a Cluster are pruned. */
  ghost function Pruned(config: Config, service: Service, c: NamespacedName, copies: map<Place, Body>): map<Place,
  Body> {
    map place | place in copies && (place.cluster != c || Planned(config, service, c, place)) :: copies[place]
  }

  /** No two entries of a plan share a target. */
  ghost predicate Distinct(config: Config, service: Service) {
    forall c, a, b ::
      InPlan(config, service, c, a) && InPlan(config, service, c, b)
      && PlaceOf(config, service, c, a) == PlaceOf(config, service, c, b) ==>
        a == b
  }

  // ---------------------------------------------------------------- steps

  /** What users do, what the event handlers do, what the worker and its queue do, and a restart of the process. */
  datatype Move =
    | SetSource(name: string, content: Body)
    | DropSource(name: string)
    | SetConfig(config: Config)
    | Create(cluster: NamespacedName, purposes: seq<string>)
    | SetPurposes(cluster: NamespacedName, purposes: seq<string>)
    | Remove(cluster: NamespacedName)
    | Touch(cluster: NamespacedName)
    | Ignore(cluster: NamespacedName)
    | Heed(cluster: NamespacedName)
    | Check(name: string)
    | List(handler: Handler)
    | Enqueue(handler: Handler, cluster: NamespacedName)
    | Take(cluster: NamespacedName)
    | ReadCluster
    | ReadConfig
    | Register
    | Forget
    | ReadSource(slot: Slot)
    | WriteCopy
    | Finish
    | Fail
    | Wake(cluster: NamespacedName)
    | Restart

  predicate Lists(h: Handler) { h == Arrived(ConfigChanged) || h.Relevant? }

  function Requests(cs: set<NamespacedName>): multiset<Handler> {
    if cs == {} then multiset{} else multiset{Listed(cs)}
  }

  function Replace(flight: multiset<Handler>, h: Handler, n: multiset<Handler>): multiset<Handler> {
    flight - multiset{h} + n
  }

  /** An event about a Cluster with the ignore annotation is filtered out. */
  function Queued(s: State, c: NamespacedName): set<NamespacedName> {
    if c in s.ignored then s.dirty else s.dirty + {c}
  }

  /** What enables a move. */
  ghost predicate Enabled(service: Service, s: State, m: Move) {
    match m
    case SetSource(_, _) => true
    case DropSource(_) => true
    case SetConfig(config) => Distinct(config, service)
    case Create(c, _) => c !in s.clusters
    case SetPurposes(c, _) => c in s.clusters
    case Remove(c) => c in s.clusters
    case Touch(_) => true
    case Ignore(_) => true
    case Heed(c) => c in s.ignored
    case Check(n) => Arrived(SecretChanged(n)) in s.flight
    case List(h) => Lists(h) && h in s.flight
    case Enqueue(h, c) => h.Listed? && h in s.flight && c in h.requests
    case Take(c) => s.worker.Idle? && c in s.dirty
    case ReadCluster => s.worker.Began?
    case ReadConfig => s.worker.Found?
    case Register => s.worker.Configured? && Matched(s.worker.config, s.worker.purposes)
    case Forget => s.worker.Configured? && !Matched(s.worker.config, s.worker.purposes)
    case ReadSource(slot) =>
      s.worker.Copying? && InPlan(s.worker.config, service, s.worker.cluster, slot) && slot !in s.worker.done
      && slot.source in s.sources
    case WriteCopy => s.worker.Holding? && InPlan(s.worker.config, service, s.worker.cluster, s.worker.slot)
    case Finish =>
      s.worker.Copying? && forall slot :: InPlan(s.worker.config, service, s.worker.cluster, slot) ==>
        slot in s.worker.done
    case Fail => !s.worker.Idle?
    case Wake(c) => c in s.retry
    case Restart => true
  }

  predicate IsUsers(m: Move) {
    || m.SetSource? || m.DropSource? || m.SetConfig? || m.Create? || m.SetPurposes? || m.Remove? || m.Touch?
       || m.Ignore? || m.Heed?
  }

  /** The state after a move. */
  ghost function After(service: Service, s: State, m: Move): State
    requires Enabled(service, s, m)
  {
    if IsUsers(m) then ByUsers(s, m) else ByProgram(service, s, m)
  }

  ghost function ByUsers(s: State, m: Move): (v: State)
    requires IsUsers(m)
    ensures v == s.(config := v.config, clusters := v.clusters, ignored := v.ignored, sources := v.sources,
                    dirty := v.dirty, flight := v.flight)
    ensures s.dirty <= v.dirty && s.flight <= v.flight
  {
    match m
    case SetSource(n, o) => s.(sources := s.sources[n := o], flight := s.flight + multiset{Arrived(SecretChanged(n))})
    case DropSource(n) => s.(sources := s.sources - {n}, flight := s.flight + multiset{Arrived(SecretChanged(n))})
    case SetConfig(config) => s.(config := config, flight := s.flight + multiset{Arrived(ConfigChanged)})
    case Create(c, purposes) => s.(clusters := s.clusters[c := purposes], dirty := Queued(s, c))
    case SetPurposes(c, purposes) => s.(clusters := s.clusters[c := purposes], dirty := Queued(s, c))
    case Remove(c) => s.(clusters := s.clusters - {c}, dirty := Queued(s, c))
    case Touch(c) => s.(dirty := s.dirty + {c})
    case Ignore(c) => s.(ignored := s.ignored + {c})
    case Heed(c) => s.(ignored := s.ignored - {c}, dirty := s.dirty + {c})
  }

  ghost function ByProgram(service: Service, s: State, m: Move): (v: State)
    requires !IsUsers(m) && Enabled(service, s, m)
    ensures v.config == s.config && v.clusters == s.clusters && v.ignored == s.ignored && v.sources == s.sources
  {
    match m
    case Check(n) =>
      s.(flight := Replace(s.flight, Arrived(SecretChanged(n)),
                           if n in Referenced(s.config, Some(service)) then multiset{Relevant} else multiset{}))
    case List(h) => s.(flight := Replace(s.flight, h, Requests(s.known)))
    case Enqueue(h, c) => s.(flight := Replace(s.flight, h, Requests(h.requests - {c})), dirty := s.dirty + {c})
    case Take(c) => s.(dirty := s.dirty - {c}, worker := Began(c))
    case ReadCluster =>
      var c := s.worker.cluster;
      if c !in s.clusters then s.(known := s.known - {c}, worker := Idle)
      else s.(worker := if c in s.ignored then Idle else Found(c, s.clusters[c]))
    case ReadConfig => s.(worker := Configured(s.worker.cluster, s.worker.purposes, s.config))
    case Register => s.(known := s.known + {s.worker.cluster}, worker := Copying(s.worker.cluster, s.worker.config, {}))
    case Forget => s.(known := s.known - {s.worker.cluster}, worker := Idle)
    case ReadSource(slot) =>
      s.(worker := Holding(s.worker.cluster, s.worker.config, s.worker.done, slot, s.sources[slot.source]))
    case WriteCopy =>
      s.(copies := s.copies[PlaceOf(s.worker.config, service, s.worker.cluster, s.worker.slot) := s.worker.content],
         worker := Copying(s.worker.cluster, s.worker.config, s.worker.done + {s.worker.slot}))
    case Finish =>
      s.(copies := Pruned(s.worker.config, service, s.worker.cluster, s.copies),
         used := s.used[s.worker.cluster := s.worker.config], worker := Idle)
    case Fail => s.(retry := s.retry + {s.worker.cluster}, worker := Idle)
    case Wake(c) => s.(retry := s.retry - {c}, dirty := s.dirty + {c})
    case Restart =>
      s.(known := {}, dirty := s.clusters.Keys - s.ignored, retry := {}, flight := multiset{}, worker := Idle)
  }

  // ---------------------------------------------------------------- the invariant

  /** The Cluster is marked dirty, or about to be. */
  ghost predicate Marked(s: State, c: NamespacedName) {
    c in s.dirty || exists h :: h in s.flight && h.Listed? && c in h.requests
  }

  /** A handler is going to list the known Clusters. */
  ghost predicate Listing(s: State) { exists h :: h in s.flight && Lists(h) }

  /** The Cluster is marked dirty, or will be. */
  ghost predicate Covered(s: State, c: NamespacedName) { Marked(s, c) || (c in s.known && Listing(s)) }

  /** An event about the secret has arrived and was not looked at yet. */
  predicate Announced(s: State, n: string) { Arrived(SecretChanged(n)) in s.flight }

  predicate Busy(s: State, c: NamespacedName) { !s.worker.Idle? && s.worker.cluster == c }

  /** The Cluster exists, is not being deleted, and does not carry the ignore annotation. */
  predicate Served(s: State, c: NamespacedName) { c in s.clusters && c !in s.ignored }

  /** The copy of a slot is what its source is now. */
  predicate Current(service: Service, s: State, c: NamespacedName, config: Config, slot: Slot)
    requires InPlan(config, service, c, slot)
  {
    && slot.source in s.sources
    && PlaceOf(config, service, c, slot) in s.copies
    && s.copies[PlaceOf(config, service, c, slot)] == s.sources[slot.source]
  }

  /** The copy of a slot is current, or its source's change is announced. */
  predicate Good(service: Service, s: State, c: NamespacedName, config: Config, slot: Slot)
    requires InPlan(config, service, c, slot)
  {
    Current(service, s, c, config, slot) || Announced(s, slot.source)
  }

  /** The copies done so far are good. */
  ghost predicate Fresh(service: Service, s: State, c: NamespacedName, config: Config, done: set<Slot>) {
    forall slot :: slot in done && InPlan(config, service, c, slot) ==> Good(service, s, c, config, slot)
  }

  /** The Cluster has no copies but those that are planned. */
  ghost predicate OnlyPlanned(service: Service, s: State, c: NamespacedName) {
    forall place :: place in s.copies && place.cluster == c ==> Planned(s.config, service, c, place)
  }

  /** All planned copies are good. */
  ghost predicate AllFresh(service: Service, s: State, c: NamespacedName, config: Config) {
    forall slot :: InPlan(config, service, c, slot) ==> Good(service, s, c, config, slot)
  }

  /** What the worker has done for the Cluster so far is up to date. */
  ghost predicate UpToDate(service: Service, s: State, c: NamespacedName)
    requires c in s.clusters
  {
    match s.worker
    case Idle => false
    case Began(_) => true
    case Found(_, purposes) => purposes == s.clusters[c]
    case Configured(_, purposes, _) => purposes == s.clusters[c]
    case Copying(_, config, done) => InForce(s, c, config) && Fresh(service, s, c, config, done)
    case Holding(_, config, done, slot, content) =>
      && InForce(s, c, config) && Fresh(service, s, c, config, done)
      && ((slot.source in s.sources && content == s.sources[slot.source]) || Announced(s, slot.source))
  }

  /** A registered Cluster is provided for with the current configuration, which applies to it. */
  predicate InForce(s: State, c: NamespacedName, config: Config)
    requires c in s.clusters
  {
    config == s.config && Matched(config, s.clusters[c]) && c in s.known
  }

  /**
  Nothing is left to do: if the configuration applies to the Cluster, its copies are good, and otherwise it is
  forgotten.
   */
  ghost predicate Rests(service: Service, s: State, c: NamespacedName)
    requires c in s.clusters
  {
    if Matched(s.config, s.clusters[c])
    then c in s.used && InForce(s, c, s.used[c]) && AllFresh(service, s, c, s.config) && OnlyPlanned(service, s, c)
    else c !in s.known
  }

  /** What holds of every Cluster that is to be served: it is attended to, or nothing is left to do. */
  ghost predicate Safe(service: Service, s: State, c: NamespacedName)
    requires c in s.clusters
  {
    || Covered(s, c) || c in s.retry
    || (if Busy(s, c) then UpToDate(service, s, c) else Rests(service, s, c))
  }

  ghost predicate Shape(service: Service, s: State) {
    && Distinct(s.config, service)
    && (s.worker.Holding? ==>
          InPlan(s.worker.config, service, s.worker.cluster, s.worker.slot) && s.worker.slot !in s.worker.done)
  }

  /** The invariant as far as one Cluster is concerned. */
  ghost predicate InvFor(service: Service, s: State, c: NamespacedName) {
    Shape(service, s) && (Served(s, c) ==> Safe(service, s, c))
  }

  ghost predicate Inv(service: Service, s: State) { forall c :: InvFor(service, s, c) }

  /**
  The moves after which a Cluster may be lost, and when they are in time. The program reads the configuration before it
  registers or forgets the Cluster; and it looks after known Clusters only when the configuration changes.
   */
  ghost predicate TimelyFor(s: State, m: Move, c: NamespacedName) {
    match m
    case Register =>
      s.worker.Configured? && s.worker.cluster == c && Served(s, c) ==>
        s.worker.config == s.config || Listing(s) || Marked(s, c) || c in s.retry
    case Forget =>
      s.worker.Configured? && s.worker.cluster == c && Served(s, c) ==>
        !Matched(s.config, s.clusters[c]) || Marked(s, c) || c in s.retry
    case SetConfig(config) =>
      Served(s, c) && c !in s.known && !Busy(s, c) && Matched(config, s.clusters[c]) ==> Marked(s, c) || c in s.retry
    case _ => true
  }

  ghost predicate Timely(s: State, m: Move) { forall c :: TimelyFor(s, m, c) }

  // ---------------------------------------------------------------- what each kind of move keeps

  lemma ReplaceKeepsOthers(flight: multiset<Handler>, g: Handler, n: multiset<Handler>)
    ensures forall h :: h in flight && h != g ==> h in Replace(flight, g, n)
    ensures forall h :: h in n ==> h in Replace(flight, g, n)
  {
  }

  predicate Handles(m: Move) { m.List? || m.Enqueue? || m.Check? }

  lemma HandlersStay(service: Service, s: State, m: Move, h: Handler)
    requires Enabled(service, s, m) && h in s.flight && !m.Restart? && !Handles(m)
    ensures h in After(service, s, m).flight
  {
    hide InPlan, PlaceOf, Distinct, Matched;
  }

  lemma DirtyStays(service: Service, s: State, m: Move, c: NamespacedName)
    requires Enabled(service, s, m) && c in s.dirty && !m.Restart? && m != Take(c)
    ensures c in After(service, s, m).dirty
  {
    hide InPlan, PlaceOf, Distinct, Matched;
  }

  lemma RetryStays(service: Service, s: State, m: Move, c: NamespacedName)
    requires Enabled(service, s, m) && c in s.retry && !m.Restart?
    ensures c in After(service, s, m).retry || c in After(service, s, m).dirty
  {
    hide InPlan, PlaceOf, Distinct, Matched;
  }

  lemma ListKeeps(service: Service, s: State, g: Handler, h: Handler)
    requires Enabled(service, s, List(g)) && h in s.flight && h != g
    ensures h in After(service, s, List(g)).flight
  {
    ReplaceKeepsOthers(s.flight, g, Requests(s.known));
  }

  lemma EnqueueKeeps(service: Service, s: State, g: Handler, d: NamespacedName, h: Handler)
    requires Enabled(service, s, Enqueue(g, d)) && h in s.flight && h != g
    ensures h in After(service, s, Enqueue(g, d)).flight
  {
    ReplaceKeepsOthers(s.flight, g, Requests(g.requests - {d}));
  }

  lemma CheckKeeps(service: Service, s: State, n: string, h: Handler)
    requires Enabled(service, s, Check(n)) && h in s.flight && h != Arrived(SecretChanged(n))
    ensures h in After(service, s, Check(n)).flight
  {
    ReplaceKeepsOthers(s.flight, Arrived(SecretChanged(n)),
                       if n in Referenced(s.config, Some(service)) then multiset{Relevant} else multiset{});
  }

  lemma RestOfRequests(service: Service, s: State, g: Handler, d: NamespacedName, c: NamespacedName)
    requires Enabled(service, s, Enqueue(g, d)) && c in g.requests
    ensures Marked(After(service, s, Enqueue(g, d)), c)
  {
    ReplaceKeepsOthers(s.flight, g, Requests(g.requests - {d}));
    if c != d {
      assert c in g.requests - {d};
      assert Listed(g.requests - {d}) in After(service, s, Enqueue(g, d)).flight;
    }
  }

  lemma RequestStays(service: Service, s: State, m: Move, c: NamespacedName, h: Handler)
    requires Enabled(service, s, m) && h in s.flight && h.Listed? && c in h.requests && Handles(m)
    ensures Marked(After(service, s, m), c)
  {
    match m
    case List(g) => ListKeeps(service, s, g, h);
    case Enqueue(g, d) => if h == g { RestOfRequests(service, s, g, d, c); } else { EnqueueKeeps(service, s, g, d, h); }
    case Check(n) => CheckKeeps(service, s, n, h);
    hide Enabled, After;
  }

  /** A mark does not go away before the Cluster is taken. */
  lemma MarkedStays(service: Service, s: State, m: Move, c: NamespacedName)
    requires Enabled(service, s, m) && Marked(s, c) && !m.Restart? && m != Take(c)
    ensures Marked(After(service, s, m), c)
  {
    if c in s.dirty {
      DirtyStays(service, s, m, c);
    } else {
      var h :| h in s.flight && h.Listed? && c in h.requests;
      if Handles(m) { RequestStays(service, s, m, c, h); } else { HandlersStay(service, s, m, h); }
    }
  }

  /** A handler that will list the known Clusters stays until it has done so. */
  lemma ListingStays(service: Service, s: State, m: Move, c: NamespacedName)
    requires Enabled(service, s, m) && Listing(s) && !m.Restart?
    ensures Listing(After(service, s, m)) || (m.List? && (c in s.known ==> Marked(After(service, s, m), c)))
  {
    var h :| h in s.flight && Lists(h);
    match m {
      case List(g) => if c in s.known { KnownAreListed(service, s, g, c); }
      case Enqueue(g, d) => NeverEnqueued(service, s, g, d, h); EnqueueKeeps(service, s, g, d, h);
      case Check(n) => CheckKeeps(service, s, n, h);
      case _ => HandlersStay(service, s, m, h);
    }
    hide Enabled, After;
  }

  lemma NeverEnqueued(service: Service, s: State, g: Handler, d: NamespacedName, h: Handler)
    requires Enabled(service, s, Enqueue(g, d)) && Lists(h)
    ensures h != g
  {
  }

  lemma KnownAreListed(service: Service, s: State, g: Handler, c: NamespacedName)
    requires Enabled(service, s, List(g)) && c in s.known
    ensures Marked(After(service, s, List(g)), c)
  {
    ReplaceKeepsOthers(s.flight, g, Requests(s.known));
    assert Listed(s.known) in After(service, s, List(g)).flight;
  }

  /** Marks and handlers do not go away without marking the Cluster, unless it is taken or forgotten. */
  lemma CoveredStays(service: Service, s: State, m: Move, c: NamespacedName)
    requires Enabled(service, s, m) && Covered(s, c) && !m.Restart? && m != Take(c)
    ensures Covered(After(service, s, m), c) || (c in s.known && c !in After(service, s, m).known && !Marked(s, c))
  {
    hide Enabled, After, Marked, Listing;
    if Marked(s, c) {
      MarkedStays(service, s, m, c);
    } else {
      ListingStays(service, s, m, c);
    }
  }

  lemma AnnouncedStays(service: Service, s: State, m: Move, n: string)
    requires Enabled(service, s, m) && Announced(s, n) && !m.Restart?
    ensures m == Check(n) || Announced(After(service, s, m), n)
  {
    var h := Arrived(SecretChanged(n));
    match m {
      case List(g) => NotThisHandler(service, s, m, g, n); ListKeeps(service, s, g, h);
      case Enqueue(g, d) => NotThisHandler(service, s, m, g, n); EnqueueKeeps(service, s, g, d, h);
      case Check(k) => if k != n { CheckKeeps(service, s, k, h); }
      case _ => HandlersStay(service, s, m, h);
    }
    hide Enabled, After;
  }

  lemma NotThisHandler(service: Service, s: State, m: Move, g: Handler, n: string)
    requires Enabled(service, s, m) && (m.List? || m.Enqueue?) && m.handler == g
    ensures g != Arrived(SecretChanged(n))
  {
    hide InPlan, PlaceOf, Distinct, Matched;
  }

  /** An event about a secret that the current configuration copies is not dropped. */
  lemma CheckCovers(service: Service, s: State, n: string, c: NamespacedName, slot: Slot)
    requires Enabled(service, s, Check(n)) && InPlan(s.config, service, c, slot) && slot.source == n
    ensures Listing(After(service, s, Check(n)))
  {
    WatchIndexAgrees(s.config, service, c);
    assert n in Referenced(s.config, Some(service));
    assert Relevant in After(service, s, Check(n)).flight && Lists(Relevant);
  }

  /** Neither a change of the configuration nor a write of the worker, nor a pruning for another configuration. */
  predicate LeavesCopies(m: Move, s: State, c: NamespacedName) {
    !m.Restart? && !m.WriteCopy? && !m.SetConfig?
    && (m.Finish? && Busy(s, c) && s.worker.Copying? ==> s.worker.config == s.config)
  }

  lemma CurrentStays(service: Service, s: State, m: Move, c: NamespacedName, slot: Slot)
    requires Enabled(service, s, m) && LeavesCopies(m, s, c) && InPlan(s.config, service, c, slot)
    requires Current(service, s, c, s.config, slot)
    ensures Good(service, After(service, s, m), c, s.config, slot)
  {
    hide Distinct, Matched, InPlan, ByProgram, Pruned, Planned;
    if IsUsers(m) {
      if m.SetSource? || m.DropSource? { assert Arrived(SecretChanged(m.name)) in After(service, s, m).flight; }
    } else {
      OnlyPruningTakesCopies(service, s, m);
      if m.Finish? { PlannedIsKept(s.config, service, c, slot, s.worker.config, s.worker.cluster, s.copies); }
    }
  }

  lemma OnlyPruningTakesCopies(service: Service, s: State, m: Move)
    requires Enabled(service, s, m) && !IsUsers(m) && !m.WriteCopy?
    ensures After(service, s, m).copies == if m.Finish? then Pruned(s.worker.config, service, s.worker.cluster,
                                                                    s.copies) else s.copies
  {
    hide Distinct, Matched, InPlan, PlaceOf, Requests, Replace, Referenced, Pruned;
  }
  /** Pruning for other Clusters or for this configuration leaves a planned copy where it is. */
  lemma PlannedIsKept(config: Config, service: Service, c: NamespacedName, slot: Slot, other: Config, d: NamespacedName,
                      copies: map<Place, Body>)
    requires InPlan(config, service, c, slot) && (d == c ==> other == config)
    ensures var place, left := PlaceOf(config, service, c, slot), Pruned(other, service, d, copies);
            place in copies ==> place in left && left[place] == copies[place]
  {
    assert Planned(config, service, c, PlaceOf(config, service, c, slot));
  }

  /** A good copy stays good, or the handlers will list the known Clusters. */
  lemma SlotStays(service: Service, s: State, m: Move, c: NamespacedName, slot: Slot)
    requires Enabled(service, s, m) && LeavesCopies(m, s, c) && InPlan(s.config, service, c, slot)
    requires Good(service, s, c, s.config, slot)
    ensures Listing(After(service, s, m)) || Good(service, After(service, s, m), c, s.config, slot)
  {
    hide Enabled, After, Listing, Current, Announced;
    if Announced(s, slot.source) {
      AnnouncedStays(service, s, m, slot.source);
      if m == Check(slot.source) { CheckCovers(service, s, slot.source, c, slot); }
    } else {
      CurrentStays(service, s, m, c, slot);
    }
  }

  /** A changed configuration makes the handlers list the known Clusters. */
  lemma ConfigCovers(service: Service, s: State, config: Config)
    requires Enabled(service, s, SetConfig(config))
    ensures Listing(After(service, s, SetConfig(config)))
  {
    assert Arrived(ConfigChanged) in After(service, s, SetConfig(config)).flight && Lists(Arrived(ConfigChanged));
  }

  /** Writing one copy leaves the other copies of the same plan, and those of other Clusters, alone. */
  lemma WriteSparesOthers(service: Service, s: State, c: NamespacedName, slot: Slot)
    requires Enabled(service, s, WriteCopy) && Distinct(s.config, service)
    requires s.worker.config == s.config || s.worker.cluster != c
    requires InPlan(s.config, service, c, slot) && (s.worker.cluster != c || slot != s.worker.slot)
    requires Good(service, s, c, s.config, slot)
    ensures Good(service, After(service, s, WriteCopy), c, s.config, slot)
  {
  }

  /** A Cluster that stays as it is: the move is not about its purposes, its annotation or its existence. */
  predicate SameCluster(s: State, v: State, c: NamespacedName) {
    Served(s, c) && Served(v, c) && v.clusters[c] == s.clusters[c]
  }

  lemma OnlyFewMovesChangeClusters(service: Service, s: State, m: Move, c: NamespacedName)
    requires Enabled(service, s, m) && Served(After(service, s, m), c)
    ensures SameCluster(s, After(service, s, m), c) || c in After(service, s, m).dirty
    ensures m.Restart? ==> c in After(service, s, m).dirty
  {
    hide Enabled, After, SameCluster, Served;
    if IsUsers(m) { UsersMarkClusters(service, s, m, c); } else { ProgramLeavesClusters(service, s, m, c); }
  }

  lemma UsersMarkClusters(service: Service, s: State, m: Move, c: NamespacedName)
    requires Enabled(service, s, m) && Served(After(service, s, m), c) && IsUsers(m)
    ensures SameCluster(s, After(service, s, m), c) || c in After(service, s, m).dirty
  {
    hide ByProgram, Distinct;
  }

  lemma ProgramLeavesClusters(service: Service, s: State, m: Move, c: NamespacedName)
    requires Enabled(service, s, m) && Served(After(service, s, m), c) && !IsUsers(m)
    ensures SameCluster(s, After(service, s, m), c) && (m.Restart? ==> c in After(service, s, m).dirty)
  {
    hide ByUsers, InPlan, PlaceOf, Distinct, Matched, Requests, Replace, Referenced, Pruned;
  }

  lemma KnownStays(service: Service, s: State, m: Move, c: NamespacedName)
    requires Enabled(service, s, m) && !m.Restart? && (Busy(s, c) ==> !m.Forget? && !m.ReadCluster?)
    ensures c in s.known ==> c in After(service, s, m).known
    ensures c !in s.known && !(Busy(s, c) && m.Register?) ==> c !in After(service, s, m).known
  {
    hide InPlan, PlaceOf, Distinct, Matched;
  }

  /** A resting Cluster to which the configuration applies. */
  lemma MatchedRests(service: Service, s: State, m: Move, c: NamespacedName)
    requires Enabled(service, s, m) && InvFor(service, s, c) && SameCluster(s, After(service, s, m), c) && !Busy(s, c)
    requires Rests(service, s, c) && Matched(s.config, s.clusters[c]) && !m.Restart? && !m.SetConfig?
    ensures var v := After(service, s, m);
            && v.config == s.config && c in v.known && c in v.used && v.used[c] == s.config
               && OnlyPlanned(service, v, c)
            && (Listing(v) || AllFresh(service, v, c, v.config))
  {
    var v := After(service, s, m);
    KnownStays(service, s, m, c);
    UsedStays(service, s, m, c);
    PlacesStay(service, s, m, c);
    hide Enabled, After, PlaceOf, Listing, Good, OnlyPlanned;
    if !Listing(v) {
      forall slot | InPlan(s.config, service, c, slot) ensures Good(service, v, c, s.config, slot) {
        if m.WriteCopy? { OthersStayGood(service, s, c, slot); } else { SlotStays(service, s, m, c, slot); }
      }
    }
  }

  /** What is done for others neither adds copies to a Cluster's nor changes its plan. */
  lemma PlacesStay(service: Service, s: State, m: Move, c: NamespacedName)
    requires Enabled(service, s, m) && !Busy(s, c) && !m.SetConfig? && OnlyPlanned(service, s, c)
    ensures OnlyPlanned(service, After(service, s, m), c)
  {
    ConfigStays(service, s, m);
    hide InPlan, Distinct, Matched, Requests, Replace, Referenced, Planned;
  }

  lemma UsedStays(service: Service, s: State, m: Move, c: NamespacedName)
    requires Enabled(service, s, m) && !Busy(s, c) && !m.SetConfig?
    ensures var v := After(service, s, m);
            && v.config == s.config && (c in v.used <==> c in s.used)
            && (c in s.used ==> v.used[c] == s.used[c])
  {
    ConfigStays(service, s, m);
    hide InPlan, PlaceOf, Distinct, Matched, Requests, Replace, Referenced, Pruned, ByUsers;
  }

  lemma OthersStayGood(service: Service, s: State, c: NamespacedName, slot: Slot)
    requires Enabled(service, s, WriteCopy) && Distinct(s.config, service) && !Busy(s, c)
    requires InPlan(s.config, service, c, slot) && Good(service, s, c, s.config, slot)
    ensures Good(service, After(service, s, WriteCopy), c, s.config, slot)
  {
    WriteSparesOthers(service, s, c, slot);
    hide Good, After;
  }

  /** A Cluster with which nothing is left to do, when a move comes that is not about it. */
  lemma RestingStaysSafe(service: Service, s: State, m: Move, c: NamespacedName)
    requires Enabled(service, s, m) && InvFor(service, s, c) && SameCluster(s, After(service, s, m), c) && !Busy(s, c)
    requires Rests(service, s, c) && !m.Restart? && TimelyFor(s, m, c) && !Covered(s, c) && c !in s.retry
    ensures Safe(service, After(service, s, m), c)
  {
    hide After, Enabled, AllFresh, OnlyPlanned, Matched, Listing, Marked, TimelyFor;
    if m.SetConfig? {
      ConfigFindsResting(service, s, m.config, c);
    } else if Matched(s.config, s.clusters[c]) {
      MatchedRests(service, s, m, c);
      RestersAreNotTaken(service, s, m, c);
    } else {
      KnownStays(service, s, m, c);
      RestersAreNotTaken(service, s, m, c);
    }
  }

  lemma ConfigFindsResting(service: Service, s: State, config: Config, c: NamespacedName)
    requires Enabled(service, s, SetConfig(config)) && TimelyFor(s, SetConfig(config), c) && Served(s, c) && !Busy(s, c)
    requires !Covered(s, c) && c !in s.retry
    ensures Safe(service, After(service, s, SetConfig(config)), c)
  {
    ConfigCovers(service, s, config);
    hide InPlan, PlaceOf, Distinct, Matched, Listing, Marked;
  }

  lemma RestersAreNotTaken(service: Service, s: State, m: Move, c: NamespacedName)
    requires Enabled(service, s, m) && !Busy(s, c) && !m.Restart? && !m.SetConfig?
    ensures var v := After(service, s, m); m == Take(c) || (!Busy(v, c) && v.config == s.config)
    ensures m == Take(c) ==> c in s.dirty && Marked(s, c)
  {
    hide InPlan, PlaceOf, Distinct, Matched, Requests, Replace, Referenced, Pruned, ByUsers;
    ConfigStays(service, s, m);
  }

  /** Copies in progress for a Cluster. */
  lemma CopiesStayGood(service: Service, s: State, m: Move, c: NamespacedName, done: set<Slot>)
    requires Enabled(service, s, m) && InvFor(service, s, c) && Busy(s, c) && !m.Restart? && !m.SetConfig?
    requires (s.worker.Copying? || s.worker.Holding?) && s.worker.config == s.config && done == s.worker.done
    requires Fresh(service, s, c, s.config, done)
    ensures Listing(After(service, s, m)) || Fresh(service, After(service, s, m), c, s.config, done)
  {
    var v := After(service, s, m);
    if !Listing(v) {
      forall slot | slot in done && InPlan(s.config, service, c, slot) ensures Good(service, v, c, s.config, slot) {
        if m.WriteCopy? { WriteSparesOthers(service, s, c, slot); } else { SlotStays(service, s, m, c, slot); }
      }
    }
  }

  /**
  What the worker holds is still the source's content, or the source is announced; once written it is a good copy.
   */
  lemma HeldStays(service: Service, s: State, m: Move, c: NamespacedName)
    requires Enabled(service, s, m) && InvFor(service, s, c) && s.worker.Holding? && s.worker.cluster == c
             && s.worker.config == s.config
    requires (s.worker.slot.source in s.sources && s.worker.content == s.sources[s.worker.slot.source])
             || Announced(s, s.worker.slot.source)
    requires !m.Restart? && !m.SetConfig? && !Listing(After(service, s, m))
    ensures var v, slot := After(service, s, m), s.worker.slot;
            || (slot.source in v.sources && s.worker.content == v.sources[slot.source])
            || Announced(v, slot.source)
    ensures m.WriteCopy? ==> Good(service, After(service, s, m), c, s.config, s.worker.slot)
  {
    var v, slot := After(service, s, m), s.worker.slot;
    if Announced(s, slot.source) {
      AnnouncedStays(service, s, m, slot.source);
      if m == Check(slot.source) { CheckCovers(service, s, slot.source, c, slot); }
    }
    if m.SetSource? || m.DropSource? {
      assert Arrived(SecretChanged(m.name)) in v.flight;
    }
  }

  /** A Cluster whose copies are being made. */
  lemma CopyingStaysSafe(service: Service, s: State, m: Move, c: NamespacedName)
    requires Enabled(service, s, m) && InvFor(service, s, c) && SameCluster(s, After(service, s, m), c) && Busy(s, c)
    requires (s.worker.Copying? || s.worker.Holding?) && UpToDate(service, s, c) && !m.Restart?
    ensures Safe(service, After(service, s, m), c)
  {
    var v := After(service, s, m);
    KnownStays(service, s, m, c);
    if m.SetConfig? {
      ConfigCovers(service, s, m.config);
    } else if !Listing(v) {
      CopiesStayGood(service, s, m, c, s.worker.done);
      if s.worker.Holding? { HeldStays(service, s, m, c); }
      WorkGoesOn(service, s, m, c);
    }
  }

  /** The next stage of a copy run whose results so far are good. */
  lemma WorkGoesOn(service: Service, s: State, m: Move, c: NamespacedName)
    requires Enabled(service, s, m) && SameCluster(s, After(service, s, m), c) && Busy(s, c) && !m.Restart?
             && !m.SetConfig?
    requires (s.worker.Copying? || s.worker.Holding?) && InForce(s, c, s.worker.config)
             && c in After(service, s, m).known
    requires Fresh(service, After(service, s, m), c, s.config, s.worker.done)
    requires s.worker.Holding? ==>
               || (s.worker.slot.source in After(service, s, m).sources
                   && s.worker.content == After(service, s, m).sources[s.worker.slot.source])
               || Announced(After(service, s, m), s.worker.slot.source)
    requires s.worker.Holding? && m.WriteCopy? ==> Good(service, After(service, s, m), c, s.config, s.worker.slot)
    ensures Safe(service, After(service, s, m), c)
  {
    hide Marked, Listing, Matched, Good, PlaceOf, Distinct, Requests, Replace, Referenced, Pruned, ByUsers;
    ConfigStays(service, s, m);
    if !IsUsers(m) { WorkersMove(service, s, m, c); }
    hide InPlan, ByProgram, Enabled;
  }

  lemma ConfigStays(service: Service, s: State, m: Move)
    requires Enabled(service, s, m) && !m.SetConfig?
    ensures After(service, s, m).config == s.config
  {
    hide InPlan, PlaceOf, Distinct, Matched, Requests, Replace, Referenced, Pruned, ByProgram;
  }

  /** The next stage of a copy run. */
  lemma WorkersMove(service: Service, s: State, m: Move, c: NamespacedName)
    requires Enabled(service, s, m) && Busy(s, c) && !m.Restart? && (s.worker.Copying? || s.worker.Holding?)
             && !IsUsers(m)
    ensures var v := After(service, s, m);
            || v.worker == s.worker
            || (m.Fail? && c in v.retry)
            || (m.Finish? && s.worker.Copying? && v.worker.Idle? && v.used == s.used[c := s.worker.config]
                && (forall slot :: InPlan(s.worker.config, service, c, slot) ==> slot in s.worker.done)
                && forall place :: place in v.copies && place.cluster == c ==>
                     Planned(s.worker.config, service, c, place))
            || (m.WriteCopy? && s.worker.Holding?
                && v.worker == Copying(c, s.worker.config, s.worker.done + {s.worker.slot}))
            || (m.ReadSource? && s.worker.Copying? && v.worker.Holding? && v.worker.cluster == c
                && v.worker.config == s.worker.config
                && v.worker.done == s.worker.done && v.worker.slot.source in v.sources
                   && v.worker.content == v.sources[v.worker.slot.source])
  {
    hide Matched, PlaceOf, Distinct, Requests, Replace, Referenced, ByUsers, InPlan;
  }

  /** A Cluster whose reconcile has not come as far as that. */
  lemma EarlyStaysSafe(service: Service, s: State, m: Move, c: NamespacedName)
    requires Enabled(service, s, m) && InvFor(service, s, c) && SameCluster(s, After(service, s, m), c) && Busy(s, c)
    requires (s.worker.Began? || s.worker.Found? || s.worker.Configured?) && UpToDate(service, s, c) && !m.Restart?
             && TimelyFor(s, m, c)
    ensures Safe(service, After(service, s, m), c)
  {
    if m.Register? {
      RegisteredIsSafe(service, s, c);
    } else if m.Forget? {
      GivenUpIsSafe(service, s, c);
    } else {
      EarlierStages(service, s, m, c);
    }
    hide Enabled, After, Safe;
  }

  lemma RegisteredIsSafe(service: Service, s: State, c: NamespacedName)
    requires Enabled(service, s, Register) && Busy(s, c) && Served(s, c) && UpToDate(service, s, c)
             && TimelyFor(s, Register, c)
    ensures Safe(service, After(service, s, Register), c)
  {
    hide InPlan, PlaceOf, Distinct, Matched, Marked, Listing;
    if Marked(s, c) { MarkedStays(service, s, Register, c); }
    if Listing(s) { ListingStays(service, s, Register, c); }
  }

  lemma GivenUpIsSafe(service: Service, s: State, c: NamespacedName)
    requires Enabled(service, s, Forget) && Busy(s, c) && Served(s, c) && TimelyFor(s, Forget, c)
    ensures Safe(service, After(service, s, Forget), c)
  {
    hide InPlan, PlaceOf, Distinct, Matched, Marked, Listing;
    if Marked(s, c) { MarkedStays(service, s, Forget, c); }
  }

  lemma EarlierStages(service: Service, s: State, m: Move, c: NamespacedName)
    requires Enabled(service, s, m) && SameCluster(s, After(service, s, m), c) && Busy(s, c) && !m.Register?
             && !m.Forget? && !m.Restart?
    requires (s.worker.Began? || s.worker.Found? || s.worker.Configured?) && UpToDate(service, s, c)
    ensures Safe(service, After(service, s, m), c)
  {
    hide InPlan, PlaceOf, Distinct, Matched, Marked, Listing, Requests, Replace, Referenced, Pruned, ByUsers;
  }

  /** Registering or forgetting a Cluster that is covered or awaits a retry. */
  lemma CoveredStaysSafe(service: Service, s: State, m: Move, c: NamespacedName)
    requires Enabled(service, s, m) && InvFor(service, s, c) && SameCluster(s, After(service, s, m), c)
    requires Covered(s, c) && !m.Restart? && TimelyFor(s, m, c)
    ensures Safe(service, After(service, s, m), c)
  {
    if m == Take(c) {
      assert Busy(After(service, s, m), c);
    } else {
      CoveredStays(service, s, m, c);
      if c !in After(service, s, m).known && !Marked(s, c) { ForgottenIsSafe(service, s, m, c); }
    }
    hide InPlan, PlaceOf, Distinct, Listing, Marked;
  }

  lemma ForgottenIsSafe(service: Service, s: State, m: Move, c: NamespacedName)
    requires Enabled(service, s, m) && TimelyFor(s, m, c) && SameCluster(s, After(service, s, m), c)
    requires c in s.known && c !in After(service, s, m).known && !m.Restart? && !Marked(s, c)
    ensures Safe(service, After(service, s, m), c)
  {
    hide InPlan, PlaceOf, Distinct, Listing, Marked, Matched;
    match m
    case Forget =>
    case ReadCluster =>
    case _ =>
  }

  lemma ServedStaysSafe(service: Service, s: State, m: Move, c: NamespacedName)
    requires Enabled(service, s, m) && InvFor(service, s, c) && TimelyFor(s, m, c) && !m.Restart?
             && SameCluster(s, After(service, s, m), c)
    ensures Safe(service, After(service, s, m), c)
  {
    hide Enabled, After, TimelyFor, Covered, Rests, UpToDate, Marked, Listing;
    assert Safe(service, s, c);
    if Covered(s, c) {
      CoveredStaysSafe(service, s, m, c);
    } else if c in s.retry {
      RetryStays(service, s, m, c);
      DirtyIsSafe(service, After(service, s, m), c);
    } else if !Busy(s, c) {
      RestingStaysSafe(service, s, m, c);
    } else if s.worker.Copying? || s.worker.Holding? {
      CopyingStaysSafe(service, s, m, c);
    } else {
      EarlyStaysSafe(service, s, m, c);
    }
  }

  lemma DirtyIsSafe(service: Service, s: State, c: NamespacedName)
    requires c in s.clusters && (c in s.dirty || c in s.retry)
    ensures Safe(service, s, c)
  {
  }

  lemma StepKeepsShape(service: Service, s: State, m: Move)
    requires Enabled(service, s, m) && Shape(service, s)
    ensures Shape(service, After(service, s, m))
  {
    hide PlaceOf, Matched, Requests, Replace, Referenced, Pruned;
    if IsUsers(m) { hide ByUsers, InPlan; } else { hide ByUsers, Distinct, InPlan; }
    ConfigStaysDistinct(service, s, m);
  }

  lemma ConfigStaysDistinct(service: Service, s: State, m: Move)
    requires Enabled(service, s, m) && Distinct(s.config, service)
    ensures Distinct(After(service, s, m).config, service)
  {
    hide Distinct, InPlan, PlaceOf, Matched, Requests, Replace, Referenced, Pruned;
  }

  /** A move that is timely for a Cluster keeps the invariant for it, whatever it means for others. */
  lemma StepKeepsInvFor(service: Service, s: State, m: Move, c: NamespacedName)
    requires Enabled(service, s, m) && InvFor(service, s, c) && TimelyFor(s, m, c)
    ensures InvFor(service, After(service, s, m), c)
  {
    StepKeepsShape(service, s, m);
    hide Enabled, After, TimelyFor, Safe, Shape;
    var v := After(service, s, m);
    if Served(v, c) {
      OnlyFewMovesChangeClusters(service, s, m, c);
      if c in v.dirty {
        DirtyIsSafe(service, v, c);
      } else {
        ServedStaysSafe(service, s, m, c);
      }
    }
  }

  /** Every timely move keeps the invariant. */
  lemma StepKeepsInv(service: Service, s: State, m: Move)
    requires Enabled(service, s, m) && Inv(service, s) && Timely(s, m)
    ensures Inv(service, After(service, s, m))
  {
    hide Enabled, After, TimelyFor, InvFor;
    forall c ensures InvFor(service, After(service, s, m), c) {
      StepKeepsInvFor(service, s, m, c);
    }
  }

  // ---------------------------------------------------------------- runs

  ghost predicate Run(service: Service, states: seq<State>, moves: seq<Move>) {
    && |states| == |moves| + 1
    && forall i :: 0 <= i < |moves| ==>
         Enabled(service, states[i], moves[i]) && states[i + 1] == After(service, states[i], moves[i])
  }

  /**
  No lost update, Cluster by Cluster: if every registration and forgetting of a Cluster and every change of the
  configuration is timely for it, then at every point of every run, if it is to be served, it is attended to (dirty,
  about to be marked, being reconciled, or awaiting a retry), or it is as the current configuration and the current
  sources make it: registered with these copies if the configuration applies to it, and forgotten if it does not. What
  happens to others does not matter.
   */
  lemma {:induction false} NoLostUpdateFor(service: Service, states: seq<State>, moves: seq<Move>, c: NamespacedName,
                                           n: nat)
    requires Run(service, states, moves) && InvFor(service, states[0], c) && n < |states|
    requires forall i :: 0 <= i < |moves| ==> TimelyFor(states[i], moves[i], c)
    ensures InvFor(service, states[n], c)
  {
    hide InvFor, TimelyFor, Enabled, After;
    if n > 0 {
      NoLostUpdateFor(service, states, moves, c, n - 1);
      StepKeepsInvFor(service, states[n - 1], moves[n - 1], c);
      assert states[n - 1 + 1] == After(service, states[n - 1], moves[n - 1]);
    }
  }

  /** The same for all Clusters at once. */
  lemma NoLostUpdate(service: Service, states: seq<State>, moves: seq<Move>, n: nat)
    requires Run(service, states, moves) && Inv(service, states[0]) && n < |states|
    requires forall i :: 0 <= i < |moves| ==> Timely(states[i], moves[i])
    ensures Inv(service, states[n])
  {
    hide InvFor, TimelyFor, Run;
    forall c ensures InvFor(service, states[n], c) {
      NoLostUpdateFor(service, states, moves, c, n);
    }
  }

  // ---------------------------------------------------------------- what is never lost

  /** The worker is with the Cluster, has read the configuration for it, and has not acted upon it yet. */
  predicate Choosing(s: State, c: NamespacedName) { s.worker.Configured? && s.worker.cluster == c }

  /** What the worker has read about the Cluster is how things are, or the Cluster is marked again. */
  ghost predicate AbreastFor(s: State, c: NamespacedName) {
    && (Choosing(s, c) ==> s.worker.config == s.config)
    && ((s.worker.Found? || s.worker.Configured?) && s.worker.cluster == c && Served(s, c) ==>
          s.worker.purposes == s.clusters[c] || Marked(s, c))
  }

  lemma AbreastIsTimely(service: Service, s: State, m: Move, c: NamespacedName)
    requires Enabled(service, s, m) && AbreastFor(s, c) && !m.SetConfig?
    ensures TimelyFor(s, m, c)
  {
    hide InPlan, PlaceOf, Distinct, Matched, Marked, Listing;
  }

  lemma UsersLeaveWorker(service: Service, s: State, m: Move)
    requires Enabled(service, s, m) && IsUsers(m)
    ensures var v := After(service, s, m); v.worker == s.worker && (v.config == s.config || m.SetConfig?)
  {
    hide InPlan, PlaceOf, Distinct, Matched, ByProgram;
  }

  lemma ProgramReads(service: Service, s: State, m: Move, c: NamespacedName)
    requires Enabled(service, s, m) && !IsUsers(m)
    requires var v := After(service, s, m); (v.worker.Found? || v.worker.Configured?) && v.worker.cluster == c
    ensures var v := After(service, s, m);
            && !m.Restart? && !m.Take? && v.worker.cluster == s.worker.cluster
            && if m.ReadCluster? then Served(s, c) && v.worker.Found? && v.worker.purposes == v.clusters[c]
               else if m.ReadConfig? then
                 s.worker.Found? && v.worker.purposes == s.worker.purposes && v.worker.config == v.config
                 && v.clusters == s.clusters
                 && v.ignored == s.ignored && v.dirty == s.dirty && v.flight == s.flight
               else v.worker == s.worker && (v.config == s.config || m.SetConfig?)
  {
    hide InPlan, PlaceOf, Distinct, Matched, Requests, Replace, Referenced, Pruned, ByUsers;
  }

  lemma DirtyIsMarked(s: State, c: NamespacedName)
    ensures c in s.dirty ==> Marked(s, c)
  {
  }

  lemma AbreastKept(service: Service, s: State, m: Move, c: NamespacedName)
    requires Enabled(service, s, m) && AbreastFor(s, c) && (m.SetConfig? ==> !Choosing(s, c))
    ensures AbreastFor(After(service, s, m), c)
  {
    hide Enabled, After, Marked;
    var v := After(service, s, m);
    if (v.worker.Found? || v.worker.Configured?) && v.worker.cluster == c {
      ReadOrRead(service, s, m, c);
      if Served(v, c) { OnlyFewMovesChangeClusters(service, s, m, c); }
      if Marked(s, c) { MarkedStays(service, s, m, c); }
      DirtyIsMarked(v, c);
    }
  }

  /** What the worker knows about a Cluster it has just read, or it knew before. */
  lemma ReadOrRead(service: Service, s: State, m: Move, c: NamespacedName)
    requires Enabled(service, s, m)
    requires var v := After(service, s, m); (v.worker.Found? || v.worker.Configured?) && v.worker.cluster == c
    ensures var v := After(service, s, m);
            && !m.Restart? && !m.Take? && v.worker.cluster == s.worker.cluster
            && if m.ReadCluster? then Served(s, c) && v.worker.Found? && v.worker.purposes == v.clusters[c]
               else if m.ReadConfig? then
                 s.worker.Found? && v.worker.purposes == s.worker.purposes && v.worker.config == v.config
                 && v.clusters == s.clusters
                 && v.ignored == s.ignored && v.dirty == s.dirty && v.flight == s.flight
               else v.worker == s.worker && (v.config == s.config || m.SetConfig?)
  {
    hide Enabled, After;
    if IsUsers(m) { UsersLeaveWorker(service, s, m); } else { ProgramReads(service, s, m, c); }
  }

  /**
  What the program itself does never loses a Cluster: if no change of the configuration hits the Cluster while its
  configuration is being decided upon, or finds it unknown although the new configuration applies to it, then nothing is
  lost for it, whatever else happens: changed secrets, Clusters, purposes and annotations, failures, restarts.
   */
  lemma {:induction false} OnlyConfigChangesLose(service: Service, states: seq<State>, moves: seq<Move>,
                                                 c: NamespacedName, n: nat)
    requires Run(service, states, moves) && InvFor(service, states[0], c) && AbreastFor(states[0], c) && n < |states|
    requires forall i :: 0 <= i < |moves| && moves[i].SetConfig? ==>
               !Choosing(states[i], c) && TimelyFor(states[i], moves[i], c)
    ensures InvFor(service, states[n], c) && AbreastFor(states[n], c)
  {
    hide InvFor, TimelyFor, AbreastFor, Enabled, After;
    if n > 0 {
      OnlyConfigChangesLose(service, states, moves, c, n - 1);
      var s, m := states[n - 1], moves[n - 1];
      if !m.SetConfig? { AbreastIsTimely(service, s, m, c); }
      StepKeepsInvFor(service, s, m, c);
      AbreastKept(service, s, m, c);
      assert states[n - 1 + 1] == After(service, s, m);
    }
  }

  /**
  No change of a secret is ever lost, nor one of a Cluster: from a start of the process on, every run in which the
  configuration does not change keeps the invariant for all Clusters, with no further condition.
   */
  lemma SecretsAreNeverLost(service: Service, states: seq<State>, moves: seq<Move>, n: nat)
    requires Run(service, states, moves) && Started(states[0]) && Distinct(states[0].config, service) && n < |states|
    requires forall i :: 0 <= i < |moves| ==> !moves[i].SetConfig?
    ensures Inv(service, states[n])
  {
    StartIsSafe(service, states[0]);
    hide InvFor, TimelyFor, Run, Distinct;
    forall c ensures InvFor(service, states[n], c) {
      OnlyConfigChangesLose(service, states, moves, c, n);
    }
  }

  /** A fresh start: the process has come up, and all Clusters that are to be served are in the queue. */
  predicate Started(s: State) {
    s.known == {} && s.dirty == s.clusters.Keys - s.ignored && s.retry == {} && s.flight == multiset{} && s.worker.Idle?
  }

  lemma StartIsSafe(service: Service, s: State)
    requires Started(s) && Distinct(s.config, service)
    ensures Inv(service, s)
  {
  }

  /** Nothing is on its way to anybody. */
  predicate Settled(s: State) { s.dirty == {} && s.retry == {} && s.flight == multiset{} && s.worker.Idle? }

  /** What is asked for is there as it is now, on both clusters, and nothing else is. */
  ghost predicate AsAsked(service: Service, s: State, c: NamespacedName) {
    && (forall site, n, t :: (site == Platform || site == Target(c)) && AskedFor(s.config, service, site, n, t) ==>
          n in s.sources && Place(c, site, t) in s.copies && s.copies[Place(c, site, t)] == s.sources[n])
    && (forall site, t :: Place(c, site, t) in s.copies ==>
          (site == Platform || site == Target(c)) && exists n :: AskedFor(s.config, service, site, n, t))
  }

  /**
  When everything has come to rest, exactly the Clusters to which the configuration applies are known, and they have
  exactly the current copies of the current plan: all of them, and no others.
   */
  lemma NothingLost(service: Service, s: State, c: NamespacedName)
    requires InvFor(service, s, c) && Settled(s) && Served(s, c)
    ensures c in s.known <==> exists entry ::
              entry in s.config.purposes
              && (entry.selector.None? || Selectors.Matches(entry.selector.value, s.clusters[c]))
    ensures c in s.known ==> forall slot :: InPlan(s.config, service, c, slot) ==>
              Current(service, s, c, s.config, slot)
    ensures c in s.known ==> OnlyPlanned(service, s, c) && AsAsked(service, s, c)
  {
    hide Distinct, PlaceOf, Current, AsAsked;
    assert Safe(service, s, c);
    if c in s.known { CurrentIsAsAsked(service, s, c); }
  }

  lemma CurrentIsAsAsked(service: Service, s: State, c: NamespacedName)
    requires forall slot :: InPlan(s.config, service, c, slot) ==> Current(service, s, c, s.config, slot)
    requires OnlyPlanned(service, s, c)
    ensures AsAsked(service, s, c)
  {
    hide PlanFor, AskedFor;
    PlansAreAsked(s.config, service, Platform);
    PlansAreAsked(s.config, service, Target(c));
    forall site, n, t | (site == Platform || site == Target(c)) && AskedFor(s.config, service, site, n, t)
      ensures n in s.sources && Place(c, site, t) in s.copies && s.copies[Place(c, site, t)] == s.sources[n]
    {
      assert n in PlanFor(s.config, service, site) && PlanFor(s.config, service, site)[n] == t;
      assert Current(service, s, c, s.config, Slot(site, n));
    }
    forall site, t | Place(c, site, t) in s.copies
      ensures (site == Platform || site == Target(c)) && exists n :: AskedFor(s.config, service, site, n, t)
    {
      assert Planned(s.config, service, c, Place(c, site, t));
      var slot :| InPlan(s.config, service, c, slot) && PlaceOf(s.config, service, c, slot) == Place(c, site, t);
      assert AskedFor(s.config, service, site, slot.source, t);
    }
  }

  // ---------------------------------------------------------------- the exact condition

  /**
  The Cluster was, or is being, provided for otherwise than the configuration says, and nothing will bring it back.
   */
  ghost predicate Lost(s: State, c: NamespacedName) {
    && Served(s, c) && c !in s.retry && !Covered(s, c)
    && if Busy(s, c) then (s.worker.Copying? || s.worker.Holding?) && s.worker.config != s.config && c in s.known
       else if Matched(s.config, s.clusters[c]) then c in s.known ==> c in s.used && s.used[c] != s.config
       else c in s.known
  }

  lemma LostIsNotSafe(service: Service, s: State, c: NamespacedName)
    requires Lost(s, c)
    ensures !Safe(service, s, c)
  {
    hide Covered, Matched, Fresh, AllFresh;
  }

  lemma UntimelyRegister(service: Service, s: State, c: NamespacedName)
    requires InvFor(service, s, c) && Enabled(service, s, Register) && !TimelyFor(s, Register, c)
    ensures Lost(After(service, s, Register), c)
  {
  }

  lemma UntimelyForget(service: Service, s: State, c: NamespacedName)
    requires InvFor(service, s, c) && Enabled(service, s, Forget) && !TimelyFor(s, Forget, c)
    ensures Lost(After(service, s, Forget), c)
  {
  }

  lemma UntimelyConfig(service: Service, s: State, config: Config, c: NamespacedName)
    requires InvFor(service, s, c) && Enabled(service, s, SetConfig(config)) && !TimelyFor(s, SetConfig(config), c)
    ensures Lost(After(service, s, SetConfig(config)), c)
  {
    forall h | h in After(service, s, SetConfig(config)).flight && h.Listed? ensures h in s.flight {}
    hide Distinct, Matched;
  }

  lemma UntimelyLoses(service: Service, s: State, m: Move, c: NamespacedName)
    requires InvFor(service, s, c) && Enabled(service, s, m) && !TimelyFor(s, m, c)
    ensures Lost(After(service, s, m), c)
  {
    hide Lost, After, Enabled, InvFor, Served, Marked, Listing, Matched, Busy;
    match m
    case Register => UntimelyRegister(service, s, c);
    case Forget => UntimelyForget(service, s, c);
    case SetConfig(config) => UntimelyConfig(service, s, config, c);
    case _ =>
  }

  /**
  The exact condition: a move keeps the invariant for a Cluster if and only if it is timely for it; one that is not
  loses it.
   */
  lemma TimelyIsExact(service: Service, s: State, m: Move, c: NamespacedName)
    requires InvFor(service, s, c) && Enabled(service, s, m)
    ensures InvFor(service, After(service, s, m), c) <==> TimelyFor(s, m, c)
    ensures !TimelyFor(s, m, c) ==> Lost(After(service, s, m), c)
  {
    hide Lost, After, Enabled, TimelyFor, Safe;
    if TimelyFor(s, m, c) {
      StepKeepsInvFor(service, s, m, c);
    } else {
      UntimelyLoses(service, s, m, c);
      LostIsNotSafe(service, After(service, s, m), c);
      LostIsServed(After(service, s, m), c);
    }
  }

  lemma LostIsServed(s: State, c: NamespacedName)
    requires Lost(s, c)
    ensures Served(s, c)
  {
  }

  /** What the program does by itself, except that it fails while it works on the Cluster. */
  predicate OwnMove(s: State, m: Move, c: NamespacedName) {
    || m.Enqueue? || m.Take? || m.ReadCluster? || m.ReadConfig? || m.Register? || m.Forget? || m.ReadSource?
       || m.WriteCopy? || m.Finish?
    || m.Wake? || (m.Fail? && !Busy(s, c))
  }

  ghost predicate NothingToHandle(s: State) { forall h :: h in s.flight ==> h.Listed? }

  lemma LostStays(service: Service, s: State, m: Move, c: NamespacedName)
    requires Lost(s, c) && NothingToHandle(s) && Enabled(service, s, m) && OwnMove(s, m, c)
    ensures Lost(After(service, s, m), c) && NothingToHandle(After(service, s, m))
  {
    hide Distinct, Matched, InPlan, PlaceOf, Referenced, Enabled, After;
    NotMarkedAgain(service, s, m, c);
    NothingIsDone(service, s, m, c);
  }

  /** Neither the queue nor the handlers have anything for the Cluster. */
  lemma NotMarkedAgain(service: Service, s: State, m: Move, c: NamespacedName)
    requires !Marked(s, c) && c !in s.retry && NothingToHandle(s) && Enabled(service, s, m) && OwnMove(s, m, c)
    ensures var v := After(service, s, m); !Marked(v, c) && c !in v.retry && NothingToHandle(v)
  {
    if m.Enqueue? { OnlyOldRequests(service, s, m.handler, m.cluster, c); } else { LeavesFlight(service, s, m, c); }
    hide Enabled, After;
  }

  lemma OnlyOldRequests(service: Service, s: State, g: Handler, d: NamespacedName, c: NamespacedName)
    requires Enabled(service, s, Enqueue(g, d)) && !Marked(s, c) && NothingToHandle(s)
    ensures var v := After(service, s, Enqueue(g, d)); !Marked(v, c) && v.retry == s.retry && NothingToHandle(v)
  {
    var v := After(service, s, Enqueue(g, d));
    forall h | h in v.flight ensures h.Listed? && c !in h.requests {
      if h !in s.flight { assert h == Listed(g.requests - {d}) && g in s.flight; }
    }
  }

  lemma LeavesFlight(service: Service, s: State, m: Move, c: NamespacedName)
    requires Enabled(service, s, m) && OwnMove(s, m, c) && !m.Enqueue? && c !in s.dirty && c !in s.retry
    ensures var v := After(service, s, m); v.flight == s.flight && c !in v.dirty && c !in v.retry
  {
    hide ByUsers, Distinct, Matched, InPlan, PlaceOf, Requests, Replace, Referenced, Pruned;
  }

  /** What the worker does is not for the Cluster, or goes on with the outdated configuration. */
  lemma NothingIsDone(service: Service, s: State, m: Move, c: NamespacedName)
    requires Lost(s, c) && Enabled(service, s, m) && OwnMove(s, m, c)
    ensures var v := After(service, s, m);
            && v.config == s.config && v.clusters == s.clusters && v.ignored == s.ignored
            && if Busy(v, c) then (v.worker.Copying? || v.worker.Holding?) && v.worker.config != v.config
               && c in v.known
               else if Matched(v.config, v.clusters[c]) then c in v.known ==> c in v.used && v.used[c] != v.config
               else c in v.known
  {
    hide Enabled, ByUsers, ByProgram, Listing;
    if Busy(s, c) { OldWorkGoesOn(service, s, m, c); } else { OtherWorkGoesOn(service, s, m, c); }
  }

  lemma OldWorkGoesOn(service: Service, s: State, m: Move, c: NamespacedName)
    requires Enabled(service, s, m) && OwnMove(s, m, c) && Busy(s, c) && (s.worker.Copying? || s.worker.Holding?)
    ensures var v := After(service, s, m);
            && v.known == s.known
            && if Busy(v, c) then (v.worker.Copying? || v.worker.Holding?) && v.worker.config == s.worker.config
               else c in v.used && v.used[c] == s.worker.config
  {
    hide ByUsers, Distinct, Matched, InPlan, PlaceOf, Requests, Replace, Referenced, Pruned;
  }

  lemma OtherWorkGoesOn(service: Service, s: State, m: Move, c: NamespacedName)
    requires Enabled(service, s, m) && OwnMove(s, m, c) && !Busy(s, c) && c !in s.dirty
    ensures var v := After(service, s, m);
            && (c in v.known <==> c in s.known) && !Busy(v, c)
            && (c in v.used <==> c in s.used) && (c in s.used ==> v.used[c] == s.used[c])
  {
    hide After, Enabled;
    KnownStays(service, s, m, c);
    UsedStays(service, s, m, c);
    RestersAreNotTaken(service, s, m, c);
  }

  /** A lost Cluster is not found again: whatever the program does by itself, however long, it stays lost. */
  lemma {:induction false} LostForever(service: Service, states: seq<State>, moves: seq<Move>, c: NamespacedName,
                                       n: nat)
    requires Run(service, states, moves) && n < |states| && Lost(states[0], c) && NothingToHandle(states[0])
    requires forall i :: 0 <= i < |moves| ==> OwnMove(states[i], moves[i], c)
    ensures Lost(states[n], c) && NothingToHandle(states[n])
  {
    hide Lost, NothingToHandle, Enabled, After, OwnMove;
    if n > 0 {
      LostForever(service, states, moves, c, n - 1);
      LostStays(service, states[n - 1], moves[n - 1], c);
      assert states[n - 1 + 1] == After(service, states[n - 1], moves[n - 1]);
    }
  }

  // ---------------------------------------------------------------- registered before its configuration is read

  /**
  A Cluster that was known when its configuration was read is covered when that configuration is no longer the current
  one.
   */
  ghost predicate Prior(s: State) {
    s.worker.Configured? ==>
      s.worker.cluster in s.known
      && (s.worker.config == s.config || Covered(s, s.worker.cluster) || s.worker.cluster in s.retry)
  }

  lemma PriorKept(service: Service, s: State, m: Move)
    requires Enabled(service, s, m) && Prior(s) && (m.ReadConfig? ==> s.worker.cluster in s.known)
    ensures Prior(After(service, s, m))
  {
    var v := After(service, s, m);
    if s.worker.Configured? && v.worker.Configured? {
      var c := s.worker.cluster;
      WorkerWaits(service, s, m);
      KnownStays(service, s, m, c);
      if Covered(s, c) { CoveredStays(service, s, m, c); }
      if c in s.retry { RetryStays(service, s, m, c); }
      if m.SetConfig? { ConfigCovers(service, s, m.config); }
    } else {
      hide Covered, Distinct, InPlan, PlaceOf, Matched;
    }
  }

  lemma WorkerWaits(service: Service, s: State, m: Move)
    requires Enabled(service, s, m) && s.worker.Configured? && After(service, s, m).worker.Configured?
    ensures var v := After(service, s, m); v.worker == s.worker && (v.config == s.config || m.SetConfig?)
    ensures !m.Restart? && !m.Forget? && !m.ReadCluster? && !m.Take?
  {
    hide Distinct, InPlan, PlaceOf, Matched;
  }

  lemma PriorIsTimely(service: Service, s: State)
    requires Enabled(service, s, Register) && Prior(s)
    ensures Timely(s, Register)
  {
  }

  /**
  If every Cluster were known when its configuration is read, as it would be if it were registered first, every
  registration would be timely.
   */
  lemma {:induction false} KnownBeforeConfigured(service: Service, states: seq<State>, moves: seq<Move>, n: nat)
    requires Run(service, states, moves) && n < |states| && Prior(states[0])
    requires forall i :: 0 <= i < |moves| && moves[i].ReadConfig? ==> states[i].worker.cluster in states[i].known
    ensures Prior(states[n]) && (n < |moves| && moves[n].Register? ==> Timely(states[n], Register))
  {
    hide Prior, After, Timely;
    if n > 0 {
      KnownBeforeConfigured(service, states, moves, n - 1);
      PriorKept(service, states[n - 1], moves[n - 1]);
      assert states[n - 1 + 1] == After(service, states[n - 1], moves[n - 1]);
    }
    if n < |moves| && moves[n].Register? { PriorIsTimely(service, states[n]); }
  }

  // ---------------------------------------------------------------- runs in which a change is lost

  lemma RunOfSteps(service: Service, states: seq<State>, moves: seq<Move>)
    requires |states| == |moves| + 1
    requires forall i :: 0 <= i < |moves| ==> Steps(service, states[i], moves[i], states[i + 1])
    ensures Run(service, states, moves)
  {
    hide Enabled, After;
    forall i | 0 <= i < |moves|
      ensures Enabled(service, states[i], moves[i]) && states[i + 1] == After(service, states[i], moves[i])
    {
      assert Steps(service, states[i], moves[i], states[i + 1]);
    }
  }

  ghost predicate Steps(service: Service, s: State, m: Move, v: State) {
    Enabled(service, s, m) && v == After(service, s, m)
  }

  /** The stages of a Cluster's first reconcile during which the configuration changes. */
  function Stages(c: NamespacedName, purposes: seq<string>, before: Config, after: Config): seq<State> {
    var s0 := State(before, map[c := purposes], {}, map[], map[], {}, {c}, {}, multiset{}, Idle, map[]);
    var s1 := s0.(dirty := {}, worker := Began(c));
    var s2 := s1.(worker := Found(c, purposes));
    var s3 := s2.(worker := Configured(c, purposes, before));
    var s4 := s3.(config := after, flight := multiset{Arrived(ConfigChanged)});
    var s5 := s4.(flight := multiset{});
    var s6 := s5.(known := {c}, worker := Copying(c, before, {}));
    var s7 := s6.(used := map[c := before], worker := Idle);
    [s0, s1, s2, s3, s4, s5, s6, s7]
  }

  function StageMoves(c: NamespacedName, after: Config): seq<Move> {
    [Take(c), ReadCluster, ReadConfig, SetConfig(after), List(Arrived(ConfigChanged)), Register, Finish]
  }

  lemma FirstStages(service: Service, c: NamespacedName, purposes: seq<string>, before: Config, after: Config)
    requires Distinct(after, service)
    ensures var s, m := Stages(c, purposes, before, after), StageMoves(c, after);
            && Steps(service, s[0], m[0], s[1]) && Steps(service, s[1], m[1], s[2])
            && Steps(service, s[2], m[2], s[3]) && Steps(service, s[3], m[3], s[4])
  {
  }

  lemma LastStages(service: Service, c: NamespacedName, purposes: seq<string>, before: Config, after: Config)
    requires before.secrets.None? && Matched(before, purposes)
    ensures var s, m := Stages(c, purposes, before, after), StageMoves(c, after);
            && Steps(service, s[4], m[4], s[5]) && Steps(service, s[5], m[5], s[6]) && Steps(service, s[6], m[6], s[7])
  {
  }

  /** A change of the configuration during a Cluster's first reconcile is lost. */
  lemma LostUpdate(service: Service, c: NamespacedName, purposes: seq<string>, before: Config, after: Config)
    requires before.secrets.None? && Matched(before, purposes) && Matched(after, purposes)
    requires after != before && Distinct(after, service)
    ensures Started(Stages(c, purposes, before, after)[0])
            && Run(service, Stages(c, purposes, before, after), StageMoves(c, after))
    ensures var last := Stages(c, purposes, before, after)[7];
            Settled(last) && Lost(last, c) && last.used[c] == before && last.config == after
  {
    var s, m := Stages(c, purposes, before, after), StageMoves(c, after);
    FirstStages(service, c, purposes, before, after);
    LastStages(service, c, purposes, before, after);
    hide Steps, Matched, Distinct;
    forall i | 0 <= i < |m| ensures Steps(service, s[i], m[i], s[i + 1]) {
      assert i == 0 || i == 1 || i == 2 || i == 3 || i == 4 || i == 5 || i == 6;
    }
    RunOfSteps(service, s, m);
  }

  /** A Cluster to which no configuration applied, when one is added that does. */
  function LateStages(c: NamespacedName, purposes: seq<string>, before: Config, after: Config): seq<State> {
    var s0 := State(before, map[c := purposes], {}, map[], map[], {}, {c}, {}, multiset{}, Idle, map[]);
    var s1 := s0.(dirty := {}, worker := Began(c));
    var s2 := s1.(worker := Found(c, purposes));
    var s3 := s2.(worker := Configured(c, purposes, before));
    var s4 := s3.(worker := Idle);
    var s5 := s4.(config := after, flight := multiset{Arrived(ConfigChanged)});
    var s6 := s5.(flight := multiset{});
    [s0, s1, s2, s3, s4, s5, s6]
  }

  function LateMoves(c: NamespacedName, after: Config): seq<Move> {
    [Take(c), ReadCluster, ReadConfig, Forget, SetConfig(after), List(Arrived(ConfigChanged))]
  }

  lemma LateSteps(service: Service, c: NamespacedName, purposes: seq<string>, before: Config, after: Config)
    ensures var s, m := LateStages(c, purposes, before, after), LateMoves(c, after);
            Steps(service, s[0], m[0], s[1]) && Steps(service, s[1], m[1], s[2])
  {
    hide Matched, Distinct, InPlan, PlaceOf, Referenced;
  }

  lemma ForgettingStep(service: Service, c: NamespacedName, purposes: seq<string>, before: Config, after: Config)
    requires !Matched(before, purposes)
    ensures var s, m := LateStages(c, purposes, before, after), LateMoves(c, after);
            Steps(service, s[2], m[2], s[3]) && Steps(service, s[3], m[3], s[4])
  {
    hide Matched, Distinct, InPlan, PlaceOf, Referenced;
  }

  lemma LaterSteps(service: Service, c: NamespacedName, purposes: seq<string>, before: Config, after: Config)
    requires Distinct(after, service)
    ensures var s, m := LateStages(c, purposes, before, after), LateMoves(c, after);
            Steps(service, s[4], m[4], s[5]) && Steps(service, s[5], m[5], s[6])
  {
    hide Matched, Distinct, InPlan, PlaceOf, Referenced;
  }

  /** A configuration that newly applies to a Cluster does not reach it: only known Clusters are looked after. */
  lemma LostMatch(service: Service, c: NamespacedName, purposes: seq<string>, before: Config, after: Config)
    requires !Matched(before, purposes) && Matched(after, purposes) && Distinct(after, service)
    ensures Started(LateStages(c, purposes, before, after)[0])
            && Run(service, LateStages(c, purposes, before, after), LateMoves(c, after))
    ensures var last := LateStages(c, purposes, before, after)[6];
            Settled(last) && Lost(last, c) && last.config == after && c !in last.known && last.copies == map[]
  {
    var s, m := LateStages(c, purposes, before, after), LateMoves(c, after);
    LateSteps(service, c, purposes, before, after);
    ForgettingStep(service, c, purposes, before, after);
    LaterSteps(service, c, purposes, before, after);
    hide Steps, Matched, Distinct;
    forall i | 0 <= i < |m| ensures Steps(service, s[i], m[i], s[i + 1]) {
      assert i == 0 || i == 1 || i == 2 || i == 3 || i == 4 || i == 5;
    }
    RunOfSteps(service, s, m);
  }

  /**
  A known Cluster that is being torn down because no configuration applied to it when it was read, when one is added
  that does.
   */
  function TornStages(c: NamespacedName, purposes: seq<string>, before: Config, after: Config): seq<State> {
    var s0 := State(before, map[c := purposes], {}, map[], map[], {c}, {}, {}, multiset{},
                    Configured(c, purposes, before), map[]);
    var s1 := s0.(config := after, flight := multiset{Arrived(ConfigChanged)});
    var s2 := s1.(known := {}, worker := Idle);
    var s3 := s2.(flight := multiset{});
    [s0, s1, s2, s3]
  }

  function TornMoves(after: Config): seq<Move> { [SetConfig(after), Forget, List(Arrived(ConfigChanged))] }

  /** The same race as on registration when a Cluster is forgotten: a configuration that applies again is lost. */
  lemma LostReturn(service: Service, c: NamespacedName, purposes: seq<string>, before: Config, after: Config)
    requires !Matched(before, purposes) && Matched(after, purposes) && Distinct(before, service)
             && Distinct(after, service)
    ensures Inv(service, TornStages(c, purposes, before, after)[0])
            && Run(service, TornStages(c, purposes, before, after), TornMoves(after))
    ensures var last := TornStages(c, purposes, before, after)[3];
            && Settled(last) && Lost(last, c)
            && last.config == after && c !in last.known
  {
    var s, m := TornStages(c, purposes, before, after), TornMoves(after);
    hide Matched, Distinct;
    assert Steps(service, s[0], m[0], s[1]) && Steps(service, s[1], m[1], s[2]) && Steps(service, s[2], m[2], s[3]);
    forall i | 0 <= i < |m| ensures Steps(service, s[i], m[i], s[i + 1]) {
      assert i == 0 || i == 1 || i == 2;
    }
    RunOfSteps(service, s, m);
  }
}
