/**
What a reconcile is to achieve, and what its outcome means: the result passed from phase to phase, the rendered
HelmRelease, settled worlds, what is read and what that decides, and how far a teardown has come.
 */
module Reconciling {
  import opened Options
  import opened Kubernetes
  import opened Protocol
  import opened ApiServers
  import opened CopyPlan
  import opened Mirroring
  import opened Deploying
  import opened Safety
  import opened Settling
  import opened Templating
  import Immunity
  import JsonText
  import Selectors

  datatype Error = ConfigurationProblem | PlatformProblem | TargetProblem | InternalError

  datatype ReconcileResult = ReconcileResult(
    error: Option<Error>,
    requeue: bool,
    providerConfig: Option<Config>,
    platformService: Option<Service>,
    config: Option<PurposeConfig>,
    sourceKind: Option<Kind>,
    accessRequest: Option<Obj>,
    access: bool)
  {
    predicate Stop() { error.Some? || requeue }

    function Fail(e: Error): ReconcileResult { this.(error := Some(e)) }
  }

  const EMPTY_RESULT := ReconcileResult(None, false, None, None, None, None, None, false)

  function InteractionProblem(site: Site): Error {
    if site.Platform? then PlatformProblem else TargetProblem
  }

  /** The keywords in helm values, in the order in which they are replaced. */
  function Keywords(p: Params, c: NamespacedName): seq<Binding> {
    [Binding("provider.namespace", p.providerNamespace),
     Binding("provider.name", p.providerName),
     Binding("environment", p.environment),
     Binding("cluster.namespace", c.namespace),
     Binding("cluster.name", c.name)]
  }

  /** The values of the HelmRelease: the configured ones after the five passes. */
  function Rendered(p: Params, c: NamespacedName, template: string): string { Sequential(template, Keywords(p, c)) }

  function KubeconfigSecret(accessRequest: Obj): string {
    if accessRequest.body.Grant? then accessRequest.body.kubeconfigSecret else ""
  }

  /** The HelmRelease for a Cluster. */
  function ReleaseBody(p: Params, c: NamespacedName, config: PurposeConfig, kind: Kind, accessRequest: Obj): Body {
    Release(kind, c.namespace, DerivedName(c.name), Rendered(p, c, config.values), KubeconfigSecret(accessRequest))
  }

  const KEYWORD_NAMES := {"provider.namespace", "provider.name", "environment", "cluster.namespace", "cluster.name"}

  lemma NamesArePlain()
    ensures AllPlain(KEYWORD_NAMES)
  {
  }

  lemma NamesAreBound(p: Params, c: NamespacedName)
    ensures Bound(Keywords(p, c)) == KEYWORD_NAMES
  {
    hide Bound;
    BoundOfFive(Keywords(p, c));
  }

  /** The five values contain no backslash, as the names of API objects never do. */
  predicate PlainNames(p: Params, c: NamespacedName) {
    Plain(p.providerNamespace) && Plain(p.providerName) && Plain(p.environment) && Plain(c.namespace) && Plain(c.name)
  }

  lemma KeywordsAreCovered(p: Params, c: NamespacedName)
    requires PlainNames(p, c)
    ensures Covered(Keywords(p, c), KEYWORD_NAMES)
  {
  }

  /** b binds exactly the documented keywords, each to what it stands for. */
  predicate Documented(b: seq<Binding>, p: Params, c: NamespacedName) {
    && Bound(b) == {"provider.name", "provider.namespace", "environment", "cluster.name", "cluster.namespace"}
    && ValueOf(b, "provider.name") == p.providerName
    && ValueOf(b, "provider.namespace") == p.providerNamespace
    && ValueOf(b, "environment") == p.environment
    && ValueOf(b, "cluster.name") == c.name
    && ValueOf(b, "cluster.namespace") == c.namespace
  }

  lemma KeywordsAreDocumented(p: Params, c: NamespacedName)
    ensures Documented(Keywords(p, c), p, c)
  {
    var b := Keywords(p, c);
    NamesAreBound(p, c);
    KeywordsDiffer();
    hide Bound;
    assert b[1..][1..] == b[2..] && b[2..][1..] == b[3..] && b[3..][1..] == b[4..];
    assert ValueOf(b, "provider.name") == ValueOf(b[1..], "provider.name");
    assert ValueOf(b, "environment") == ValueOf(b[1..], "environment") == ValueOf(b[2..], "environment");
    assert ValueOf(b, "cluster.namespace") == ValueOf(b[1..], "cluster.namespace")
           == ValueOf(b[2..], "cluster.namespace") == ValueOf(b[3..], "cluster.namespace");
    assert ValueOf(b, "cluster.name") == ValueOf(b[1..], "cluster.name") == ValueOf(b[2..], "cluster.name")
           == ValueOf(b[3..], "cluster.name") == ValueOf(b[4..], "cluster.name");
  }

  lemma KeywordsDiffer()
    ensures |"provider.namespace"| == 18 && |"provider.name"| == 13 && |"environment"| == 11
    ensures |"cluster.namespace"| == 17 && |"cluster.name"| == 12
  {
  }

  /** The simultaneous substitution depends on nothing but the documented meaning of the keywords. */
  lemma DocumentedAgree(template: string, a: seq<Binding>, b: seq<Binding>, p: Params, c: NamespacedName)
    requires Documented(a, p, c) && Documented(b, p, c)
    ensures Simultaneous(template, KEYWORD_NAMES, a) == Simultaneous(template, KEYWORD_NAMES, b)
  {
    hide Bound, ValueOf, Simultaneous;
    ParseTells(template, KEYWORD_NAMES, a);
    ParseTells(template, KEYWORD_NAMES, b);
    FillAgrees(Parse(template, KEYWORD_NAMES), KEYWORD_NAMES, a, b);
  }

  /**
  The values of the HelmRelease are the configured ones with every keyword replaced at once, as documented, and no
  keyword is left, if the template is hazard-free and none of the five names contains a backslash.
   */
  lemma ReleaseValuesAreSubstituted(p: Params, c: NamespacedName, config: PurposeConfig, kind: Kind, accessRequest: Obj,
                                    b: seq<Binding>, n: string)
    requires HazardFree(Parse(config.values, KEYWORD_NAMES), KEYWORD_NAMES)
    requires PlainNames(p, c) && Documented(b, p, c)
    ensures var values := ReleaseBody(p, c, config, kind, accessRequest).values;
            && values == Simultaneous(config.values, KEYWORD_NAMES, b)
            && (n in KEYWORD_NAMES ==> !Contains(values, n))
  {
    NamesArePlain();
    NamesAreBound(p, c);
    KeywordsAreCovered(p, c);
    KeywordsAreDocumented(p, c);
    DocumentedAgree(config.values, Keywords(p, c), b, p, c);
    SequentialIsSimultaneous(config.values, KEYWORD_NAMES, Keywords(p, c));
    if n in KEYWORD_NAMES { NoPlaceholderLeft(config.values, KEYWORD_NAMES, Keywords(p, c), n); }
  }

  /** In plain text each placeholder becomes what its keyword stands for. */
  lemma KeywordInText(p: Params, c: NamespacedName, front: string, end: string)
    requires PlainNames(p, c) && Plain(front) && Plain(end)
    ensures Rendered(p, c, front + ("\\u003c" + "provider.namespace" + "\\u003e") + end)
            == front + p.providerNamespace + end
    ensures Rendered(p, c, front + ("\\u003c" + "provider.name" + "\\u003e") + end) == front + p.providerName + end
    ensures Rendered(p, c, front + ("\\u003c" + "environment" + "\\u003e") + end) == front + p.environment + end
    ensures Rendered(p, c, front + ("\\u003c" + "cluster.namespace" + "\\u003e") + end) == front + c.namespace + end
    ensures Rendered(p, c, front + ("\\u003c" + "cluster.name" + "\\u003e") + end) == front + c.name + end
  {
    hide Sequential, ValueOf, Bound;
    NamesArePlain();
    KeywordsAreCovered(p, c);
    KeywordsAreDocumented(p, c);
    HoleInText(front, "provider.namespace", end, KEYWORD_NAMES, Keywords(p, c));
    HoleInText(front, "provider.name", end, KEYWORD_NAMES, Keywords(p, c));
    HoleInText(front, "environment", end, KEYWORD_NAMES, Keywords(p, c));
    HoleInText(front, "cluster.namespace", end, KEYWORD_NAMES, Keywords(p, c));
    HoleInText(front, "cluster.name", end, KEYWORD_NAMES, Keywords(p, c));
  }

  /** A template that is nothing but a placeholder. */
  lemma EachKeyword(p: Params, c: NamespacedName)
    requires PlainNames(p, c)
    ensures Rendered(p, c, "\\u003c" + "provider.namespace" + "\\u003e") == p.providerNamespace
    ensures Rendered(p, c, "\\u003c" + "provider.name" + "\\u003e") == p.providerName
    ensures Rendered(p, c, "\\u003c" + "environment" + "\\u003e") == p.environment
    ensures Rendered(p, c, "\\u003c" + "cluster.namespace" + "\\u003e") == c.namespace
    ensures Rendered(p, c, "\\u003c" + "cluster.name" + "\\u003e") == c.name
  {
    hide Rendered;
    KeywordInText(p, c, "", "");
    assert forall s: string :: "" + s + "" == s;
  }

  /**
  The values depend on no name whose placeholder is not in the template: for two providers, environments and Clusters
  that agree on the names that are used, a hazard-free template gives the same values.
   */
  lemma OnlyUsedNamesCount(p: Params, c: NamespacedName, q: Params, d: NamespacedName, template: string)
    requires HazardFree(Parse(template, KEYWORD_NAMES), KEYWORD_NAMES) && PlainNames(p, c) && PlainNames(q, d)
    requires Contains(template, "provider.namespace") ==> p.providerNamespace == q.providerNamespace
    requires Contains(template, "provider.name") ==> p.providerName == q.providerName
    requires Contains(template, "environment") ==> p.environment == q.environment
    requires Contains(template, "cluster.namespace") ==> c.namespace == d.namespace
    requires Contains(template, "cluster.name") ==> c.name == d.name
    ensures Rendered(p, c, template) == Rendered(q, d, template)
  {
    hide Sequential, ValueOf, Bound, Contains;
    NamesArePlain();
    KeywordsAreCovered(p, c);
    KeywordsAreCovered(q, d);
    KeywordsAreDocumented(p, c);
    KeywordsAreDocumented(q, d);
    OnlyContainedCount(template, KEYWORD_NAMES, Keywords(p, c), Keywords(q, d));
  }

  const KEYWORD_ORDER := ["provider.namespace", "provider.name", "environment", "cluster.namespace", "cluster.name"]

  lemma OrderOfKeywords()
    ensures Immunity.Names(KEYWORD_ORDER) == KEYWORD_NAMES && Immunity.Distinct(KEYWORD_ORDER)
    ensures forall p, c :: PlainNames(p, c) <==> Immunity.Binds(Keywords(p, c), KEYWORD_ORDER)
  {
    forall i, j | 0 <= i < j < |KEYWORD_ORDER| ensures KEYWORD_ORDER[i] != KEYWORD_ORDER[j] {
      assert KEYWORD_ORDER[0] != KEYWORD_ORDER[1] && KEYWORD_ORDER[3] != KEYWORD_ORDER[4];
      assert |KEYWORD_ORDER[0]| == 18 && |KEYWORD_ORDER[1]| == 13 && |KEYWORD_ORDER[2]| == 11
             && |KEYWORD_ORDER[3]| == 17 && |KEYWORD_ORDER[4]| == 12;
    }
    forall p, c ensures PlainNames(p, c) <==> Immunity.Binds(Keywords(p, c), KEYWORD_ORDER) {
      var b := Keywords(p, c);
      assert b[0].value == p.providerNamespace && b[1].value == p.providerName && b[2].value == p.environment;
      assert b[3].value == c.namespace && b[4].value == c.name;
    }
  }

  /**
  The order of the passes shows where a name has the form of the next keyword's placeholder, as no name of an API object
  does: it is rewritten in its turn.
   */
  lemma PassesInOrder(p: Params, c: NamespacedName)
    ensures p.providerNamespace == "\\u003c" + "provider.name" + "\\u003e" && Plain(p.providerName) ==>
              Rendered(p, c, "\\u003c" + "provider.namespace" + "\\u003e") == p.providerName
    ensures p.providerName == "\\u003c" + "environment" + "\\u003e" && Plain(p.environment) ==>
              Rendered(p, c, "\\u003c" + "provider.name" + "\\u003e") == p.environment
    ensures p.environment == "\\u003c" + "cluster.namespace" + "\\u003e" && Plain(c.namespace) ==>
              Rendered(p, c, "\\u003c" + "environment" + "\\u003e") == c.namespace
    ensures c.namespace == "\\u003c" + "cluster.name" + "\\u003e" && Plain(c.name) ==>
              Rendered(p, c, "\\u003c" + "cluster.namespace" + "\\u003e") == c.name
  {
    hide Sequential, Plain;
    var b := Keywords(p, c);
    KeywordsAreDistinct(p, c);
    if p.providerNamespace == Placeholder("provider.name") && Plain(p.providerName) { RewrittenIffLater(b, 0, 1); }
    if p.providerName == Placeholder("environment") && Plain(p.environment) { RewrittenIffLater(b, 1, 2); }
    if p.environment == Placeholder("cluster.namespace") && Plain(c.namespace) { RewrittenIffLater(b, 2, 3); }
    if c.namespace == Placeholder("cluster.name") && Plain(c.name) { RewrittenIffLater(b, 3, 4); }
  }

  lemma KeywordsAreDistinct(p: Params, c: NamespacedName)
    ensures DistinctPlain(Keywords(p, c))
  {
    KeywordsDiffer();
    NamesArePlain();
    hide Plain;
  }

  lemma AllAreKeywords(b: seq<Binding>) returns (p: Params, c: NamespacedName)
    requires Immunity.Binds(b, KEYWORD_ORDER)
    ensures Keywords(p, c) == b && PlainNames(p, c)
  {
    p, c := Params(b[1].value, b[0].value, b[2].value, None), NamespacedName(b[3].value, b[4].value);
  }

  /**
  The passes over this template are the documented substitution, for all names of providers, environments and Clusters.
   */
  ghost predicate Substituted(template: string) {
    forall p, c, b :: PlainNames(p, c) && Documented(b, p, c) ==>
      Rendered(p, c, template) == Simultaneous(template, KEYWORD_NAMES, b)
  }

  /** The exact condition for the program's five passes: the template is immune against them. */
  lemma SubstitutedIffImmune(template: string)
    ensures Substituted(template) <==> Immunity.Immune(Parse(template, KEYWORD_NAMES), KEYWORD_ORDER)
  {
    hide Immunity.Immune, Immunity.Binds, Sequential, Simultaneous, Parse, Keywords, PlainNames, Documented;
    NamesArePlain();
    OrderOfKeywords();
    Immunity.SequentialIffImmune(template, KEYWORD_ORDER);
    if Substituted(template) {
      forall b | Immunity.Binds(b, KEYWORD_ORDER)
        ensures Sequential(template, b) == Simultaneous(template, KEYWORD_NAMES, b)
      {
        var p, c := AllAreKeywords(b);
        KeywordsAreDocumented(p, c);
        assert Rendered(p, c, template) == Simultaneous(template, KEYWORD_NAMES, b);
      }
    } else {
      var p, c, b :| PlainNames(p, c) && Documented(b, p, c)
                     && Rendered(p, c, template) != Simultaneous(template, KEYWORD_NAMES, b);
      KeywordsAreDocumented(p, c);
      DocumentedAgree(template, Keywords(p, c), b, p, c);
      assert Immunity.Binds(Keywords(p, c), KEYWORD_ORDER);
    }
  }

  lemma NamesAreHarmless()
    ensures forall n :: n in KEYWORD_NAMES ==> JsonText.Harmless(n)
  {
    assert JsonText.Harmless("provider.namespace");
    assert JsonText.Harmless("provider.name");
    assert JsonText.Harmless("environment");
    assert JsonText.Harmless("cluster.namespace");
    assert JsonText.Harmless("cluster.name");
  }

  lemma KeywordsAreHarmless(p: Params, c: NamespacedName)
    requires forall v :: v in {p.providerNamespace, p.providerName, p.environment, c.namespace, c.name} ==>
               JsonText.Harmless(v)
    ensures JsonText.AllHarmless(Keywords(p, c))
  {
  }

  /** From well-formed JSON the HelmRelease gets well-formed JSON with the same structure outside of strings. */
  lemma ReleaseValuesKeepStructure(p: Params, c: NamespacedName, config: PurposeConfig, kind: Kind, accessRequest: Obj)
    requires HazardFree(Parse(config.values, KEYWORD_NAMES), KEYWORD_NAMES)
    requires JsonText.WellFormed(config.values)
             && JsonText.HeadsAreEscapes(Parse(config.values, KEYWORD_NAMES), JsonText.Outside)
    requires forall v :: v in {p.providerNamespace, p.providerName, p.environment, c.namespace, c.name} ==>
               JsonText.Harmless(v)
    ensures var values := ReleaseBody(p, c, config, kind, accessRequest).values;
            && JsonText.WellFormed(values)
            && JsonText.Skeleton(JsonText.Outside, values) == JsonText.Skeleton(JsonText.Outside, config.values)
  {
    NamesAreHarmless();
    NamesAreBound(p, c);
    KeywordsAreHarmless(p, c);
    JsonText.PassesKeepStructure(config.values, KEYWORD_NAMES, Keywords(p, c));
  }

  /** A configuration applies to a Cluster if it has no selector or one that matches the Cluster's purposes. */
  predicate Applies(config: PurposeConfig, purposes: seq<string>) {
    match config.selector
    case None => true
    case Some(selector) => Selectors.Matches(selector, purposes)
  }

  /** The first configuration that applies, or none if none does. */
  predicate IsFirstMatch(configs: seq<PurposeConfig>, purposes: seq<string>, found: Option<PurposeConfig>) {
    match found
    case None => forall i :: 0 <= i < |configs| ==> !Applies(configs[i], purposes)
    case Some(config) =>
      exists i ::
        && 0 <= i < |configs| && configs[i] == config && Applies(configs[i], purposes)
        && forall j :: 0 <= j < i ==> !Applies(configs[j], purposes)
  }

  /** The operation annotation that counts: the DNS-specific one, or else the generic one. */
  function EffectiveOperation(cluster: Cluster): Option<string> {
    if cluster.dnsOperation.Some? then cluster.dnsOperation else cluster.operation
  }

  /** The HelmRelease already is what writing it again would make it. */
  ghost predicate ReleaseReady(p: Params, c: NamespacedName, config: Config, purpose: PurposeConfig, w: World) {
    && SelectedKind(config.source).Some? && AccessKey(c) in w.objs
    && var body := ReleaseBody(p, c, purpose, SelectedKind(config.source).value, w.objs[AccessKey(c)]);
       Lookup(w, ReleaseKey(c)) == Some(Deployed(Lookup(w, ReleaseKey(c)), body, ExpectedLabels(p, c)))
  }

  /** A world in which there is nothing left to do for a Cluster. */
  ghost predicate Settled(p: Params, c: NamespacedName, config: Config, service: Service, purpose: PurposeConfig,
                          w: World) {
    PlatformReady(p, c, config, service, w) && TargetReady(p, c, config, service, w)
    && ReleaseReady(p, c, config, purpose, w)
  }

  function WithRelease(p: Params, c: NamespacedName, purpose: PurposeConfig, kind: Kind, accessRequest: Obj,
                       w: World): World {
    Write(w, ReleaseKey(c),
          Deployed(Lookup(w, ReleaseKey(c)), ReleaseBody(p, c, purpose, kind, accessRequest), ExpectedLabels(p, c)))
  }

  /** What the HelmRelease says once it has been written: the source, the values, and whose kubeconfig it uses. */
  ghost predicate ReleaseSays(p: Params, c: NamespacedName, purpose: PurposeConfig, kind: Kind, accessRequest: Obj,
                              w: World) {
    var key := Key(Platform, HelmRelease, c.namespace, c.name + ".external-dns");
    && key in w.objs && w.objs[key].body.Release?
    && var body := w.objs[key].body;
       && body.sourceKind == kind && body.sourceNamespace == c.namespace && body.sourceName == c.name + ".external-dns"
       && body.values == Rendered(p, c, purpose.values)
       && forall granted, secret :: accessRequest.body == Grant(granted, secret) ==> body.kubeconfig == secret
  }

  lemma WithReleaseSays(p: Params, c: NamespacedName, purpose: PurposeConfig, kind: Kind, accessRequest: Obj,
                        w: World)
    ensures ReleaseSays(p, c, purpose, kind, accessRequest, WithRelease(p, c, purpose, kind, accessRequest, w))
  {
    hide Rendered;
  }

  lemma BecomesSettled(p: Params, c: NamespacedName, config: Config, service: Service, purpose: PurposeConfig, d: World,
                       e: World, accessRequest: Obj)
    requires PlatformReady(p, c, config, service, d) && TargetReady(p, c, config, service, e)
    requires forall k: Key :: k.site.Platform? ==> Lookup(e, k) == Lookup(d, k)
    requires Lookup(d, AccessKey(c)) == Some(accessRequest) && SelectedKind(config.source).Some?
    ensures Settled(p, c, config, service, purpose,
                    WithRelease(p, c, purpose, SelectedKind(config.source).value, accessRequest, e))
  {
    hide PlatformReady, TargetReady, ReleaseBody;
    var body := ReleaseBody(p, c, purpose, SelectedKind(config.source).value, accessRequest);
    var f := WithRelease(p, c, purpose, SelectedKind(config.source).value, accessRequest, e);
    PlatformStaysReady(p, c, config, service, d, e);
    PlatformStaysReady(p, c, config, service, e, f);
    TargetStaysReady(p, c, config, service, e, f);
    var o := f.objs[ReleaseKey(c)];
    assert o.labels + ExpectedLabels(p, c) == o.labels;
    assert Lookup(e, AccessKey(c)) == Lookup(d, AccessKey(c));
  }

  lemma ReleaseStandsStill(p: Params, c: NamespacedName, config: Config, purpose: PurposeConfig, w: World)
    requires ReleaseReady(p, c, config, purpose, w)
    ensures WithRelease(p, c, purpose, SelectedKind(config.source).value, w.objs[AccessKey(c)], w) == w
  {
  }

  /** One call, which writes the HelmRelease. */
  lemma OneReleaseWritten(p: Params, c: NamespacedName, purpose: PurposeConfig, kind: Kind, accessRequest: Obj,
                          e: Moment, f: Moment)
    requires f.log == e.log + [Event(c, PutRelease, e.world, WithRelease(p, c, purpose, kind, accessRequest, e.world))]
    requires LiveAt(p, e.world, c, Platform, kind, SourceKey(c, kind)) && AccessLive(e.world, c)
    ensures ReleasesLive(p, e.log, f.log)
  {
  }

  /** The configuration for a Cluster with these purposes. */
  function Choice(configs: seq<PurposeConfig>, purposes: seq<string>): Option<PurposeConfig> {
    if configs == [] then None
    else if Selects(configs[0], purposes) then Some(configs[0])
    else Choice(configs[1..], purposes)
  }

  /** It is the first one that applies, and there is one if and only if some configuration applies. */
  lemma {:induction false} ChoiceIsFirstMatch(configs: seq<PurposeConfig>, purposes: seq<string>)
    ensures IsFirstMatch(configs, purposes, Choice(configs, purposes))
  {
    if configs != [] && !Selects(configs[0], purposes) {
      var rest := configs[1..];
      ChoiceIsFirstMatch(rest, purposes);
      match Choice(rest, purposes)
      case None =>
        forall i | 0 <= i < |configs| ensures !Applies(configs[i], purposes) {
          if i > 0 { assert configs[i] == rest[i - 1]; }
        }
      case Some(config) =>
        var i :|
          && 0 <= i < |rest| && rest[i] == config && Applies(rest[i], purposes)
          && forall j :: 0 <= j < i ==> !Applies(rest[j], purposes);
        assert configs[i + 1] == rest[i];
        forall j | 0 <= j < i + 1 ensures !Applies(configs[j], purposes) {
          if j > 0 { assert configs[j] == rest[j - 1]; }
        }
    } else if configs != [] {
      assert configs[0] == configs[0] && Applies(configs[0], purposes);
    }
  }

  /** The queue and the controller agree about which Clusters a configuration applies to. */
  lemma MatchedIffChosen(config: Config, purposes: seq<string>)
    ensures Matched(config, purposes) <==> Choice(config.purposes, purposes).Some?
    ensures Matched(config, purposes) <==> exists entry :: entry in config.purposes && Applies(entry, purposes)
  {
    ChoiceIsFirstMatch(config.purposes, purposes);
    hide Choice;
  }

  // ---------------------------------------------------------------- what a reconcile reads, and what that decides

  /** The position of the call that reads the configuration; an annotation may have been removed before. */
  function ReadAt(cluster: Cluster, at: nat): nat {
    if EffectiveOperation(cluster) == Some(OPERATION_RECONCILE) then at + 1 else at
  }

  predicate NoConfig(log: seq<Event>, i: nat) {
    i < |log| && log[i].action.ReadConfig? && log[i].pre.config.None?
  }

  predicate NoService(log: seq<Event>, i: nat) {
    i < |log| && log[i].action.ReadService? && log[i].pre.service.None?
  }

  /**
  What stops a reconcile that begins with the call at this position, before it deploys or tears down anything: the
  Cluster is to be ignored, or the configuration or the service is missing when it is read.
   */
  predicate Blocked(cluster: Cluster, log: seq<Event>, at: nat) {
    || EffectiveOperation(cluster) == Some(OPERATION_IGNORE)
    || NoConfig(log, ReadAt(cluster, at)) || NoService(log, ReadAt(cluster, at) + 1)
  }

  /**
  The reconcile is to deploy: the Cluster is not being deleted, and a configuration applies to it when it is read.
   */
  predicate Deploys(cluster: Cluster, log: seq<Event>, at: nat) {
    var i := ReadAt(cluster, at);
    && !cluster.deleting && i < |log| && log[i].action.ReadConfig? && log[i].pre.config.Some?
    && Choice(log[i].pre.config.value.purposes, cluster.purposes).Some?
  }

  /** Both configuration objects were read from this call on, and the configuration for the Cluster was chosen. */
  predicate Loaded(log: seq<Event>, i: nat, purposes: seq<string>, r: ReconcileResult) {
    && i + 1 < |log| && log[i].action.ReadConfig? && log[i + 1].action.ReadService?
    && r.providerConfig.Some? && r.providerConfig == log[i].pre.config
    && r.platformService.Some? && r.platformService == log[i + 1].pre.service
    && r.config == Choice(r.providerConfig.value.purposes, purposes)
  }

  predicate NotLoadedFrom(w: World, error: Option<Error>) {
    (w.config.None? || w.service.None?)
    && error == Some(if w.config.None? then ConfigurationProblem else PlatformProblem)
  }

  predicate NotLoaded(log: seq<Event>, i: nat, error: Option<Error>) {
    || (NoConfig(log, i) && error == Some(ConfigurationProblem))
    || (NoService(log, i + 1) && error == Some(PlatformProblem))
  }

  /**
  Left alone, a reconcile of this Cluster will find a configuration and a service and not be told to ignore the Cluster.
   */
  predicate Determined(cluster: Cluster, w: World) {
    EffectiveOperation(cluster) != Some(OPERATION_IGNORE) && w.config.Some? && w.service.Some?
  }

  /** The configuration with which the Cluster is to be deployed, if it is not to be torn down. */
  function Chosen(cluster: Cluster, w: World): Option<PurposeConfig>
    requires Determined(cluster, w)
  {
    if cluster.deleting then None else Choice(w.config.value.purposes, cluster.purposes)
  }

  /** Left alone, a reconcile of this Cluster will deploy. */
  predicate ToDeploy(c: NamespacedName, w: World) {
    c in w.clusters && Determined(w.clusters[c], w) && Chosen(w.clusters[c], w).Some?
  }

  /** Left alone, a reconcile of this Cluster will tear down. */
  predicate ToTearDown(c: NamespacedName, w: World) {
    c in w.clusters && Determined(w.clusters[c], w) && Chosen(w.clusters[c], w).None?
  }

  predicate AllPreliminary(log: seq<Event>, at: nat) {
    forall i :: at <= i < |log| ==> Preliminary(log[i].action)
  }

  lemma OnlyAnnotationRemoved(log: seq<Event>, at: nat)
    requires forall i :: at <= i < |log| ==> log[i].action.DropAnnotation?
    ensures AllPreliminary(log, at)
  {
  }

  lemma PreliminaryChain(first: seq<Event>, second: seq<Event>, third: seq<Event>)
    requires first <= second <= third && AllPreliminary(second, |first|) && AllPreliminary(third, |second|)
    ensures AllPreliminary(third, |first|)
  {
  }

  lemma ReadsKeep(m: Mode, p: Params, c: NamespacedName, a: Moment, b: Moment)
    requires Progressed(m, p, c, Nobody, a, b)
    ensures ClusterKept(m, c, a.world, b.world) && OwnershipKept(m, p, c, a.world, b.world) && a.log <= b.log
  {
  }

  lemma KeptBoth(m: Mode, p: Params, c: NamespacedName, u: World, w: World, v: World)
    requires ClusterKept(m, c, u, w) && OwnershipKept(m, p, c, u, w)
    requires ClusterKept(m, c, w, v) && OwnershipKept(m, p, c, w, v)
    ensures ClusterKept(m, c, u, v) && OwnershipKept(m, p, c, u, v)
  {
    ClusterKeptChain(m, c, u, w, v);
    hide OwnedOrAbsent, ClusterKept;
  }

  /** What was read decides between deployment and teardown. */
  lemma LoadedDecides(cluster: Cluster, first: seq<Event>, at: nat, third: seq<Event>, r: ReconcileResult)
    requires Loaded(first, ReadAt(cluster, at), cluster.purposes, r) && first <= third
    requires EffectiveOperation(cluster) != Some(OPERATION_IGNORE)
    ensures !Blocked(cluster, third, at)
    ensures Deploys(cluster, third, at) <==> r.config.Some? && !cluster.deleting
    ensures r.config == Choice(r.providerConfig.value.purposes, cluster.purposes)
  {
  }

  /** What the caller of a reconcile gets to know. */
  datatype Reply = Reply(error: Option<Error>, requeue: bool, known: set<NamespacedName>) {
    predicate Success() { error.None? && !requeue }
  }

  /** A stretch of a reconcile: its beginning and its end, and whether the library then requests no access any more. */
  datatype Stretch = Stretch(a: Moment, torn: bool, b: Moment, gone: bool) {
    /** How far access is from being gone. */
    function Before(c: NamespacedName): nat { AccessStage(torn, a.world, c) }

    function After(c: NamespacedName): nat { AccessStage(gone, b.world, c) }

    /** What is left of it after its first calls. */
    function From(e: Moment): Stretch { Stretch(e, torn, b, gone) }
  }

  /** A reconcile that did not get further than to its reads: nothing was done. */
  ghost predicate HeldUp(s: Setting, c: NamespacedName, ignored: bool, reply: Reply, x: Stretch) {
    && Progressed(s.mode, s.p, c, Nobody, x.a, x.b) && AllPreliminary(x.b.log, |x.a.log|) && x.gone == x.torn
    && !reply.requeue && (!ignored ==> reply.error.Some?) && (ignored && s.reliable ==> reply.error.None?)
  }

  /**
  A teardown that is to be continued: neither the HelmRelease nor access is further from its end, one of them is closer,
  or somebody else's move is awaited.
   */
  ghost predicate Paused(s: Setting, c: NamespacedName, x: Stretch) {
    && ClusterKept(s.mode, c, x.a.world, x.b.world) && OwnershipKept(s.mode, s.p, c, x.a.world, x.b.world)
    && ReleaseStage(x.b.world, c) < 2 && ReleaseStage(x.b.world, c) <= ReleaseStage(x.a.world, c)
    && (ReleaseAbsent(x.a.world, c) ==> x.a.log < x.b.log && Awaits(x.b.log[|x.b.log| - 1], c))
    && (!s.mode.Free? && s.promise.Progressive(BeingDeleted(x.a.world, c)) ==>
          Advances(ReleaseStage(x.a.world, c), x.Before(c), ReleaseStage(x.b.world, c), x.After(c)))
  }

  /**
  A reconcile that tears down: it finishes, with the finalizer off and the Cluster forgotten, or it has come further, or
  waits.
   */
  ghost predicate WentOn(s: Setting, c: NamespacedName, reply: Reply, x: Stretch) {
    && reply.error.None?
    && (reply.requeue ==> Paused(s, c, x))
    && (!reply.requeue ==> !HasFinalizer(x.b.world, c) && c !in reply.known)
  }

  /** The finalizer is taken off a Cluster that is being deleted. */
  predicate TakenOffDeleted(e: Event, c: NamespacedName) {
    e.cluster == c && e.action.RemoveFinalizer? && BeingDeleted(e.pre, c)
  }

  /**
  Where access is held and waited for, the finalizer stays on, unless the library is steady and the Cluster is being
  deleted.
   */
  ghost predicate Clung(s: Setting, c: NamespacedName, x: Stretch) {
    || HasFinalizer(x.b.world, c)
    || (s.promise.steady && |x.a.log| < |x.b.log| && TakenOffDeleted(x.b.log[|x.b.log| - 1], c))
  }

  /**
  An undisturbed teardown without a HelmRelease: usable access that is held ends, absent access is requested, and both
  are waited for.
   */
  ghost predicate AccessTurn(s: Setting, c: NamespacedName, requeue: bool, x: Stretch) {
    var w, log := x.a.world, x.b.log;
    && (s.promise.held == Some(true) && Usable(w, c) ==>
          && requeue && |x.a.log| < |log| && AwaitsRemoval(log[|log| - 1], c)
          && TerminatingOf(Lookup(x.b.world, AccessKey(c))))
    && (AccessAbsent(w, c) && !(x.torn && BeingDeleted(w, c)) ==>
          && requeue && |x.a.log| < |log| && AwaitsGrant(log[|log| - 1], c) && AccessAbsent(log[|log| - 1].pre, c)
          && Lookup(x.b.world, AccessKey(c)) == Some(NewAccess(s.p, c)))
  }

  /** What a teardown of a Cluster with finalizer, be it finished or not, amounts to. */
  ghost predicate Undone(s: Setting, c: NamespacedName, r: ReconcileResult, x: Stretch) {
    && (r.requeue ==> Paused(s, c, x))
    && (s.reliable && !s.mode.Free? && OwnedOrAbsent(s.p, c, x.a.world, ReleaseKey(c)) ==> r.error.None?)
    && (s.promise.held == Some(true) && !s.mode.Free? && AccessLive(x.a.world, c) ==> r.Stop())
    && (s.promise.Clinging() && !s.mode.Free? ==> Clung(s, c, x))
    && (s.mode.Quiet? && !r.Stop() ==> (r.access <==> Usable(x.a.world, c)))
    && (s.mode.Quiet? && s.reliable && ReleaseAbsent(x.a.world, c) ==> AccessTurn(s, c, r.requeue, x))
  }

  /** A deployment or a teardown, whatever others do meanwhile. */
  ghost predicate Handled(s: Setting, c: NamespacedName, cluster: Cluster, deploys: bool, reply: Reply, x: Stretch) {
    && (deploys ==>
          && ClusterKept(s.mode, c, x.a.world, x.b.world) && OwnershipKept(s.mode, s.p, c, x.a.world, x.b.world)
          && (reply.Success() ==> HasFinalizer(x.b.world, c) && c in reply.known))
    && (!deploys && reply.Success() ==> c !in reply.known && (cluster.finalizer ==> !HasFinalizer(x.b.world, c)))
    && (!deploys && s.reliable && !s.mode.Free? && cluster.finalizer
        && OwnedOrAbsent(s.p, c, x.a.world, ReleaseKey(c)) ==>
          WentOn(s, c, reply, x))
  }

  /** A reconcile, whatever others do meanwhile: it is held up, or it deploys or tears down as what it reads demands. */
  ghost predicate Conducted(s: Setting, c: NamespacedName, cluster: Cluster, reply: Reply, x: Stretch) {
    && (if Blocked(cluster, x.b.log, |x.a.log|)
        then HeldUp(s, c, EffectiveOperation(cluster) == Some(OPERATION_IGNORE), reply, x)
        else Handled(s, c, cluster, Deploys(cluster, x.b.log, |x.a.log|), reply, x))
    && (s.promise.Clinging() && !s.mode.Free? && cluster.finalizer ==> Clung(s, c, x))
  }

  /** An undisturbed deployment, with this configuration, or teardown. */
  ghost predicate Effected(s: Setting, c: NamespacedName, cluster: Cluster, config: Config, service: Service,
                           purpose: Option<PurposeConfig>, reply: Reply, x: Stretch) {
    if purpose.Some?
    then Provided(s.p, c, config, service, purpose.value, cluster, reply.Success(), s.reliable, x.a.world, x.b.world)
    else s.reliable && cluster.finalizer && ReleaseAbsent(x.a.world, c) ==> AccessTurn(s, c, reply.requeue, x)
  }

  /**
  An undisturbed reconcile: it deploys or tears down as the Cluster and the configuration demand, unless something is
  missing.
   */
  ghost predicate Resulted(s: Setting, c: NamespacedName, cluster: Cluster, reply: Reply, x: Stretch) {
    var w := x.a.world;
    if EffectiveOperation(cluster) == Some(OPERATION_IGNORE) then x.b == x.a
    else if w.config.None? || w.service.None? then
      && x.b.world.objs == w.objs && reply.error.Some?
      && (s.reliable && c in w.clusters ==>
            && reply.error == Some(if w.config.None? then ConfigurationProblem else PlatformProblem)
            && Blocked(cluster, x.b.log, |x.a.log|))
    else
      && ((s.reliable && c in w.clusters) || reply.Success() ==>
            && !Blocked(cluster, x.b.log, |x.a.log|)
            && (Deploys(cluster, x.b.log, |x.a.log|) <==> Chosen(cluster, w).Some?))
      && Effected(s, c, cluster, w.config.value, w.service.value, Chosen(cluster, w), reply, x)
  }

  // ---------------------------------------------------------------- the parts of a reconcile

  /** The reads at the beginning of a reconcile bring nothing further away from its end. */
  lemma ReadsBefore(m: Mode, p: Params, c: NamespacedName, torn: bool, a: Moment, b: Moment)
    requires Progressed(m, p, c, Nobody, a, b) && !m.Free? && HasFinalizer(a.world, c)
    ensures AccessStage(torn, b.world, c) <= AccessStage(torn, a.world, c)
    ensures ReleaseStage(b.world, c) <= ReleaseStage(a.world, c)
    ensures OwnedOrAbsent(p, c, a.world, ReleaseKey(c)) ==> OwnedOrAbsent(p, c, b.world, ReleaseKey(c))
  {
    hide Follows, Grew;
    DerivedNameReserved(c.name);
    assert Stays(p, a.world, b.world, AccessKey(c)) && Stays(p, a.world, b.world, ReleaseKey(c));
  }

  lemma HandledFrom(s: Setting, c: NamespacedName, cluster: Cluster, deploys: bool, reply: Reply, x: Stretch, e: Moment)
    requires Progressed(s.mode, s.p, c, Nobody, x.a, e) && (cluster.finalizer ==> HasFinalizer(x.a.world, c))
    requires Handled(s, c, cluster, deploys, reply, x.From(e))
    ensures Handled(s, c, cluster, deploys, reply, x)
  {
    hide Progressed, AccessStage, HasFinalizer, Awaits;
    ReadsKeep(s.mode, s.p, c, x.a, e);
    if deploys {
      KeptBoth(s.mode, s.p, c, x.a.world, e.world, x.b.world);
    } else if s.reliable && !s.mode.Free? && cluster.finalizer && OwnedOrAbsent(s.p, c, x.a.world, ReleaseKey(c)) {
      ReadsBefore(s.mode, s.p, c, x.torn, x.a, e);
      StillDeleted(s.mode, c, x.a.world, e.world);
      if reply.requeue { KeptBoth(s.mode, s.p, c, x.a.world, e.world, x.b.world); }
    }
  }

  lemma HeldUpFrom(s: Setting, c: NamespacedName, ignored: bool, reply: Reply, x: Stretch, e: Moment)
    requires Progressed(s.mode, s.p, c, Nobody, x.a, e) && AllPreliminary(e.log, |x.a.log|)
    requires HeldUp(s, c, ignored, reply, x.From(e))
    ensures HeldUp(s, c, ignored, reply, x)
  {
    Chain(s.mode, s.p, c, Nobody, x.a, Nobody, e, Nobody, x.b);
    ReadsKeep(s.mode, s.p, c, x.a, e);
    hide Progressed;
  }

  lemma EffectedFrom(s: Setting, c: NamespacedName, cluster: Cluster, config: Config, service: Service,
                     purpose: Option<PurposeConfig>, reply: Reply, x: Stretch, e: Moment)
    requires ClusterKept(Quiet, c, x.a.world, e.world) && e.world.objs == x.a.world.objs && x.a.log <= e.log
    requires Effected(s, c, cluster, config, service, purpose, reply, x.From(e))
    ensures Effected(s, c, cluster, config, service, purpose, reply, x)
  {
    hide Provided, AwaitsGrant, AwaitsRemoval, NewAccess, HasFinalizer;
    if purpose.Some? {
      ProvidedFrom(s.p, c, config, service, purpose.value, cluster, reply.Success(), s.reliable, x.a.world, e.world,
                   x.b.world);
    }
  }

  /** A Cluster that is to be ignored. */
  lemma Ignored(s: Setting, c: NamespacedName, cluster: Cluster, known: set<NamespacedName>, a: Moment, torn: bool)
    requires EffectiveOperation(cluster) == Some(OPERATION_IGNORE) && (cluster.finalizer ==> HasFinalizer(a.world, c))
    ensures var x, reply := Stretch(a, torn, a, torn), Reply(None, false, known);
            Conducted(s, c, cluster, reply, x) && Resulted(s, c, cluster, reply, x)
  {
    Standstill(s.mode, s.p, c, Nobody, a);
    hide Progressed;
  }

  /** A reconcile that fails before it deploys or tears down. */
  lemma FailsEarly(s: Setting, c: NamespacedName, cluster: Cluster, reply: Reply, x: Stretch)
    requires EffectiveOperation(cluster) != Some(OPERATION_IGNORE) && (cluster.finalizer ==> HasFinalizer(x.a.world, c))
    requires Progressed(s.mode, s.p, c, Nobody, x.a, x.b) && AllPreliminary(x.b.log, |x.a.log|) && x.gone == x.torn
    requires reply.error.Some? && !reply.requeue
    requires s.reliable && c in x.a.world.clusters ==>
               NotLoaded(x.b.log, ReadAt(cluster, |x.a.log|), reply.error)
               && (s.mode.Quiet? ==> NotLoadedFrom(x.a.world, reply.error))
    ensures Conducted(s, c, cluster, reply, x)
    ensures s.mode.Quiet? && x.b.world.objs == x.a.world.objs ==> Resulted(s, c, cluster, reply, x)
  {
    hide EffectiveOperation, Choice;
    ReadsKeep(s.mode, s.p, c, x.a, x.b);
    hide Progressed;
    if s.mode.Quiet? && x.b.world.objs == x.a.world.objs && Determined(cluster, x.a.world)
    && Chosen(cluster, x.a.world).Some? {
      NothingProvided(s.p, c, cluster, s.reliable, x.a.world, x.b.world);
      hide Provided;
    }
  }

  /** A reconcile that does not even get the Cluster. */
  lemma NotRead(s: Setting, c: NamespacedName, cluster: Cluster, known: set<NamespacedName>, x: Stretch)
    requires !s.reliable && (cluster.finalizer ==> HasFinalizer(x.a.world, c)) && x.gone == x.torn
    requires Progressed(s.mode, s.p, c, Nobody, x.a, x.b) && x.b.log == x.a.log && (s.mode.Quiet? ==> x.b == x.a)
    ensures Conducted(s, c, cluster, Reply(Some(PlatformProblem), false, known), x)
    ensures s.mode.Quiet? ==> Resulted(s, c, cluster, Reply(Some(PlatformProblem), false, known), x)
  {
    hide EffectiveOperation, Choice;
    ReadsKeep(s.mode, s.p, c, x.a, x.b);
    hide Progressed;
    if s.mode.Quiet? && Determined(cluster, x.a.world) && Chosen(cluster, x.a.world).Some? {
      NothingProvided(s.p, c, cluster, s.reliable, x.a.world, x.b.world);
      hide Provided;
    }
  }

  /** A reconcile that gets as far as to deploy or tear down. */
  lemma Dispatched(s: Setting, c: NamespacedName, cluster: Cluster, loaded: ReconcileResult, reply: Reply, x: Stretch,
                   e: Moment)
    requires EffectiveOperation(cluster) != Some(OPERATION_IGNORE) && (cluster.finalizer ==> HasFinalizer(x.a.world, c))
    requires Progressed(s.mode, s.p, c, Nobody, x.a, e) && e.log <= x.b.log
    requires Loaded(e.log, ReadAt(cluster, |x.a.log|), cluster.purposes, loaded)
    requires Handled(s, c, cluster, loaded.config.Some? && !cluster.deleting, reply, x.From(e))
    requires s.promise.Clinging() && !s.mode.Free? && cluster.finalizer ==> Clung(s, c, x.From(e))
    ensures Conducted(s, c, cluster, reply, x)
    ensures s.mode.Quiet? && e.world.objs == x.a.world.objs
            && loaded.providerConfig == x.a.world.config && loaded.platformService == x.a.world.service
            && Effected(s, c, cluster, loaded.providerConfig.value, loaded.platformService.value,
                        if cluster.deleting then None else loaded.config, reply, x.From(e)) ==>
              Resulted(s, c, cluster, reply, x)
  {
    hide EffectiveOperation, Choice, Progressed, Handled, Effected;
    ReadsKeep(s.mode, s.p, c, x.a, e);
    LoadedDecides(cluster, e.log, |x.a.log|, x.b.log, loaded);
    HandledFrom(s, c, cluster, loaded.config.Some? && !cluster.deleting, reply, x, e);
    var purpose := if cluster.deleting then None else loaded.config;
    if s.mode.Quiet? && e.world.objs == x.a.world.objs
       && Effected(s, c, cluster, loaded.providerConfig.value, loaded.platformService.value, purpose, reply,
                   x.From(e)) {
      EffectedFrom(s, c, cluster, loaded.providerConfig.value, loaded.platformService.value, purpose, reply, x, e);
    }
    hide Blocked, Deploys, Loaded;
  }

  /** After the Cluster has been read. */
  lemma ConductedFrom(s: Setting, c: NamespacedName, cluster: Cluster, reply: Reply, x: Stretch, e: Moment)
    requires Progressed(s.mode, s.p, c, Nobody, x.a, e) && e.log == x.a.log
             && (cluster.finalizer ==> HasFinalizer(x.a.world, c))
    requires Conducted(s, c, cluster, reply, x.From(e))
    ensures Conducted(s, c, cluster, reply, x)
  {
    hide Progressed, Handled, HeldUp, Blocked, Deploys, EffectiveOperation;
    if Blocked(cluster, x.b.log, |x.a.log|) {
      HeldUpFrom(s, c, EffectiveOperation(cluster) == Some(OPERATION_IGNORE), reply, x, e);
    } else {
      HandledFrom(s, c, cluster, Deploys(cluster, x.b.log, |x.a.log|), reply, x, e);
    }
  }

  lemma StillSettled(p: Params, c: NamespacedName, config: Config, service: Service, purpose: PurposeConfig, w: World,
                     v: World)
    requires v.objs == w.objs
    ensures SourcesSpared(p, c, config, service, w) ==> SourcesSpared(p, c, config, service, v)
    ensures Settled(p, c, config, service, purpose, w) ==> Settled(p, c, config, service, purpose, v)
    ensures Deployable(p, c, config, service, w) ==> Deployable(p, c, config, service, v)
  {
    hide ReleaseBody, Deployable;
    if Deployable(p, c, config, service, w) { StillDeployable(p, c, config, service, w, v); }
    if SourcesSpared(p, c, config, service, w) { StillSpared(p, c, config, service, w, v); }
    if Settled(p, c, config, service, purpose, w) {
      PlatformStaysReady(p, c, config, service, w, v);
      TargetStaysReady(p, c, config, service, w, v);
    }
  }

  /**
  What an undisturbed reconcile that deploys does to the world: success leads to a settled world, a settled world does
  not change, and where access is usable and nothing stands in the way there is success.
   */
  ghost predicate Provided(p: Params, c: NamespacedName, config: Config, service: Service, purpose: PurposeConfig,
                           cluster: Cluster, success: bool, reliable: bool, w: World, v: World) {
    && ClusterKept(Quiet, c, w, v)
    && (PlansFit(p, c, config, service) ==>
          && (success && SourcesSpared(p, c, config, service, w) ==> Settled(p, c, config, service, purpose, v))
          && (cluster.finalizer && Settled(p, c, config, service, purpose, w) ==> v.objs == w.objs)
          && (reliable && Obtainable(c, cluster, w) && Deployable(p, c, config, service, w) ==> success))
  }

  lemma ProvidedFrom(p: Params, c: NamespacedName, config: Config, service: Service, purpose: PurposeConfig,
                     cluster: Cluster, success: bool, reliable: bool, w: World, e: World, v: World)
    requires e.objs == w.objs && ClusterKept(Quiet, c, w, e)
    requires Provided(p, c, config, service, purpose, cluster, success, reliable, e, v)
    ensures Provided(p, c, config, service, purpose, cluster, success, reliable, w, v)
  {
    hide PlansFit, Settled, SourcesSpared, Deployable;
    StillSettled(p, c, config, service, purpose, w, e);
    ClusterKeptChain(Quiet, c, w, e, v);
  }

  /** A reconcile that fails at its first calls, which happens only where calls may fail. */
  lemma NothingProvided(p: Params, c: NamespacedName, cluster: Cluster, reliable: bool, w: World, v: World)
    requires Determined(cluster, w) && Chosen(cluster, w).Some? && ClusterKept(Quiet, c, w, v) && v.objs == w.objs
    requires reliable ==> !Obtainable(c, cluster, w)
    ensures Provided(p, c, w.config.value, w.service.value, Chosen(cluster, w).value, cluster, false, reliable, w, v)
  {
    hide PlansFit, Settled, SourcesSpared, Deployable, Choice;
  }

  /** Access is granted, and the finalizer is on or can be put on. */
  predicate Obtainable(c: NamespacedName, cluster: Cluster, w: World) {
    Usable(w, c) && (cluster.finalizer || (c in w.clusters && !w.clusters[c].deleting))
  }

  lemma StaysCalm(m: Mode, p: Params, c: NamespacedName, a: Moment, b: Moment)
    requires Progressed(m, p, c, Nobody, a, b)
    ensures !m.Free? && Calm(a.world, c) ==> Calm(b.world, c)
    ensures HasFinalizer(a.world, c) ==> HasFinalizer(b.world, c)
    ensures Grew(c, Everything, a.log, b.log) && ReleasesLive(p, a.log, b.log)
  {
    Undisturbed(m, p, c, a, b);
  }

  /** A phase of a teardown after others. */
  lemma NextPhase(m: Mode, p: Params, c: NamespacedName, a: Moment, b: Moment, d: Moment)
    requires Progressed(m, p, c, Everything, a, b) && ReleasesLive(p, a.log, b.log)
             && Progressed(m, p, c, NoReleases, b, d)
    ensures Progressed(m, p, c, Everything, a, d) && ReleasesLive(p, a.log, d.log)
    ensures Grew(c, Everything, a.log, d.log) && OwnershipKept(m, p, c, a.world, d.world) && a.log <= b.log <= d.log
  {
    hide Env, ReleasesLive, OwnershipKept, Stays, Follows;
    NoRelease(m, p, c, b, d);
    ReleasesLiveChain(p, a.log, b.log, d.log);
    Chain(m, p, c, Everything, a, Everything, b, NoReleases, d);
  }

  lemma NoCall(p: Params, c: NamespacedName, log: seq<Event>)
    ensures Grew(c, Everything, log, log) && ReleasesLive(p, log, log)
  {
  }

  /** The first phase of a deployment. */
  lemma OnlyAccess(m: Mode, p: Params, c: NamespacedName, a: Moment, b: Moment)
    requires Progressed(m, p, c, One(AccessKey(c)), a, b)
    ensures Progressed(m, p, c, Everything, a, b) && ReleasesLive(p, a.log, b.log)
    ensures !m.Free? && SourcesUnmarked(a.world, c) ==> SourcesUnmarked(b.world, c)
  {
    hide Progressed, SourcesUnmarked;
    Widen(m, p, c, One(AccessKey(c)), Everything, a, b);
    Widen(m, p, c, One(AccessKey(c)), NoReleases, a, b);
    NoRelease(m, p, c, a, b);
    if !m.Free? && SourcesUnmarked(a.world, c) { SourcesStayUnmarked(m, p, c, One(AccessKey(c)), a, b); }
  }

  lemma SameElsewhere(p: Params, c: NamespacedName, config: Config, service: Service, w: World, v: World)
    requires forall k :: k != AccessKey(c) ==> Lookup(v, k) == Lookup(w, k)
    ensures SourcesSpared(p, c, config, service, w) ==> SourcesSpared(p, c, config, service, v)
    ensures Deployable(p, c, config, service, w) ==> Deployable(p, c, config, service, v)
  {
    hide SourcesSpared, Deployable;
    if SourcesSpared(p, c, config, service, w) { StillSpared(p, c, config, service, w, v); }
    if Deployable(p, c, config, service, w) { StillDeployable(p, c, config, service, w, v); }
  }

  lemma LastCall(p: Params, c: NamespacedName, first: seq<Event>, second: seq<Event>, third: seq<Event>)
    requires Grew(c, Everything, first, second) && ReleasesLive(p, first, second) && Grew(c, Nobody, second, third)
    ensures Grew(c, Everything, first, third) && ReleasesLive(p, first, third)
  {
    hide Grew, ReleasesLive;
    GrewChain(c, first, second, third);
    GrewNothing(p, c, second, third);
    ReleasesLiveChain(p, first, second, third);
  }

  /** A phase that leaves the AccessRequest alone: access stays live, or comes no further away from its end. */
  lemma AccessStaysAlong(m: Mode, p: Params, c: NamespacedName, s: Scope, a: Moment, b: Moment, torn: bool)
    requires Progressed(m, p, c, s, a, b) && !InScope(s, AccessKey(c)) && HasFinalizer(a.world, c)
    ensures !m.Free? ==> AccessStage(torn, b.world, c) <= AccessStage(torn, a.world, c)
    ensures !m.Free? && AccessLive(a.world, c) ==> AccessLive(b.world, c)
    ensures a.log <= b.log
  {
    if !m.Free? { assert Stays(p, a.world, b.world, AccessKey(c)); }
    hide Follows, OwnershipKept;
  }

  lemma KeepsCluster(m: Mode, p: Params, c: NamespacedName, s: Scope, a: Moment, b: Moment)
    requires Progressed(m, p, c, s, a, b)
    ensures ClusterKept(m, c, a.world, b.world) && a.log <= b.log
  {
  }

  lemma StaysGone(p: Params, c: NamespacedName, w: World, v: World)
    requires Shrunk(p, c, w, v)
    ensures ReleaseAbsent(w, c) ==> ReleaseAbsent(v, c)
  {
  }

  lemma FirstCallStays(m: Mode, p: Params, c: NamespacedName, k: Key, a: Moment, b: Moment, d: Moment)
    requires Progressed(m, p, c, One(k), b, d)
    ensures |a.log| < |b.log| ==> |a.log| < |d.log| && d.log[|a.log|] == b.log[|a.log|]
  {
  }

  lemma UsableIsLive(c: NamespacedName, w: World)
    ensures Usable(w, c) ==> AccessLive(w, c)
  {
  }

  lemma GrantIsKept(m: Mode, p: Params, c: NamespacedName, w: World, v: World)
    requires Env(m, p, w, v) && !m.Free? && AccessKey(c) in w.objs && !w.objs[AccessKey(c)].terminating
             && IsGranted(w.objs[AccessKey(c)])
    ensures AccessKey(c) in v.objs && IsGranted(v.objs[AccessKey(c)])
  {
    EnvKeepsGrant(m, p, c, w, v);
  }

  /**
  One round of a teardown: neither the HelmRelease nor access is further from its end than before; and if neither has
  come closer, the round had to wait for Flux to remove the HelmRelease, or for access to be granted or removed.
   */
  predicate Advances(releaseBefore: nat, accessBefore: nat, release: nat, access: nat) {
    && release <= releaseBefore && access <= accessBefore
    && (release == releaseBefore && access == accessBefore ==> release == 1 || (release == 0 && access % 2 == 1))
  }

  /** The HelmRelease is being deleted; or it is gone, and access is requested or being deleted. */
  predicate Stalled(w: World, c: NamespacedName) {
    || TerminatingOf(Lookup(w, ReleaseKey(c)))
    || (ReleaseAbsent(w, c) && AccessKey(c) in w.objs && !Usable(w, c))
  }

  lemma NothingMoved(c: NamespacedName, torn: bool, w: World)
    requires ReleaseStage(w, c) == 1 || (ReleaseStage(w, c) == 0 && AccessStage(torn, w, c) % 2 == 1)
    ensures Stalled(w, c)
  {
  }

  lemma StageAtMost(torn: bool, w: World, c: NamespacedName)
    ensures AccessStage(torn, w, c) <= 5
  {
  }

  /** No Flux source of the Cluster and no access to it is still on its way out. */
  predicate Calm(w: World, c: NamespacedName) {
    SourcesUnmarked(w, c) && !TerminatingOf(Lookup(w, AccessKey(c)))
  }

  /** One reconcile: the world in which it began, and its calls. */
  datatype Round = Round(cluster: NamespacedName, begin: World, calls: seq<Event>)

  ghost function AllCalls(rounds: seq<Round>): seq<Event> {
    if rounds == [] then [] else AllCalls(rounds[..|rounds| - 1]) + rounds[|rounds| - 1].calls
  }

  /** Rounds for a Cluster that carries the finalizer, the first of which began in this world. */
  ghost predicate Successive(c: NamespacedName, start: World, rounds: seq<Round>) {
    && (rounds != [] ==> rounds[0].begin == start)
    && forall i :: 0 <= i < |rounds| ==> rounds[i].cluster == c && HasFinalizer(rounds[i].begin, c)
  }

  predicate RoundBlocked(r: Round) {
    HasFinalizer(r.begin, r.cluster) && Blocked(r.begin.clusters[r.cluster], r.calls, 0)
  }

  predicate RoundDeploys(r: Round) {
    HasFinalizer(r.begin, r.cluster) && !RoundBlocked(r) && Deploys(r.begin.clusters[r.cluster], r.calls, 0)
  }

  ghost predicate NeverDeploys(rounds: seq<Round>) {
    forall i :: 0 <= i < |rounds| ==> !RoundDeploys(rounds[i])
  }

  /** Neither the HelmRelease nor access has come closer to its end, and one of them waits for somebody else's move. */
  predicate Stuck(w: World, v: World, c: NamespacedName) {
    && ReleaseStage(v, c) == ReleaseStage(w, c) && AccessStage(false, v, c) == AccessStage(false, w, c)
    && Stalled(v, c)
  }

  /** Whether a round that ended in w was blocked or had to wait. */
  ghost function Delay(r: Round, w: World): nat {
    if RoundBlocked(r) || Stuck(r.begin, w, r.cluster) then 1 else 0
  }

  /** The number of rounds, the last of which ended in w, that were blocked or had to wait. */
  ghost function Delays(rounds: seq<Round>, w: World): nat {
    if rounds == [] then 0
    else
      var last := rounds[|rounds| - 1];
      Delays(rounds[..|rounds| - 1], last.begin) + Delay(last, w)
  }

  lemma AccessTurnOf(s: Setting, c: NamespacedName, requeue: bool, x: Stretch, e: Moment, f: Moment)
    requires AccessTurn(s, c, requeue, x.From(e)) && x.a.world == e.world && x.a.log <= e.log && (x.b == f || !requeue)
    ensures AccessTurn(s, c, requeue, x.(b := f))
  {
  }

  lemma StillClung(s: Setting, c: NamespacedName, x: Stretch)
    requires HasFinalizer(x.b.world, c)
    ensures Clung(s, c, x)
  {
  }

  lemma PausedAtRelease(s: Setting, c: NamespacedName, x: Stretch)
    requires Progressed(s.mode, s.p, c, One(ReleaseKey(c)), x.a, x.b) && HasFinalizer(x.a.world, c) && x.gone == x.torn
    requires !ReleaseAbsent(x.a.world, c)
             && (ReleaseAbsent(x.b.world, c) || TerminatingOf(Lookup(x.b.world, ReleaseKey(c))))
    ensures Paused(s, c, x)
  {
    AccessStaysAlong(s.mode, s.p, c, One(ReleaseKey(c)), x.a, x.b, x.torn);
    KeepsCluster(s.mode, s.p, c, One(ReleaseKey(c)), x.a, x.b);
    hide AccessStage;
  }

  lemma PausedAtAccess(s: Setting, c: NamespacedName, x: Stretch, e: Moment)
    requires Progressed(s.mode, s.p, c, One(ReleaseKey(c)), x.a, e) && Progressed(s.mode, s.p, c, Everything, x.a, x.b)
    requires HasFinalizer(x.a.world, c) && ReleaseAbsent(e.world, c) && ReleaseAbsent(x.b.world, c)
    requires e.log < x.b.log && Awaits(x.b.log[|x.b.log| - 1], c)
    requires var y := x.From(e);
             !s.mode.Free? && s.promise.Progressive(BeingDeleted(e.world, c)) ==>
               y.After(c) <= y.Before(c) && (y.After(c) < y.Before(c) || y.After(c) % 2 == 1)
    ensures Paused(s, c, x)
  {
    AccessStaysAlong(s.mode, s.p, c, One(ReleaseKey(c)), x.a, e, x.torn);
    KeepsCluster(s.mode, s.p, c, One(ReleaseKey(c)), x.a, e);
    StillDeleted(s.mode, c, x.a.world, e.world);
    KeepsCluster(s.mode, s.p, c, Everything, x.a, x.b);
    hide AccessStage, Awaits;
  }

  lemma UndoneAtRelease(s: Setting, c: NamespacedName, r: ReconcileResult, x: Stretch)
    requires Progressed(s.mode, s.p, c, One(ReleaseKey(c)), x.a, x.b) && HasFinalizer(x.a.world, c) && x.gone == x.torn
             && r.Stop()
    requires r.requeue ==>
               !ReleaseAbsent(x.a.world, c)
               && (ReleaseAbsent(x.b.world, c) || TerminatingOf(Lookup(x.b.world, ReleaseKey(c))))
    requires s.reliable && OwnedOrAbsent(s.p, c, x.a.world, ReleaseKey(c)) ==> r.error.None?
    ensures Undone(s, c, r, x)
  {
    KeepsCluster(s.mode, s.p, c, One(ReleaseKey(c)), x.a, x.b);
    hide Progressed, Paused, AccessTurn, Usable, AccessLive, TerminatingOf;
    if r.requeue { PausedAtRelease(s, c, x); }
    StillClung(s, c, x);
  }

  /** After the HelmRelease was found to be gone at e. */
  lemma UndoneAtAccess(s: Setting, c: NamespacedName, r: ReconcileResult, x: Stretch, e: Moment)
    requires Progressed(s.mode, s.p, c, One(ReleaseKey(c)), x.a, e) && Progressed(s.mode, s.p, c, Everything, x.a, x.b)
    requires HasFinalizer(x.a.world, c) && ReleaseAbsent(e.world, c) && ReleaseAbsent(x.b.world, c)
    requires s.mode.Quiet? ==> e.world == x.a.world
    requires s.reliable && !s.mode.Free? ==> r.error.None?
    requires r.requeue ==> e.log < x.b.log && Awaits(x.b.log[|x.b.log| - 1], c)
    requires var y := x.From(e);
             r.requeue && !s.mode.Free? && s.promise.Progressive(BeingDeleted(e.world, c)) ==>
               y.After(c) <= y.Before(c) && (y.After(c) < y.Before(c) || y.After(c) % 2 == 1)
    requires !s.mode.Free? && s.promise.held == Some(true) && AccessLive(e.world, c) ==> r.Stop()
    requires s.mode.Quiet? && !r.Stop() ==> (r.access <==> Usable(e.world, c))
    requires s.mode.Quiet? && s.reliable ==> AccessTurn(s, c, r.requeue, x.From(e))
    ensures Undone(s, c, r, x)
  {
    AccessStaysAlong(s.mode, s.p, c, One(ReleaseKey(c)), x.a, e, x.torn);
    KeepsCluster(s.mode, s.p, c, One(ReleaseKey(c)), x.a, e);
    KeepsCluster(s.mode, s.p, c, Everything, x.a, x.b);
    hide Progressed, Paused, AccessTurn, Usable, AccessLive, TerminatingOf, Awaits, AccessStage;
    if r.requeue { PausedAtAccess(s, c, x, e); }
    if s.mode.Quiet? && s.reliable { AccessTurnOf(s, c, r.requeue, x, e, x.b); }
    StillClung(s, c, x);
  }

  /** The finalizer, which was all that was left, comes off or stays on. */
  lemma UndoneAtEnd(s: Setting, c: NamespacedName, before: ReconcileResult, x: Stretch, after: ReconcileResult,
                    y: Stretch)
    requires Undone(s, c, before, x) && !before.Stop() && after == before.(error := after.error) && x.a.log <= x.b.log
    requires y.a == x.a && y.torn == x.torn && (s.reliable ==> after.error.None?)
    requires !s.mode.Free? && s.promise.Clinging() ==> s.promise.steady && BeingDeleted(x.b.world, c)
    requires !HasFinalizer(y.b.world, c) ==>
               |y.b.log| == |x.b.log| + 1
               && y.b.log[|x.b.log|] == Event(c, RemoveFinalizer, x.b.world, y.b.log[|x.b.log|].post)
    ensures Undone(s, c, after, y)
  {
    hide Paused, Clung, Usable, AccessLive;
    ClungToTheEnd(s, c, y, x.b);
  }

  /** The finalizer came off at the end. */
  lemma ClungToTheEnd(s: Setting, c: NamespacedName, x: Stretch, e: Moment)
    requires x.a.log <= e.log
    requires !HasFinalizer(x.b.world, c) ==>
               |x.b.log| == |e.log| + 1 && x.b.log[|e.log|] == Event(c, RemoveFinalizer, e.world, x.b.log[|e.log|].post)
    ensures s.promise.steady && BeingDeleted(e.world, c) ==> Clung(s, c, x)
  {
  }

  lemma SameObjectSameUse(c: NamespacedName, w: World, v: World)
    ensures v.objs == w.objs ==> (Usable(v, c) <==> Usable(w, c))
  {
  }

  lemma StillDeleted(m: Mode, c: NamespacedName, w: World, v: World)
    requires ClusterKept(m, c, w, v) && HasFinalizer(w, c)
    ensures BeingDeleted(w, c) ==> BeingDeleted(v, c)
  {
  }

  /** The calls of a round say the same as the log. */
  lemma AsLogged(cluster: Cluster, log: seq<Event>, at: nat)
    requires at <= |log|
    ensures Blocked(cluster, log, at) <==> Blocked(cluster, log[at..], 0)
    ensures Deploys(cluster, log, at) <==> Deploys(cluster, log[at..], 0)
  {
    var calls := log[at..];
    assert forall i :: at <= i < |log| ==> calls[i - at] == log[i];
    assert ReadAt(cluster, at) == ReadAt(cluster, 0) + at;
    hide Choice, EffectiveOperation;
  }

  lemma RoundAdded(c: NamespacedName, start: World, rounds: seq<Round>, r: Round, w: World)
    requires Successive(c, start, rounds) && r.cluster == c && HasFinalizer(r.begin, c)
             && (rounds == [] ==> r.begin == start)
    ensures Successive(c, start, rounds + [r]) && AllCalls(rounds + [r]) == AllCalls(rounds) + r.calls
    ensures NeverDeploys(rounds + [r]) <==> NeverDeploys(rounds) && !RoundDeploys(r)
    ensures Delays(rounds + [r], w) == Delays(rounds, r.begin) + Delay(r, w)
  {
    hide HasFinalizer, RoundBlocked, RoundDeploys, Stuck;
    var more := rounds + [r];
    assert more[..|more| - 1] == rounds && more[|more| - 1] == r;
    assert forall i :: 0 <= i < |rounds| ==> more[i] == rounds[i];
  }

  /** Rounds of a teardown so far: what they were, and how far they have come. */
  ghost predicate TearingDown(s: Setting, c: NamespacedName, x: Stretch, rounds: seq<Round>,
                              known: set<NamespacedName>) {
    && x.b.log == x.a.log + AllCalls(rounds) && Successive(c, x.a.world, rounds)
    && (if rounds == [] then x.b == x.a else HasFinalizer(x.a.world, c))
    && (rounds != [] && !HasFinalizer(x.b.world, c) ==> c !in known)
    && (HasFinalizer(x.b.world, c) ==> OwnedOrAbsent(s.p, c, x.b.world, ReleaseKey(c)))
    && (BeingDeleted(x.a.world, c) ==>
          NeverDeploys(rounds) && (HasFinalizer(x.b.world, c) ==> BeingDeleted(x.b.world, c)))
    && (s.promise.Progressive(BeingDeleted(x.a.world, c)) && HasFinalizer(x.b.world, c) && NeverDeploys(rounds) ==>
          |rounds| + ReleaseStage(x.b.world, c) + x.After(c)
          <= Delays(rounds, x.b.world) + ReleaseStage(x.a.world, c) + x.Before(c))
    && (s.promise.Clinging() && HasFinalizer(x.a.world, c) ==> Clung(s, c, x))
  }

  lemma TearingDownMeans(s: Setting, c: NamespacedName, x: Stretch, rounds: seq<Round>, known: set<NamespacedName>)
    requires TearingDown(s, c, x, rounds, known)
    ensures x.b.log == x.a.log + AllCalls(rounds) && Successive(c, x.a.world, rounds)
    ensures rounds != [] && !HasFinalizer(x.b.world, c) ==> c !in known
    ensures BeingDeleted(x.a.world, c) ==> NeverDeploys(rounds)
    ensures s.promise.Progressive(BeingDeleted(x.a.world, c)) && HasFinalizer(x.b.world, c) && NeverDeploys(rounds) ==>
              |rounds| <= Delays(rounds, x.b.world) + ReleaseStage(x.a.world, c) + x.Before(c)
    ensures s.promise.Clinging() && HasFinalizer(x.a.world, c) ==> Clung(s, c, x)
  {
    hide Clung, AllCalls, Delays, NeverDeploys, Successive;
  }

  lemma SetOut(s: Setting, c: NamespacedName, x: Stretch, known: set<NamespacedName>)
    requires x.b == x.a && x.gone == x.torn && OwnedOrAbsent(s.p, c, x.a.world, ReleaseKey(c))
    ensures TearingDown(s, c, x, [], known)
  {
  }

  lemma GoOn(s: Setting, c: NamespacedName, x: Stretch, rounds: seq<Round>, known: set<NamespacedName>, reply: Reply,
             y: Stretch, r: Round)
    requires TearingDown(s, c, x, rounds, known) && HasFinalizer(x.b.world, c) && s.reliable && !s.mode.Free?
    requires y.a == x.a && y.torn == x.torn && x.b.log <= y.b.log && r == Round(c, x.b.world, y.b.log[|x.b.log|..])
    requires Conducted(s, c, x.b.world.clusters[c], reply, Stretch(x.b, x.gone, y.b, y.gone))
    ensures TearingDown(s, c, y, rounds + [r], reply.known)
  {
    hide Blocked, Deploys, Stalled, AccessStage, Conducted, Successive, AllCalls, Delays, NeverDeploys, Stuck;
    var z := Stretch(x.b, x.gone, y.b, y.gone);
    AsLogged(r.begin.clusters[c], y.b.log, |x.b.log|);
    RoundAdded(c, x.a.world, rounds, r, y.b.world);
    OneRound(s, c, r, reply, z);
    NoLossOfGrip(s, c, x.b.world.clusters[c], reply, z, y);
  }

  lemma NoLossOfGrip(s: Setting, c: NamespacedName, cluster: Cluster, reply: Reply, x: Stretch, y: Stretch)
    requires Conducted(s, c, cluster, reply, x) && cluster.finalizer && |y.a.log| <= |x.a.log| && y.b == x.b
    ensures s.promise.Clinging() && !s.mode.Free? ==> Clung(s, c, y)
  {
    hide HeldUp, Handled, Blocked, Deploys;
  }

  /** What a round that does not fail leaves for the next one. */
  lemma OneRound(s: Setting, c: NamespacedName, r: Round, reply: Reply, x: Stretch)
    requires r.cluster == c && r.begin == x.a.world && HasFinalizer(r.begin, c) && s.reliable && !s.mode.Free?
    requires Conducted(s, c, r.begin.clusters[c], reply, x) && OwnedOrAbsent(s.p, c, r.begin, ReleaseKey(c))
    requires RoundBlocked(r) <==> Blocked(r.begin.clusters[c], x.b.log, |x.a.log|)
    requires !RoundBlocked(r) ==> (RoundDeploys(r) <==> Deploys(r.begin.clusters[c], x.b.log, |x.a.log|))
    ensures HasFinalizer(x.b.world, c) ==>
              ClusterKept(s.mode, c, r.begin, x.b.world) && OwnedOrAbsent(s.p, c, x.b.world, ReleaseKey(c))
    ensures !HasFinalizer(x.b.world, c) ==> c !in reply.known
    ensures BeingDeleted(r.begin, c) ==> !RoundDeploys(r)
    ensures HasFinalizer(x.b.world, c) && !RoundDeploys(r) && s.promise.Progressive(BeingDeleted(r.begin, c)) ==>
              1 + ReleaseStage(x.b.world, c) + x.After(c)
              <= ReleaseStage(r.begin, c) + x.Before(c) + Delay(r, x.b.world)
  {
    hide Blocked, Stalled, AccessStage, EffectiveOperation;
    if RoundBlocked(r) {
      ReadsBefore(s.mode, s.p, c, x.torn, x.a, x.b);
      ReadsKeep(s.mode, s.p, c, x.a, x.b);
    } else if reply.requeue && ReleaseStage(x.b.world, c) == ReleaseStage(r.begin, c) && x.After(c) == x.Before(c) {
      if !RoundDeploys(r) && s.promise.Progressive(BeingDeleted(r.begin, c)) { NothingMoved(c, x.gone, x.b.world); }
      SameStage(c, x.torn, x.gone, r.begin, x.b.world);
    }
    hide Progressed;
  }

  lemma SameStage(c: NamespacedName, before: bool, after: bool, w: World, v: World)
    requires AccessStage(after, v, c) == AccessStage(before, w, c)
    ensures AccessStage(false, v, c) == AccessStage(false, w, c)
  {
  }
}
