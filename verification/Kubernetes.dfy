/** The API objects the controller works on, as values: clusters, managed objects and the provider's configuration. */
module Kubernetes {
  import opened Options
  import Selectors

  datatype NamespacedName = NamespacedName(namespace: string, name: string)

  datatype Kind =
    | HelmRelease | HelmRepository | GitRepository | OCIRepository
    | Secret | AccessRequest | Namespace

  /** The platform cluster, or the cluster that a Cluster resource stands for. */
  datatype Site = Platform | Target(cluster: NamespacedName)

  datatype Key = Key(site: Site, kind: Kind, namespace: string, name: string)

  type Labels = map<string, string>

  datatype Body =
    | SecretData(data: map<string, string>, secretType: string)
    | SourceSpec(spec: string)
    | Release(sourceKind: Kind, sourceNamespace: string, sourceName: string, values: string, kubeconfig: string)
    | Grant(granted: bool, kubeconfigSecret: string)
    | NoBody

  /** `terminating` stands for a set deletion timestamp: the object waits for somebody's finalizer. */
  datatype Obj = Obj(labels: Labels, annotations: Labels, terminating: bool, body: Body)

  /** `finalizer` is the DNS finalizer; the two operations are the DNS-specific and the generic annotation. */
  datatype Cluster = Cluster(
    finalizer: bool,
    deleting: bool,
    purposes: seq<string>,
    dnsOperation: Option<string>,
    operation: Option<string>)

  datatype SecretCopy = SecretCopy(source: string, target: Option<string>)
  datatype SecretsToCopy = SecretsToCopy(toPlatform: seq<SecretCopy>, toTarget: seq<SecretCopy>)
  datatype ChartSource = ChartSource(helm: Option<string>, git: Option<string>, oci: Option<string>)
  datatype PurposeConfig = PurposeConfig(selector: Option<Selectors.Requirement>, values: string)
  datatype Config = Config(
    source: ChartSource,
    secrets: Option<SecretsToCopy>,
    purposes: seq<PurposeConfig>)
  datatype Service = Service(pullSecrets: seq<string>)

  /** Everything the API servers hold. */
  datatype World = World(
    clusters: map<NamespacedName, Cluster>,
    objs: map<Key, Obj>,
    config: Option<Config>,
    service: Option<Service>)

  /**
  The identity a controller instance is started with, and the kind of Flux source that is ever configured, if it is
  fixed.
   */
  datatype Params = Params(providerName: string, providerNamespace: string, environment: string,
                           fixedKind: Option<Kind>)

  const MANAGED_BY := "openmcp.cloud/managed-by"
  const MANAGED_PURPOSE := "openmcp.cloud/managed-purpose"
  const CONTROLLER_NAME := "DNSCluster"
  const NAME_SUFFIX := ".external-dns"
  const TARGET_NAMESPACE := "external-dns"
  const NEW_NAMESPACE := Obj(map[], map[], false, NoBody)
  const OPERATION_IGNORE := "ignore"
  const OPERATION_RECONCILE := "reconcile"

  function ManagedByValue(p: Params): string { p.providerName + "." + CONTROLLER_NAME }

  function ExpectedLabels(p: Params, c: NamespacedName): Labels {
    map[MANAGED_BY := ManagedByValue(p), MANAGED_PURPOSE := c.name]
  }

  predicate Labelled(p: Params, c: NamespacedName, o: Obj) {
    && MANAGED_BY in o.labels && o.labels[MANAGED_BY] == ManagedByValue(p)
    && MANAGED_PURPOSE in o.labels && o.labels[MANAGED_PURPOSE] == c.name
  }

  /** The name of a Cluster's secondary resources. */
  function DerivedName(clusterName: string): string { clusterName + NAME_SUFFIX }

  predicate IsSourceKind(k: Kind) { k.HelmRepository? || k.GitRepository? || k.OCIRepository? }

  function ReleaseKey(c: NamespacedName): Key { Key(Platform, HelmRelease, c.namespace, DerivedName(c.name)) }

  function SourceKey(c: NamespacedName, kind: Kind): Key { Key(Platform, kind, c.namespace, DerivedName(c.name)) }

  function AccessKey(c: NamespacedName): Key { Key(Platform, AccessRequest, c.namespace, c.name) }

  function NamespaceKey(c: NamespacedName): Key { Key(Target(c), Namespace, "", TARGET_NAMESPACE) }

  function ProviderSecret(p: Params, name: string): Key { Key(Platform, Secret, p.providerNamespace, name) }

  /** The namespace that receives copied secrets on either cluster. */
  function CopyNamespace(c: NamespacedName, site: Site): string {
    if site.Platform? then c.namespace else TARGET_NAMESPACE
  }

  function CopyKey(c: NamespacedName, site: Site, name: string): Key {
    Key(site, Secret, CopyNamespace(c, site), name)
  }

  function Lookup(w: World, k: Key): Option<Obj> { if k in w.objs then Some(w.objs[k]) else None }

  function LabelsOf(o: Option<Obj>): Labels { if o.Some? then o.value.labels else map[] }

  function AnnotationsOf(o: Option<Obj>): Labels { if o.Some? then o.value.annotations else map[] }

  function TerminatingOf(o: Option<Obj>): bool { o.Some? && o.value.terminating }

  /** The mutation that copies a secret: right-biased merges, and the source's data and type as they are. */
  function CopyOf(current: Option<Obj>, source: Obj, expected: Labels): Obj {
    Obj(LabelsOf(current) + source.labels + expected,
        AnnotationsOf(current) + source.annotations,
        TerminatingOf(current),
        source.body)
  }

  /** The mutation for Flux sources and HelmReleases: labels are merged, the body is replaced. */
  function Deployed(current: Option<Obj>, body: Body, expected: Labels): Obj {
    Obj(LabelsOf(current) + expected, AnnotationsOf(current), TerminatingOf(current), body)
  }

  /** The kind of Flux source to deploy, by precedence helm, git, oci. */
  function SelectedKind(s: ChartSource): Option<Kind> {
    if s.helm.Some? then Some(HelmRepository)
    else if s.git.Some? then Some(GitRepository)
    else if s.oci.Some? then Some(OCIRepository)
    else None
  }

  lemma SelectedIsSource(s: ChartSource)
    ensures SelectedKind(s).Some? ==> IsSourceKind(SelectedKind(s).value)
  {
  }

  predicate KindFits(p: Params, kind: Kind) { p.fixedKind.Some? ==> kind == p.fixedKind.value }

  predicate ConfigFits(p: Params, config: Option<Config>) {
    p.fixedKind.Some? && config.Some? ==> SelectedKind(config.value.source) == p.fixedKind
  }

  /** Whether a configuration applies to a Cluster; one without selector applies to all. */
  predicate Selects(config: PurposeConfig, purposes: seq<string>) {
    config.selector.None? || Selectors.Matches(config.selector.value, purposes)
  }

  /** Some configuration applies to a Cluster with these purposes. */
  predicate Matched(config: Config, purposes: seq<string>) {
    exists i :: 0 <= i < |config.purposes| && Selects(config.purposes[i], purposes)
  }

  function SelectedSpec(s: ChartSource): string {
    if s.helm.Some? then s.helm.value
    else if s.git.Some? then s.git.value
    else if s.oci.Some? then s.oci.value
    else ""
  }
}
