/** The resource phases as steps on the cluster, and why running them over and over comes to rest. */
module Pipeline {
  import opened Prelude
  import opened StorageClusters
  import opened Phases
  import opened OperatorConfig

  const MON_LABEL_KEY := "app"
  const MON_LABEL_VALUE := "managed-ocs"
  const ODF_PACKAGE := "odf-operator"
  const ODF_CHANNEL := "stable-4.11"
  const DMS_RULE := "dms-monitor-rule"
  const K8S_MONITOR := "k8s-metrics-service-monitor"

  datatype Subscription = Subscription(package: string, channel: string)

  /** A PodMonitor, ServiceMonitor or PrometheusRule. Owner 0 is none. */
  datatype Monitor = Monitor(owner: nat, labels: map<string, string>, spec: string)

  datatype Resource = Resource(owner: nat, labels: map<string, string>, annotations: map<string, string>, spec: string)

  datatype OwnedStorageCluster = OwnedStorageCluster(owner: nat, spec: StorageClusterSpec)

  datatype Cluster = Cluster(
    subscriptions: seq<Subscription>,
    rookConfig: Option<map<string, string>>,
    storageCluster: Option<OwnedStorageCluster>,
    csvs: seq<CSV>,
    podMonitors: map<string, Monitor>,
    serviceMonitors: map<string, Monitor>,
    rules: map<string, Monitor>,
    cephTools: seq<bool>,              // spec.enableCephTools of the OCSInitializations
    owned: map<Phase, Resource>)       // the one object of each of the other phases

  /** What the phases read but never write. The wanted spec of a phase is missing when working it out
      fails, for a secret that cannot be read for example. */
  datatype Inputs = Inputs(
    owner: nat,
    deployment: DeploymentType,
    strategy: Strategy,
    params: Params,
    egressFirewallCRD: bool,
    egressNetworkPolicyCRD: bool,
    specs: map<Phase, string>)

  function Labelled(labels: map<string, string>): map<string, string> {
    labels[MON_LABEL_KEY := MON_LABEL_VALUE]
  }

  predicate HasLabel(m: Monitor) {
    MON_LABEL_KEY in m.labels && m.labels[MON_LABEL_KEY] == MON_LABEL_VALUE
  }

  function LabelAll(ms: map<string, Monitor>): map<string, Monitor> {
    map n | n in ms :: ms[n].(labels := Labelled(ms[n].labels))
  }

  // ---- the phases ----

  /** The phases that own exactly one object and rewrite its spec. */
  predicate OwnsOne(p: Phase) {
    !(p.ODFSubscription? || p.RookCephOperatorConfig? || p.StorageClusterPhase? || p.CSVs?
      || p.K8SMetricsServiceMonitor? || p.MonitoringResources? || p.DMSPrometheusRule? || p.OCSInitialization?)
  }

  predicate Skipped(p: Phase, inputs: Inputs) {
    match p
    case OnboardingValidationSecret => !inputs.deployment.Provider?
    case CSIKMSConnectionDetails => !inputs.deployment.Consumer?
    case ProviderAPIServerNetworkPolicy => !inputs.deployment.Provider?
    case EgressFirewall => !inputs.egressFirewallCRD
    case EgressNetworkPolicy => !inputs.egressNetworkPolicyCRD
    case _ => false
  }

  predicate AddsLabel(p: Phase) {
    p.PrometheusService? || p.PrometheusPhase? || p.AlertmanagerPhase? || p.AlertmanagerConfig?
  }

  const SERVING_CERT := map[
    "service.beta.openshift.io/serving-cert-secret-name" := "prometheus-serving-cert-secret",
    "service.alpha.openshift.io/serving-cert-secret-name" := "prometheus-serving-cert-secret"]

  /** The wanted spec; Prometheus takes the image of its proxy from the deployer CSV. */
  function WantedSpec(p: Phase, inputs: Inputs, csvs: seq<CSV>): Option<string> {
    if p !in inputs.specs then None
    else if p.PrometheusPhase? then
      match ProxyImage(csvs)
      case None => None
      case Some(image) => Some(inputs.specs[p] + image)
    else Some(inputs.specs[p])
  }

  function Wanted(p: Phase, inputs: Inputs, spec: string, existing: Option<Resource>): Resource {
    var r := if existing.Some? then existing.value else Resource(0, map[], map[], "");
    r.(owner := inputs.owner,
       spec := spec,
       labels := if AddsLabel(p) then Labelled(r.labels) else r.labels,
       annotations := if p.PrometheusService? then r.annotations + SERVING_CERT else r.annotations)
  }

  function Lookup<K, V>(m: map<K, V>, k: K): Option<V> {
    if k in m then Some(m[k]) else None
  }

  /** An object can be controlled by one owner only: taking it from somebody else fails. */
  predicate MayOwn(owner: nat, current: nat) {
    current == 0 || current == owner
  }

  predicate MayOwnIn(owner: nat, ms: map<string, Monitor>, name: string) {
    name in ms ==> MayOwn(owner, ms[name].owner)
  }

  function ApplyOwned(p: Phase, inputs: Inputs, x: Cluster): Option<Cluster> {
    if Skipped(p, inputs) then Some(x)
    else if p in x.owned && !MayOwn(inputs.owner, x.owned[p].owner) then None
    else match WantedSpec(p, inputs, x.csvs)
         case None => None
         case Some(spec) => Some(x.(owned := x.owned[p := Wanted(p, inputs, spec, Lookup(x.owned, p))]))
  }

  /** Owner and spec are set; the labels stay, and a new object has none. */
  function Ensured(ms: map<string, Monitor>, name: string, owner: nat, spec: string): map<string, Monitor> {
    ms[name := Monitor(owner, if name in ms then ms[name].labels else map[], spec)]
  }

  function FirstPackage(subs: seq<Subscription>, package: string): Option<nat>
    ensures FirstPackage(subs, package).Some? ==> FirstPackage(subs, package).value < |subs|
  {
    if subs == [] then None
    else if subs[0].package == package then Some(0)
    else match FirstPackage(subs[1..], package)
         case None => None
         case Some(i) => Some(i + 1)
  }

  function WithODFChannel(subs: seq<Subscription>): Option<seq<Subscription>> {
    match FirstPackage(subs, ODF_PACKAGE)
    case None => None
    case Some(i) => Some(subs[i := subs[i].(channel := ODF_CHANNEL)])
  }

  function WithStorageCluster(inputs: Inputs, sc: Option<OwnedStorageCluster>): Option<OwnedStorageCluster> {
    if sc.Some? && !MayOwn(inputs.owner, sc.value.owner) then None
    else match Mutated(inputs.deployment, inputs.strategy, inputs.params, if sc.Some? then sc.value.spec else BLANK)
         case Err(_) => None
         case Ok(spec) => Some(OwnedStorageCluster(inputs.owner, spec))
  }

  /** Only the first OCSInitialization is looked at, if there is any. */
  function WithCephTools(inits: seq<bool>): seq<bool> {
    if inits == [] then [] else inits[0 := true]
  }

  /** One phase; nothing if it fails. */
  function Apply(p: Phase, inputs: Inputs, x: Cluster): Option<Cluster> {
    match p
    case ODFSubscription =>
      (match WithODFChannel(x.subscriptions)
       case None => None
       case Some(subs) => Some(x.(subscriptions := subs)))
    case RookCephOperatorConfig =>
      (match x.rookConfig
       case None => None
       case Some(data) => Some(x.(rookConfig := Some(data + RookSettings(inputs.deployment)))))
    case StorageClusterPhase =>
      (match WithStorageCluster(inputs, x.storageCluster)
       case None => None
       case Some(sc) => Some(x.(storageCluster := Some(sc))))
    case CSVs => Some(x.(csvs := ConfiguredCSVs(x.csvs)))
    case K8SMetricsServiceMonitor =>
      if p !in inputs.specs || !MayOwnIn(inputs.owner, x.serviceMonitors, K8S_MONITOR) then None
      else Some(x.(serviceMonitors := Ensured(x.serviceMonitors, K8S_MONITOR, inputs.owner, inputs.specs[p])))
    case MonitoringResources =>
      Some(x.(podMonitors := LabelAll(x.podMonitors),
              serviceMonitors := LabelAll(x.serviceMonitors),
              rules := LabelAll(x.rules)))
    case DMSPrometheusRule =>
      if p !in inputs.specs || !MayOwnIn(inputs.owner, x.rules, DMS_RULE) then None
      else Some(x.(rules := Ensured(x.rules, DMS_RULE, inputs.owner, inputs.specs[p])))
    case OCSInitialization => Some(x.(cephTools := WithCephTools(x.cephTools)))
    case _ => ApplyOwned(p, inputs, x)
  }

  ghost predicate PhaseStable(p: Phase, inputs: Inputs, x: Cluster) {
    Apply(p, inputs, x) == Some(x)
  }

  // ---- every phase is idempotent ----

  lemma LabelAllTwice(ms: map<string, Monitor>)
    ensures LabelAll(LabelAll(ms)) == LabelAll(ms)
  {
    forall n | n in ms
      ensures LabelAll(LabelAll(ms))[n] == LabelAll(ms)[n]
    {
      assert Labelled(Labelled(ms[n].labels)) == Labelled(ms[n].labels);
    }
  }

  lemma {:induction false} ODFChannelTwice(subs: seq<Subscription>)
    requires WithODFChannel(subs).Some?
    ensures WithODFChannel(WithODFChannel(subs).value) == WithODFChannel(subs)
  {
    var i := FirstPackage(subs, ODF_PACKAGE).value;
    PackageKept(subs, i);
    var once := WithODFChannel(subs).value;
    assert once[i := once[i].(channel := ODF_CHANNEL)] == once;
  }

  lemma {:induction false} PackageKept(subs: seq<Subscription>, i: nat)
    requires FirstPackage(subs, ODF_PACKAGE) == Some(i)
    ensures FirstPackage(subs[i := subs[i].(channel := ODF_CHANNEL)], ODF_PACKAGE) == Some(i)
  {
    var once := subs[i := subs[i].(channel := ODF_CHANNEL)];
    if i > 0 {
      assert once[1..] == subs[1..][i - 1 := subs[1..][i - 1].(channel := ODF_CHANNEL)];
      PackageKept(subs[1..], i - 1);
    }
  }

  lemma WantedTwice(p: Phase, inputs: Inputs, spec: string, existing: Option<Resource>)
    ensures var r := Wanted(p, inputs, spec, existing); Wanted(p, inputs, spec, Some(r)) == r
  {
    var r := Wanted(p, inputs, spec, existing);
    assert Labelled(Labelled(r.labels)) == Labelled(r.labels);
  }

  lemma OwnedTwice(p: Phase, inputs: Inputs, x: Cluster)
    requires ApplyOwned(p, inputs, x).Some?
    ensures var y := ApplyOwned(p, inputs, x).value; ApplyOwned(p, inputs, y) == Some(y)
  {
    var y := ApplyOwned(p, inputs, x).value;
    if !Skipped(p, inputs) {
      var spec := WantedSpec(p, inputs, x.csvs).value;
      WantedTwice(p, inputs, spec, Lookup(x.owned, p));
      assert y.owned[p := y.owned[p]] == y.owned;
    }
  }

  lemma PhaseIsIdempotent(p: Phase, inputs: Inputs, x: Cluster)
    requires Apply(p, inputs, x).Some?
    ensures PhaseStable(p, inputs, Apply(p, inputs, x).value)
  {
    var y := Apply(p, inputs, x).value;
    if OwnsOne(p) {
      OwnedTwice(p, inputs, x);
    } else {
      match p
      case ODFSubscription => ODFChannelTwice(x.subscriptions);
      case RookCephOperatorConfig => RookTwice(x.rookConfig.value, inputs.deployment);
      case StorageClusterPhase =>
        MutatedIsIdempotent(inputs.deployment, inputs.strategy, inputs.params,
                            if x.storageCluster.Some? then x.storageCluster.value.spec else BLANK);
      case CSVs => ConfiguredCSVsTwice(x.csvs);
      case K8SMetricsServiceMonitor =>
        assert y.serviceMonitors[K8S_MONITOR := y.serviceMonitors[K8S_MONITOR]] == y.serviceMonitors;
      case MonitoringResources =>
        LabelAllTwice(x.podMonitors);
        LabelAllTwice(x.serviceMonitors);
        LabelAllTwice(x.rules);
      case DMSPrometheusRule => assert y.rules[DMS_RULE := y.rules[DMS_RULE]] == y.rules;
      case OCSInitialization => assert WithCephTools(WithCephTools(x.cephTools)) == WithCephTools(x.cephTools);
    }
  }
}
