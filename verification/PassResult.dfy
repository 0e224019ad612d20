/** What one successful pass of the resource phases makes of a cluster: the wanted state, and nothing else. */
module PassResult {
  import opened Prelude
  import opened StorageClusters
  import opened Phases
  import opened OperatorConfig
  import opened Convergence
  import opened Pipeline
  import opened Stabilisation

  // ---- the wanted state ----

  /** The phases with one object each. */
  const OBJECTS: set<Phase> := {
    OnboardingValidationSecret, CSIKMSConnectionDetails, AlertRelabelConfigSecret, PrometheusKubeRBACConfigMap,
    PrometheusService, PrometheusPhase, AlertmanagerPhase, AlertmanagerConfig, PrometheusProxyNetworkPolicy,
    EgressFirewall, EgressNetworkPolicy, IngressNetworkPolicy, CephIngressNetworkPolicy, ProviderAPIServerNetworkPolicy}

  /** Some objects are for one deployment type, or for clusters that have their kind. */
  predicate IsFor(p: Phase, inputs: Inputs) {
    && (p in {OnboardingValidationSecret, ProviderAPIServerNetworkPolicy} ==> inputs.deployment.Provider?)
    && (p == CSIKMSConnectionDetails ==> inputs.deployment.Consumer?)
    && (p == EgressFirewall ==> inputs.egressFirewallCRD)
    && (p == EgressNetworkPolicy ==> inputs.egressNetworkPolicyCRD)
  }

  /** A map with some entries set, and all others as they were. */
  predicate Sets(was: map<string, string>, now: map<string, string>, entries: map<string, string>) {
    && now.Keys == was.Keys + entries.Keys
    && forall k :: k in now ==> now[k] == if k in entries then entries[k] else was[k]
  }

  const APP_LABEL := map["app" := "managed-ocs"]
  const CERT_ANNOTATIONS := map[
    "service.beta.openshift.io/serving-cert-secret-name" := "prometheus-serving-cert-secret",
    "service.alpha.openshift.io/serving-cert-secret-name" := "prometheus-serving-cert-secret"]

  /** Owner and spec are written, four objects get the monitoring label, and one the certificate annotations. */
  predicate ObjectDone(p: Phase, inputs: Inputs, csvs: seq<CSV>, was: Option<Resource>, now: Option<Resource>) {
    && now.Some? && now.value.owner == inputs.owner
    && p in inputs.specs
    && (p != PrometheusPhase ==> now.value.spec == inputs.specs[p])
    && (p == PrometheusPhase ==>
          ProxyImage(csvs).Some? && now.value.spec == inputs.specs[p] + ProxyImage(csvs).value)
    && var labels := if was.Some? then was.value.labels else map[];
    && var annotations := if was.Some? then was.value.annotations else map[];
    && Sets(labels, now.value.labels,
            if p in {PrometheusService, PrometheusPhase, AlertmanagerPhase, AlertmanagerConfig}
            then APP_LABEL else map[])
    && Sets(annotations, now.value.annotations, if p == PrometheusService then CERT_ANNOTATIONS else map[])
  }

  /** The first subscription of the ODF operator is on the channel, and all else is as it was. */
  predicate SubscriptionsDone(was: seq<Subscription>, now: seq<Subscription>) {
    exists i :: 0 <= i < |was|
                && was[i].package == "odf-operator" && (forall j :: 0 <= j < i ==> was[j].package != "odf-operator")
                && now == was[i := was[i].(channel := "stable-4.11")]
  }

  predicate StorageClusterDone(inputs: Inputs, was: Option<OwnedStorageCluster>, now: Option<OwnedStorageCluster>) {
    var current := if was.Some? then was.value.spec else BLANK;
    && now.Some? && now.value.owner == inputs.owner
    && (inputs.strategy.Untouched? ==> now.value.spec == current)
    && (inputs.strategy.Strict? ==> DesiredSpec(inputs.deployment, inputs.params, current) == Ok(now.value.spec))
  }

  predicate CSVsDone(was: seq<CSV>, now: seq<CSV>) {
    |now| == |was| && forall i :: 0 <= i < |was| ==> CSVDone(was[i], now[i])
  }

  /** Only the first OCSInitialization is touched. */
  predicate ToolsDone(was: seq<bool>, now: seq<bool>) {
    && |now| == |was| && (was != [] ==> now[0])
    && forall i :: 0 < i < |was| ==> now[i] == was[i]
  }

  predicate LabelDone(was: Monitor, now: Monitor) {
    now == was.(labels := now.labels) && Sets(was.labels, now.labels, APP_LABEL)
  }

  predicate AllLabelDone(was: map<string, Monitor>, now: map<string, Monitor>) {
    now.Keys == was.Keys && forall n :: n in was ==> LabelDone(was[n], now[n])
  }

  // ---- one phase at a time ----

  /** The part of the cluster that phase p works on has become what p makes of it. The phases that work on monitors
      and rules are looked at together, below. */
  predicate Done(p: Phase, inputs: Inputs, x: Cluster, y: Cluster) {
    match p
    case ODFSubscription => SubscriptionsDone(x.subscriptions, y.subscriptions)
    case RookCephOperatorConfig =>
      x.rookConfig.Some? && y.rookConfig.Some? && RookDone(inputs.deployment, x.rookConfig.value, y.rookConfig.value)
    case StorageClusterPhase => StorageClusterDone(inputs, x.storageCluster, y.storageCluster)
    case CSVs => CSVsDone(x.csvs, y.csvs)
    case OCSInitialization => ToolsDone(x.cephTools, y.cephTools)
    case _ =>
      p in OBJECTS ==>
        if IsFor(p, inputs) then ObjectDone(p, inputs, x.csvs, Lookup(x.owned, p), Lookup(y.owned, p))
        else Lookup(y.owned, p) == Lookup(x.owned, p)
  }

  /** That part is as it was. */
  predicate Same(p: Phase, x: Cluster, y: Cluster) {
    match p
    case ODFSubscription => y.subscriptions == x.subscriptions
    case RookCephOperatorConfig => y.rookConfig == x.rookConfig
    case StorageClusterPhase => y.storageCluster == x.storageCluster
    case CSVs => y.csvs == x.csvs
    case OCSInitialization => y.cephTools == x.cephTools
    case _ => p in OBJECTS ==> Lookup(y.owned, p) == Lookup(x.owned, p)
  }

  lemma {:induction false} FirstPackageIsFirst(subs: seq<Subscription>, package: string)
    requires FirstPackage(subs, package).Some?
    ensures var i := FirstPackage(subs, package).value;
            subs[i].package == package && forall j :: 0 <= j < i ==> subs[j].package != package
  {
    if subs[0].package != package {
      FirstPackageIsFirst(subs[1..], package);
      var i := FirstPackage(subs, package).value;
      forall j | 0 <= j < i
        ensures subs[j].package != package
      {
        assert j > 0 ==> subs[1..][j - 1] == subs[j];
      }
    }
  }

  lemma LabelledMeaning(labels: map<string, string>)
    ensures Sets(labels, Labelled(labels), APP_LABEL)
  {
  }

  lemma MergedMeaning(was: map<string, string>, entries: map<string, string>)
    ensures Sets(was, was + entries, entries) && Sets(was, was, map[])
  {
  }

  lemma LabelTable(p: Phase)
    ensures AddsLabel(p) <==> p in {PrometheusService, PrometheusPhase, AlertmanagerPhase, AlertmanagerConfig}
  {
  }

  lemma WantedMeaning(p: Phase, inputs: Inputs, csvs: seq<CSV>, was: Option<Resource>)
    requires p in OBJECTS && WantedSpec(p, inputs, csvs).Some?
    ensures ObjectDone(p, inputs, csvs, was, Some(Wanted(p, inputs, WantedSpec(p, inputs, csvs).value, was)))
  {
    var labels := if was.Some? then was.value.labels else map[];
    var annotations := if was.Some? then was.value.annotations else map[];
    LabelTable(p);
    LabelledMeaning(labels);
    MergedMeaning(labels, map[]);
    MergedMeaning(annotations, SERVING_CERT);
  }

  lemma ObjectsAreOwned(p: Phase, inputs: Inputs)
    requires p in OBJECTS
    ensures OwnsOne(p) && !p.CSVs?
    ensures Skipped(p, inputs) <==> !IsFor(p, inputs)
  {
  }

  lemma DoneToAnObject(p: Phase, inputs: Inputs, x: Cluster, y: Cluster)
    requires p in OBJECTS && OwnsOne(p)
    requires IsFor(p, inputs) ==> ObjectDone(p, inputs, x.csvs, Lookup(x.owned, p), Lookup(y.owned, p))
    requires !IsFor(p, inputs) ==> Lookup(y.owned, p) == Lookup(x.owned, p)
    ensures Done(p, inputs, x, y)
  {
  }

  lemma OwnedMeaning(p: Phase, inputs: Inputs, x: Cluster)
    requires p in OBJECTS && !Skipped(p, inputs) && ApplyOwned(p, inputs, x).Some?
    ensures ObjectDone(p, inputs, x.csvs, Lookup(x.owned, p), Lookup(ApplyOwned(p, inputs, x).value.owned, p))
  {
    var spec := WantedSpec(p, inputs, x.csvs).value;
    WantedMeaning(p, inputs, x.csvs, Lookup(x.owned, p));
    assert Lookup(ApplyOwned(p, inputs, x).value.owned, p) == Some(Wanted(p, inputs, spec, Lookup(x.owned, p)));
  }

  lemma ObjectPhaseDoes(p: Phase, inputs: Inputs, x: Cluster)
    requires p in OBJECTS && Apply(p, inputs, x).Some?
    ensures Done(p, inputs, x, Apply(p, inputs, x).value)
  {
    ObjectsAreOwned(p, inputs);
    OwnedIsApplied(p, inputs, x);
    if !Skipped(p, inputs) {
      OwnedMeaning(p, inputs, x);
    }
    DoneToAnObject(p, inputs, x, Apply(p, inputs, x).value);
  }

  lemma PhaseDoes(p: Phase, inputs: Inputs, x: Cluster)
    requires Apply(p, inputs, x).Some?
    ensures Done(p, inputs, x, Apply(p, inputs, x).value)
  {
    if p in OBJECTS {
      ObjectPhaseDoes(p, inputs, x);
    } else {
      match p
      case ODFSubscription => FirstPackageIsFirst(x.subscriptions, ODF_PACKAGE);
      case RookCephOperatorConfig => RookSettingsMeaning(inputs.deployment, x.rookConfig.value);
      case CSVs =>
        forall i | 0 <= i < |x.csvs|
          ensures CSVDone(x.csvs[i], ConfiguredCSVs(x.csvs)[i])
        {
          ConfiguredCSVMeaning(x.csvs[i]);
        }
      case _ =>
    }
  }

  lemma PhaseLeaves(q: Phase, p: Phase, inputs: Inputs, x: Cluster)
    requires p != q && Apply(q, inputs, x).Some?
    ensures var z := Apply(q, inputs, x).value; Same(p, x, z) && ProxyImage(z.csvs) == ProxyImage(x.csvs)
  {
    EffectOnOthersObjects(q, p, inputs, x);
    if !OwnsOne(p) && !p.MonitoringResources? && !q.MonitoringResources? {
      PartsAreDisjoint(q, p, inputs, x);
    }
  }

  lemma DoneThenSame(p: Phase, inputs: Inputs, x: Cluster, z: Cluster, y: Cluster)
    requires Done(p, inputs, x, z) && Same(p, z, y)
    ensures Done(p, inputs, x, y)
  {
  }

  lemma SameThenDone(p: Phase, inputs: Inputs, x: Cluster, z: Cluster, y: Cluster)
    requires Same(p, x, z) && ProxyImage(z.csvs) == ProxyImage(x.csvs) && Done(p, inputs, z, y)
    ensures Done(p, inputs, x, y)
  {
  }

  // ---- the whole pass ----

  /** What a pass that is about to run phase n makes of the parts. */
  predicate Became(inputs: Inputs, n: nat, x: Cluster, y: Cluster) {
    forall i: nat :: i < |PHASES| ==> if i < n then Same(PHASES[i], x, y) else Done(PHASES[i], inputs, x, y)
  }

  lemma NothingIsLeft(inputs: Inputs, x: Cluster)
    ensures Pass(Steps(inputs)[|PHASES|..], x) == Some(x) && Became(inputs, |PHASES|, x, x)
  {
    assert Steps(inputs)[|PHASES|..] == [];
    forall i: nat | i < |PHASES|
      ensures Same(PHASES[i], x, x)
    {
      AlwaysSame(PHASES[i], x);
    }
  }

  lemma AlwaysSame(p: Phase, x: Cluster)
    ensures Same(p, x, x)
  {
  }

  lemma {:induction false} BecameAfter(inputs: Inputs, x: Cluster, n: nat)
    requires n <= |PHASES| && Pass(Steps(inputs)[n..], x).Some?
    ensures Became(inputs, n, x, Pass(Steps(inputs)[n..], x).value)
    decreases |PHASES| - n
  {
    if n == |PHASES| {
      NothingIsLeft(inputs, x);
    } else {
      PassUnfolds(inputs, x, n);
      var z := Apply(PHASES[n], inputs, x).value;
      BecameAfter(inputs, z, n + 1);
      PhaseDoes(PHASES[n], inputs, x);
      PartsBecame(inputs, n, x, z, Pass(Steps(inputs)[n..], x).value);
    }
  }

  lemma PartsBecame(inputs: Inputs, n: nat, x: Cluster, z: Cluster, y: Cluster)
    requires n < |PHASES| && Apply(PHASES[n], inputs, x) == Some(z) && Done(PHASES[n], inputs, x, z)
    requires Became(inputs, n + 1, z, y)
    ensures Became(inputs, n, x, y)
  {
    forall i: nat | i < |PHASES|
      ensures if i < n then Same(PHASES[i], x, y) else Done(PHASES[i], inputs, x, y)
    {
      PartBecame(inputs, n, i, x, z, y);
    }
  }

  lemma PartBecame(inputs: Inputs, n: nat, i: nat, x: Cluster, z: Cluster, y: Cluster)
    requires n < |PHASES| && i < |PHASES|
    requires Apply(PHASES[n], inputs, x) == Some(z) && Done(PHASES[n], inputs, x, z)
    requires if i < n + 1 then Same(PHASES[i], z, y) else Done(PHASES[i], inputs, z, y)
    ensures if i < n then Same(PHASES[i], x, y) else Done(PHASES[i], inputs, x, y)
  {
    if i == n {
      DoneThenSame(PHASES[n], inputs, x, z, y);
    } else {
      PhaseTable();
      PhaseLeaves(PHASES[n], PHASES[i], inputs, x);
      if n < i {
        SameThenDone(PHASES[i], inputs, x, z, y);
      }
    }
  }

  lemma EveryPhaseIsListed(p: Phase) returns (i: nat)
    ensures i < |PHASES| && PHASES[i] == p
  {
    assert p in PHASES;
    i :| i < |PHASES| && PHASES[i] == p;
  }

  /** After one successful pass every phase has done its part: what it is there for is as wanted, and the rest of the
      objects it works on is as it was. */
  lemma PassGivesTheWantedState(inputs: Inputs, x: Cluster, p: Phase)
    requires Pass(Steps(inputs), x).Some?
    ensures Done(p, inputs, x, Pass(Steps(inputs), x).value)
  {
    assert Steps(inputs)[0..] == Steps(inputs);
    BecameAfter(inputs, x, 0);
    var i := EveryPhaseIsListed(p);
  }

  /** And so it stays: whatever attempts came before, between and after, with two successful ones among them the
      cluster is the wanted one. */
  lemma SettledIsWanted(inputs: Inputs, x: Cluster, attempts: seq<Attempt<Cluster>>, p: Phase)
    requires AfterAttempts(Steps(inputs), TornStep, x, attempts).Some?
    requires 2 <= WholePasses(attempts)
    ensures var y := AfterAttempts(Steps(inputs), TornStep, x, attempts).value; Done(p, inputs, y, y)
  {
    InterruptedPassesSettle(inputs, x, attempts);
    PassGivesTheWantedState(inputs, AfterAttempts(Steps(inputs), TornStep, x, attempts).value, p);
  }

  // ---- monitors and rules ----

  /** The named one has owner, spec and labels, and all others have the label added. */
  predicate EnsuredAmong(was: map<string, Monitor>, now: map<string, Monitor>, name: string, monitor: Monitor) {
    && now.Keys == was.Keys + {name}
    && now[name] == monitor
    && forall n :: n in was && n != name ==> LabelDone(was[n], now[n])
  }

  function LabelsOf(ms: map<string, Monitor>, name: string): map<string, string> {
    if name in ms then ms[name].labels else map[]
  }

  lemma LabelAllMeaning(ms: map<string, Monitor>)
    ensures AllLabelDone(ms, LabelAll(ms))
  {
    forall n | n in ms
      ensures LabelDone(ms[n], LabelAll(ms)[n])
    {
      LabelledMeaning(ms[n].labels);
    }
  }

  lemma LabelledLast(ms: map<string, Monitor>, name: string, owner: nat, spec: string)
    ensures EnsuredAmong(ms, LabelAll(Ensured(ms, name, owner, spec)), name,
                         Monitor(owner, LabelsOf(ms, name)["app" := "managed-ocs"], spec))
  {
    LabelAllMeaning(ms);
    LabelAllMeaning(Ensured(ms, name, owner, spec));
  }

  lemma LabelledFirst(ms: map<string, Monitor>, name: string, owner: nat, spec: string)
    ensures EnsuredAmong(ms, Ensured(LabelAll(ms), name, owner, spec), name,
                         Monitor(owner, if name in ms then ms[name].labels["app" := "managed-ocs"] else map[], spec))
  {
    LabelAllMeaning(ms);
  }

  /** After one successful pass every monitor carries the label, the operator's own one too. Its rule does so only if
      it was there before; every other rule does. */
  lemma PassLabelsTheMonitors(inputs: Inputs, x: Cluster)
    requires Pass(Steps(inputs), x).Some?
    ensures var y := Pass(Steps(inputs), x).value;
            && K8SMetricsServiceMonitor in inputs.specs && DMSPrometheusRule in inputs.specs
            && AllLabelDone(x.podMonitors, y.podMonitors)
            && EnsuredAmong(x.serviceMonitors, y.serviceMonitors, "k8s-metrics-service-monitor",
                            Monitor(inputs.owner,
                                    LabelsOf(x.serviceMonitors, "k8s-metrics-service-monitor")["app" := "managed-ocs"],
                                    inputs.specs[K8SMetricsServiceMonitor]))
            && EnsuredAmong(x.rules, y.rules, "dms-monitor-rule",
                            Monitor(inputs.owner,
                                    if "dms-monitor-rule" in x.rules
                                    then x.rules["dms-monitor-rule"].labels["app" := "managed-ocs"] else map[],
                                    inputs.specs[DMSPrometheusRule]))
  {
    assert Steps(inputs)[0..] == Steps(inputs);
    MonitorsAfter(inputs, x, 0);
    LabelAllMeaning(x.podMonitors);
    LabelledLast(x.serviceMonitors, K8S_MONITOR, inputs.owner, inputs.specs[K8SMetricsServiceMonitor]);
    LabelledFirst(x.rules, DMS_RULE, inputs.owner, inputs.specs[DMSPrometheusRule]);
  }

  // ---- when a pass succeeds ----

  /** Nobody else controls the object. */
  predicate Free(inputs: Inputs, owner: nat) {
    owner == 0 || owner == inputs.owner
  }

  /** What phase p needs. */
  predicate Ready(p: Phase, inputs: Inputs, x: Cluster) {
    match p
    case ODFSubscription => exists s :: s in x.subscriptions && s.package == "odf-operator"
    case RookCephOperatorConfig => x.rookConfig.Some?
    case StorageClusterPhase =>
      && (x.storageCluster.Some? ==> Free(inputs, x.storageCluster.value.owner))
      && (inputs.strategy.Strict? ==> Readable(inputs.deployment, inputs.params))
    case CSVs => true
    case MonitoringResources => true
    case OCSInitialization => true
    case K8SMetricsServiceMonitor =>
      p in inputs.specs && ("k8s-metrics-service-monitor" in x.serviceMonitors ==>
        Free(inputs, x.serviceMonitors["k8s-metrics-service-monitor"].owner))
    case DMSPrometheusRule =>
      p in inputs.specs && ("dms-monitor-rule" in x.rules ==> Free(inputs, x.rules["dms-monitor-rule"].owner))
    case _ =>
      IsFor(p, inputs) ==>
        && p in inputs.specs && (p in x.owned ==> Free(inputs, x.owned[p].owner))
        && (p == PrometheusPhase ==> ProxyImage(x.csvs).Some?)
  }

  lemma {:induction false} PackageIsFound(subs: seq<Subscription>, package: string)
    ensures FirstPackage(subs, package).Some? <==> exists s :: s in subs && s.package == package
  {
    if subs != [] {
      PackageIsFound(subs[1..], package);
      assert subs == [subs[0]] + subs[1..];
      assert subs[0] in subs;
    }
  }

  lemma SpecIsFound(inputs: Inputs, current: StorageClusterSpec)
    ensures Mutated(inputs.deployment, inputs.strategy, inputs.params, current).Ok?
       <==> (inputs.strategy.Strict? ==> Readable(inputs.deployment, inputs.params))
  {
    if Sized(inputs.deployment) {
      SizedSpecMeaning(inputs.deployment, inputs.params, current);
    } else if inputs.deployment.Consumer? {
      ConsumerSpecMeaning(inputs.params, current, current);
    }
  }

  lemma ObjectSucceedsIff(p: Phase, inputs: Inputs, x: Cluster)
    requires p in OBJECTS
    ensures Apply(p, inputs, x).Some? <==>
      (IsFor(p, inputs) ==>
        && p in inputs.specs && (p in x.owned ==> Free(inputs, x.owned[p].owner))
        && (p == PrometheusPhase ==> ProxyImage(x.csvs).Some?))
  {
    ObjectsAreOwned(p, inputs);
    OwnedIsApplied(p, inputs, x);
  }

  lemma PhaseSucceedsIff(p: Phase, inputs: Inputs, x: Cluster)
    ensures Apply(p, inputs, x).Some? <==> Ready(p, inputs, x)
  {
    if p in OBJECTS {
      ObjectSucceedsIff(p, inputs, x);
    } else {
      PackageIsFound(x.subscriptions, ODF_PACKAGE);
      SpecIsFound(inputs, if x.storageCluster.Some? then x.storageCluster.value.spec else BLANK);
    }
  }

  /** A pass succeeds exactly if what each of its phases needs is there at its beginning. */
  lemma PassSucceedsIffReady(inputs: Inputs, x: Cluster)
    ensures Pass(Steps(inputs), x).Some? <==> forall p: Phase :: Ready(p, inputs, x)
  {
    ReconcileSucceedsIff(inputs, x);
    forall p: Phase
      ensures Ready(p, inputs, x) <==> Apply(p, inputs, x).Some?
    {
      PhaseSucceedsIff(p, inputs, x);
    }
    if forall i :: 0 <= i < PHASE_COUNT ==> Steps(inputs)[i](x).Some? {
      forall p: Phase
        ensures Apply(p, inputs, x).Some?
      {
        var i := EveryPhaseIsListed(p);
        assert Steps(inputs)[i](x).Some?;
      }
    } else {
      var i :| 0 <= i < PHASE_COUNT && Steps(inputs)[i](x).None?;
      assert !Ready(PHASES[i], inputs, x);
    }
  }
}
