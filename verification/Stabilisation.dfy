/** Repeated successful reconciles with the same inputs come to rest after two, not always after one. */
module Stabilisation {
  import opened Prelude
  import opened StorageClusters
  import opened Phases
  import opened OperatorConfig
  import opened Convergence
  import opened Pipeline
  import opened Monitoring

  // ---- what a phase leaves alone ----

  lemma OwnedIsApplied(p: Phase, inputs: Inputs, x: Cluster)
    requires OwnsOne(p)
    ensures Apply(p, inputs, x) == ApplyOwned(p, inputs, x)
  {
  }

  lemma SpecialsLeaveObjects(q: Phase, inputs: Inputs, x: Cluster)
    requires !OwnsOne(q) && !q.CSVs? && Apply(q, inputs, x).Some?
    ensures Apply(q, inputs, x).value.owned == x.owned && Apply(q, inputs, x).value.csvs == x.csvs
  {
  }

  lemma EffectOnOthersObjects(q: Phase, p: Phase, inputs: Inputs, x: Cluster)
    requires p != q && Apply(q, inputs, x).Some?
    ensures var y := Apply(q, inputs, x).value;
            && Lookup(y.owned, p) == Lookup(x.owned, p)
            && ProxyImage(y.csvs) == ProxyImage(x.csvs)
  {
    if q.CSVs? {
      ConfiguringKeepsTheDeployer(x.csvs);
    } else if OwnsOne(q) {
      OwnedIsApplied(q, inputs, x);
    } else {
      SpecialsLeaveObjects(q, inputs, x);
    }
  }

  lemma OwnedRespected(q: Phase, p: Phase, inputs: Inputs, x: Cluster)
    requires OwnsOne(p) && p != q && PhaseStable(p, inputs, x) && Apply(q, inputs, x).Some?
    ensures PhaseStable(p, inputs, Apply(q, inputs, x).value)
  {
    var y := Apply(q, inputs, x).value;
    OwnedIsApplied(p, inputs, x);
    OwnedIsApplied(p, inputs, y);
    EffectOnOthersObjects(q, p, inputs, x);
    if !Skipped(p, inputs) {
      var r := Wanted(p, inputs, WantedSpec(p, inputs, x.csvs).value, Lookup(x.owned, p));
      assert x.owned[p := r][p] == r;
      assert Lookup(y.owned, p) == Some(r);
      assert y.owned[p := r] == y.owned;
    }
  }

  lemma EnsuredAfterLabels(ms: map<string, Monitor>, name: string, owner: nat, spec: string)
    requires Ensured(ms, name, owner, spec) == ms
    ensures Ensured(LabelAll(ms), name, owner, spec) == LabelAll(ms)
  {
    assert ms[name] == Ensured(ms, name, owner, spec)[name];
    assert name in ms && LabelAll(ms)[name].owner == owner && LabelAll(ms)[name].spec == spec;
  }

  /** Only the phase that labels everything can be given work by another phase. */
  lemma PhaseRespects(q: Phase, p: Phase, inputs: Inputs, x: Cluster)
    requires p != q && !p.MonitoringResources?
    requires PhaseStable(p, inputs, x) && Apply(q, inputs, x).Some?
    ensures PhaseStable(p, inputs, Apply(q, inputs, x).value)
  {
    var y := Apply(q, inputs, x).value;
    if OwnsOne(p) {
      OwnedRespected(q, p, inputs, x);
    } else if q.MonitoringResources? {
      if p.DMSPrometheusRule? {
        EnsuredAfterLabels(x.rules, DMS_RULE, inputs.owner, inputs.specs[p]);
      } else if p.K8SMetricsServiceMonitor? {
        EnsuredAfterLabels(x.serviceMonitors, K8S_MONITOR, inputs.owner, inputs.specs[p]);
      }
    } else {
      PartsAreDisjoint(q, p, inputs, x);
      StabilityIsLocal(p, inputs, x, y);
    }
  }

  /** The part of the cluster a phase without an object of its own works on. */
  predicate SamePart(p: Phase, x: Cluster, y: Cluster) {
    match p
    case ODFSubscription => y.subscriptions == x.subscriptions
    case RookCephOperatorConfig => y.rookConfig == x.rookConfig
    case StorageClusterPhase => y.storageCluster == x.storageCluster
    case CSVs => y.csvs == x.csvs
    case K8SMetricsServiceMonitor => y.serviceMonitors == x.serviceMonitors
    case MonitoringResources =>
      y.podMonitors == x.podMonitors && y.serviceMonitors == x.serviceMonitors && y.rules == x.rules
    case DMSPrometheusRule => y.rules == x.rules
    case OCSInitialization => y.cephTools == x.cephTools
    case _ => y.owned == x.owned && y.csvs == x.csvs
  }

  lemma PartsAreDisjoint(q: Phase, p: Phase, inputs: Inputs, x: Cluster)
    requires p != q && !OwnsOne(p) && !p.MonitoringResources? && !q.MonitoringResources?
    requires Apply(q, inputs, x).Some?
    ensures SamePart(p, x, Apply(q, inputs, x).value)
  {
    if OwnsOne(q) {
      OwnedIsApplied(q, inputs, x);
    }
  }

  lemma StabilityIsLocal(p: Phase, inputs: Inputs, x: Cluster, y: Cluster)
    requires !OwnsOne(p) && PhaseStable(p, inputs, x) && SamePart(p, x, y)
    ensures PhaseStable(p, inputs, y)
  {
  }

  // ---- the pipeline in its order ----

  const MONITORING := 13
  const DMS := 14

  function StepAt(inputs: Inputs, i: nat): Cluster -> Option<Cluster>
    requires i < |PHASES|
  {
    x => Apply(PHASES[i], inputs, x)
  }

  function Steps(inputs: Inputs): seq<Cluster -> Option<Cluster>> {
    seq(|PHASES|, i requires 0 <= i < |PHASES| => StepAt(inputs, i))
  }

  function Level(i: nat): nat {
    if i == MONITORING then 1 else 0
  }

  lemma StepsAreIdempotent(inputs: Inputs, i: nat)
    requires i < PHASE_COUNT
    ensures Idempotent(Steps(inputs)[i])
  {
    var step := Steps(inputs)[i];
    forall x | step(x).Some?
      ensures Stable(step, step(x).value)
    {
      PhaseIsIdempotent(PHASES[i], inputs, x);
    }
  }

  lemma DifferentPhases(i: nat, j: nat)
    requires i < PHASE_COUNT && j < PHASE_COUNT && i != j && Level(i) <= Level(j)
    ensures PHASES[i] != PHASES[j] && !PHASES[i].MonitoringResources?
  {
    PhaseTable();
    assert PHASES[MONITORING] == MonitoringResources;
  }

  lemma StepsRespect(inputs: Inputs, i: nat, j: nat)
    requires i < PHASE_COUNT && j < PHASE_COUNT && i != j && Level(i) <= Level(j)
    ensures Respects(Steps(inputs)[j], Steps(inputs)[i])
  {
    DifferentPhases(i, j);
    var p, q := PHASES[i], PHASES[j];
    var first, second := Steps(inputs)[i], Steps(inputs)[j];
    forall x | Stable(first, x) && second(x).Some?
      ensures Stable(first, second(x).value)
    {
      PhaseRespects(q, p, inputs, x);
    }
  }

  lemma StepsAreLayered(inputs: Inputs)
    ensures Layered(Steps(inputs), Level)
  {
    var steps := Steps(inputs);
    forall i | 0 <= i < |steps|
      ensures Idempotent(steps[i])
    {
      StepsAreIdempotent(inputs, i);
    }
    forall i: nat, j: nat | i < |steps| && j < |steps| && i != j && Level(i) <= Level(j)
      ensures Respects(steps[j], steps[i])
    {
      StepsRespect(inputs, i, j);
    }
  }

  predicate AllLabelled(x: Cluster) {
    && (forall n :: n in x.podMonitors ==> HasLabel(x.podMonitors[n]))
    && (forall n :: n in x.serviceMonitors ==> HasLabel(x.serviceMonitors[n]))
    && (forall n :: n in x.rules ==> HasLabel(x.rules[n]))
  }

  lemma LabelledIff(ms: map<string, Monitor>)
    ensures LabelAll(ms) == ms <==> forall n :: n in ms ==> HasLabel(ms[n])
  {
    if LabelAll(ms) == ms {
      forall n | n in ms
        ensures HasLabel(ms[n])
      {
        assert LabelAll(ms)[n] == ms[n];
      }
    } else if forall n :: n in ms ==> HasLabel(ms[n]) {
      forall n | n in ms
        ensures LabelAll(ms)[n] == ms[n]
      {
        assert Labelled(ms[n].labels) == ms[n].labels;
      }
      assert false;
    }
  }

  lemma MonitoringPlaces()
    ensures |PHASES| > DMS
    ensures PHASES[MONITORING] == MonitoringResources && PHASES[DMS] == DMSPrometheusRule
    ensures PHASES[12] == K8SMetricsServiceMonitor
    ensures forall i :: 0 <= i < |PHASES| && i != 12 && i != MONITORING && i != DMS ==> !WritesMonitors(PHASES[i])
  {
  }

  lemma StableAt(inputs: Inputs, i: nat, y: Cluster)
    requires i < |PHASES| && AllStable(Steps(inputs), y)
    ensures PhaseStable(PHASES[i], inputs, y)
  {
    assert Stable(Steps(inputs)[i], y);
  }

  lemma LabellingIsDone(inputs: Inputs, y: Cluster)
    requires PhaseStable(MonitoringResources, inputs, y)
    ensures LabelAll(y.podMonitors) == y.podMonitors
    ensures LabelAll(y.serviceMonitors) == y.serviceMonitors && LabelAll(y.rules) == y.rules
  {
  }

  lemma OwnMonitorsAreThere(inputs: Inputs, y: Cluster)
    requires PhaseStable(DMSPrometheusRule, inputs, y) && PhaseStable(K8SMetricsServiceMonitor, inputs, y)
    ensures DMS_RULE in y.rules && K8S_MONITOR in y.serviceMonitors
  {
  }

  lemma SettledMonitors(inputs: Inputs, y: Cluster)
    requires PhaseStable(MonitoringResources, inputs, y)
    requires PhaseStable(DMSPrometheusRule, inputs, y) && PhaseStable(K8SMetricsServiceMonitor, inputs, y)
    ensures AllLabelled(y) && DMS_RULE in y.rules && K8S_MONITOR in y.serviceMonitors
  {
    LabellingIsDone(inputs, y);
    OwnMonitorsAreThere(inputs, y);
    LabelledIff(y.podMonitors);
    LabelledIff(y.serviceMonitors);
    LabelledIff(y.rules);
  }

  /** Whatever the cluster looks like: after two successful reconciles a third one changes nothing, and
      every monitor and every rule, the dead man's snitch rule included, carries the label. */
  lemma TwoPassesSettle(inputs: Inputs, x: Cluster)
    requires Passes(Steps(inputs), x, 2).Some?
    ensures var y := Passes(Steps(inputs), x, 2).value;
            && Pass(Steps(inputs), y) == Some(y)
            && AllLabelled(y)
            && DMS_RULE in y.rules && K8S_MONITOR in y.serviceMonitors
  {
    StepsAreLayered(inputs);
    LayeredStepsConverge(Steps(inputs), Level, 2, x);
    var y := Passes(Steps(inputs), x, 2).value;
    MonitoringPlaces();
    StableAt(inputs, 12, y);
    StableAt(inputs, MONITORING, y);
    StableAt(inputs, DMS, y);
    SettledMonitors(inputs, y);
  }

  // ---- reconciles that fail on the way ----

  /** The two phases that make several updates may fail between them; the others fail without a change. */
  ghost predicate TornPhase(p: Phase, x: Cluster, y: Cluster) {
    match p
    case CSVs => y == x.(csvs := y.csvs) && PartlyConfigured(x.csvs, y.csvs)
    case MonitoringResources =>
      && y == x.(podMonitors := y.podMonitors, serviceMonitors := y.serviceMonitors, rules := y.rules)
      && PartlyLabelled(x.podMonitors, y.podMonitors) && PartlyLabelled(x.serviceMonitors, y.serviceMonitors)
      && PartlyLabelled(x.rules, y.rules)
    case _ => y == x
  }

  lemma LabelledStaysLabelled(before: map<string, Monitor>, after: map<string, Monitor>)
    requires LabelAll(before) == before && PartlyLabelled(before, after)
    ensures after == before
  {
    forall n | n in before
      ensures after[n] == before[n]
    {
      assert LabelAll(before)[n] == before[n];
    }
  }

  lemma ConfiguredStaysConfigured(before: seq<CSV>, after: seq<CSV>)
    requires ConfiguredCSVs(before) == before && PartlyConfigured(before, after)
    ensures after == before
  {
    forall i | 0 <= i < |before|
      ensures after[i] == before[i]
    {
      assert ConfiguredCSVs(before)[i] == before[i];
    }
  }

  lemma TornPhaseWithNothingToDo(p: Phase, inputs: Inputs, x: Cluster, y: Cluster)
    requires TornPhase(p, x, y) && PhaseStable(p, inputs, x)
    ensures y == x
  {
    if p.CSVs? {
      ConfiguredStaysConfigured(x.csvs, y.csvs);
    } else if p.MonitoringResources? {
      LabellingIsDone(inputs, x);
      LabelledStaysLabelled(x.podMonitors, y.podMonitors);
      LabelledStaysLabelled(x.serviceMonitors, y.serviceMonitors);
      LabelledStaysLabelled(x.rules, y.rules);
    }
  }

  lemma EnsuredAfterSomeLabels(before: map<string, Monitor>, after: map<string, Monitor>, name: string, owner: nat,
                               spec: string)
    requires Ensured(before, name, owner, spec) == before && PartlyLabelled(before, after)
    ensures Ensured(after, name, owner, spec) == after
  {
    assert before[name] == Ensured(before, name, owner, spec)[name];
    assert name in after && after[name].owner == owner && after[name].spec == spec;
  }

  lemma TornLabelsRespect(p: Phase, inputs: Inputs, x: Cluster, y: Cluster)
    requires !p.MonitoringResources? && TornPhase(MonitoringResources, x, y) && PhaseStable(p, inputs, x)
    ensures PhaseStable(p, inputs, y)
  {
    if OwnsOne(p) {
      OwnedIsApplied(p, inputs, x);
      OwnedIsApplied(p, inputs, y);
    } else if p.DMSPrometheusRule? {
      EnsuredAfterSomeLabels(x.rules, y.rules, DMS_RULE, inputs.owner, inputs.specs[p]);
    } else if p.K8SMetricsServiceMonitor? {
      EnsuredAfterSomeLabels(x.serviceMonitors, y.serviceMonitors, K8S_MONITOR, inputs.owner, inputs.specs[p]);
    } else {
      StabilityIsLocal(p, inputs, x, y);
    }
  }

  lemma TornCSVsRespect(p: Phase, inputs: Inputs, x: Cluster, y: Cluster)
    requires !p.CSVs? && TornPhase(CSVs, x, y) && PhaseStable(p, inputs, x)
    ensures PhaseStable(p, inputs, y)
  {
    if OwnsOne(p) {
      PartlyConfiguringKeepsTheDeployer(x.csvs, y.csvs);
      OwnedIsApplied(p, inputs, x);
      OwnedIsApplied(p, inputs, y);
    } else {
      StabilityIsLocal(p, inputs, x, y);
    }
  }

  /** What a phase leaves behind when it fails gives no other phase work, but for the labelling one. */
  lemma TornPhaseRespects(q: Phase, p: Phase, inputs: Inputs, x: Cluster, y: Cluster)
    requires p != q && !p.MonitoringResources? && TornPhase(q, x, y) && PhaseStable(p, inputs, x)
    ensures PhaseStable(p, inputs, y)
  {
    if q.CSVs? {
      TornCSVsRespect(p, inputs, x, y);
    } else if q.MonitoringResources? {
      TornLabelsRespect(p, inputs, x, y);
    }
  }

  ghost predicate TornStep(n: nat, x: Cluster, y: Cluster) {
    n < |PHASES| && TornPhase(PHASES[n], x, y)
  }

  lemma TornStepsAreHarmless(inputs: Inputs)
    ensures Harmless(Steps(inputs), Level, TornStep)
  {
    var steps := Steps(inputs);
    forall n, x, y | 0 <= n < |steps| && TornStep(n, x, y) && Stable(steps[n], x)
      ensures y == x
    {
      TornPhaseWithNothingToDo(PHASES[n], inputs, x, y);
    }
    forall n: nat, i: nat, x, y | n < |steps| && i < |steps| && i != n && Level(i) <= Level(n)
                                  && TornStep(n, x, y) && Stable(steps[i], x)
      ensures Stable(steps[i], y)
    {
      DifferentPhases(i, n);
      TornPhaseRespects(PHASES[n], PHASES[i], inputs, x, y);
    }
  }

  /** Reconciles that fail on the way do no harm, between two phases or in the middle of one: two successful ones are
      enough, whatever others came before, between and after them. */
  lemma InterruptedPassesSettle(inputs: Inputs, x: Cluster, attempts: seq<Attempt<Cluster>>)
    requires AfterAttempts(Steps(inputs), TornStep, x, attempts).Some?
    requires 2 <= WholePasses(attempts)
    ensures var y := AfterAttempts(Steps(inputs), TornStep, x, attempts).value;
            && Pass(Steps(inputs), y) == Some(y)
            && AllLabelled(y)
            && DMS_RULE in y.rules && K8S_MONITOR in y.serviceMonitors
  {
    StepsAreLayered(inputs);
    TornStepsAreHarmless(inputs);
    AttemptsConverge(Steps(inputs), Level, TornStep, 2, x, attempts);
    var y := AfterAttempts(Steps(inputs), TornStep, x, attempts).value;
    MonitoringPlaces();
    StableAt(inputs, 12, y);
    StableAt(inputs, MONITORING, y);
    StableAt(inputs, DMS, y);
    SettledMonitors(inputs, y);
  }

  // ---- when a reconcile succeeds ----

  lemma SpecialSucceedsAlike(q: Phase, p: Phase, inputs: Inputs, x: Cluster)
    requires p != q && !OwnsOne(p) && Apply(q, inputs, x).Some?
    ensures Apply(p, inputs, Apply(q, inputs, x).value).Some? <==> Apply(p, inputs, x).Some?
  {
    if !p.MonitoringResources? && !q.MonitoringResources? {
      PartsAreDisjoint(q, p, inputs, x);
    }
  }

  lemma OwnedSucceedsAlike(q: Phase, p: Phase, inputs: Inputs, x: Cluster)
    requires p != q && OwnsOne(p) && Apply(q, inputs, x).Some?
    ensures Apply(p, inputs, Apply(q, inputs, x).value).Some? <==> Apply(p, inputs, x).Some?
  {
    var y := Apply(q, inputs, x).value;
    OwnedIsApplied(p, inputs, x);
    OwnedIsApplied(p, inputs, y);
    EffectOnOthersObjects(q, p, inputs, x);
  }

  lemma StepsAreIndependent(inputs: Inputs)
    ensures Independent(Steps(inputs))
  {
    var steps := Steps(inputs);
    forall i, j, x | 0 <= i < |steps| && 0 <= j < |steps| && steps[j](x).Some?
      ensures steps[i](steps[j](x).value).Some? <==> steps[i](x).Some?
    {
      var p, q := PHASES[i], PHASES[j];
      if p == q {
        PhaseIsIdempotent(p, inputs, x);
      } else if OwnsOne(p) {
        OwnedSucceedsAlike(q, p, inputs, x);
      } else {
        SpecialSucceedsAlike(q, p, inputs, x);
      }
    }
  }

  /** A reconcile succeeds exactly if each of its phases would succeed at its start: no phase is in the way of a
      later one, and none prepares the ground for it. Hence one success is followed by another. */
  lemma ReconcileSucceedsIff(inputs: Inputs, x: Cluster)
    ensures Pass(Steps(inputs), x).Some? <==> forall i :: 0 <= i < PHASE_COUNT ==> Steps(inputs)[i](x).Some?
    ensures Pass(Steps(inputs), x).Some? ==> Pass(Steps(inputs), Pass(Steps(inputs), x).value).Some?
  {
    var steps := Steps(inputs);
    StepsAreIndependent(inputs);
    assert steps[0..] == steps;
    PassSucceedsIff(steps, 0, x);
    if Pass(steps, x).Some? {
      PassSucceedsAgain(steps, x);
    }
  }

  // ---- one pass ----

  lemma PassUnfolds(inputs: Inputs, x: Cluster, n: nat)
    requires n < |PHASES|
    ensures Pass(Steps(inputs)[n..], x) ==
            match Apply(PHASES[n], inputs, x)
            case None => None
            case Some(y) => Pass(Steps(inputs)[n + 1..], y)
  {
    var rest := Steps(inputs)[n..];
    assert rest[0] == StepAt(inputs, n) && rest[1..] == Steps(inputs)[n + 1..];
  }

  predicate WritesMonitors(p: Phase) {
    p.MonitoringResources? || p.DMSPrometheusRule? || p.K8SMetricsServiceMonitor?
  }

  lemma OwnedLeavesMonitors(p: Phase, inputs: Inputs, x: Cluster)
    requires OwnsOne(p) && Apply(p, inputs, x).Some?
    ensures SameMonitors(x, Apply(p, inputs, x).value)
  {
    OwnedIsApplied(p, inputs, x);
  }

  lemma OthersLeaveMonitors(p: Phase, inputs: Inputs, x: Cluster)
    requires !WritesMonitors(p) && Apply(p, inputs, x).Some?
    ensures SameMonitors(x, Apply(p, inputs, x).value)
  {
    if OwnsOne(p) {
      OwnedLeavesMonitors(p, inputs, x);
    }
  }

  predicate SameMonitors(x: Cluster, y: Cluster) {
    y.podMonitors == x.podMonitors && y.serviceMonitors == x.serviceMonitors && y.rules == x.rules
  }

  /** What a pass that is about to run phase `n` makes of the monitors and rules. */
  predicate MonitorsBecome(inputs: Inputs, n: nat, x: Cluster, y: Cluster) {
    if n > DMS then SameMonitors(x, y)
    else
      && DMSPrometheusRule in inputs.specs
      && (n == DMS ==>
            && y.podMonitors == x.podMonitors && y.serviceMonitors == x.serviceMonitors
            && y.rules == Ensured(x.rules, DMS_RULE, inputs.owner, inputs.specs[DMSPrometheusRule]))
      && (n < DMS ==>
            && y.podMonitors == LabelAll(x.podMonitors)
            && y.rules == Ensured(LabelAll(x.rules), DMS_RULE, inputs.owner, inputs.specs[DMSPrometheusRule]))
      && (n == MONITORING ==> y.serviceMonitors == LabelAll(x.serviceMonitors))
      && (n < MONITORING ==>
            && K8SMetricsServiceMonitor in inputs.specs
            && y.serviceMonitors == LabelAll(Ensured(x.serviceMonitors, K8S_MONITOR, inputs.owner,
                                                     inputs.specs[K8SMetricsServiceMonitor])))
  }

  lemma MonitorsStep(inputs: Inputs, n: nat, p: Phase, x: Cluster, y: Cluster)
    requires Apply(p, inputs, x).Some?
    requires n == 12 ==> p == K8SMetricsServiceMonitor
    requires n == MONITORING ==> p == MonitoringResources
    requires n == DMS ==> p == DMSPrometheusRule
    requires n != 12 && n != MONITORING && n != DMS ==> !WritesMonitors(p)
    requires MonitorsBecome(inputs, n + 1, Apply(p, inputs, x).value, y)
    ensures MonitorsBecome(inputs, n, x, y)
  {
    if !WritesMonitors(p) {
      OthersLeaveMonitors(p, inputs, x);
    }
  }

  lemma {:induction false} MonitorsAfter(inputs: Inputs, x: Cluster, n: nat)
    requires n <= |PHASES| && Pass(Steps(inputs)[n..], x).Some?
    ensures MonitorsBecome(inputs, n, x, Pass(Steps(inputs)[n..], x).value)
    decreases |PHASES| - n
  {
    MonitoringPlaces();
    if n < |PHASES| {
      PassUnfolds(inputs, x, n);
      var z := Apply(PHASES[n], inputs, x).value;
      MonitorsAfter(inputs, z, n + 1);
      MonitorsStep(inputs, n, PHASES[n], x, Pass(Steps(inputs)[n..], x).value);
    }
  }

  /** One successful reconcile is enough exactly if the dead man's snitch rule was there before it: the
      phase that creates the rule comes after the one that labels the rules, and adds no label. */
  lemma OnePassSettlesIff(inputs: Inputs, x: Cluster)
    requires Pass(Steps(inputs), x).Some?
    ensures var y := Pass(Steps(inputs), x).value;
            Pass(Steps(inputs), y) == Some(y) <==> DMS_RULE in x.rules
  {
    var steps := Steps(inputs);
    assert steps[0..] == steps;
    var y := Pass(steps, x).value;
    MonitorsAfter(inputs, x, 0);
    LabelAllTwice(x.podMonitors);
    LabelAllTwice(Ensured(x.serviceMonitors, K8S_MONITOR, inputs.owner, inputs.specs[K8SMetricsServiceMonitor]));
    LabelledIff(y.rules);
    LabelledIff(LabelAll(x.rules));
    LabelAllTwice(x.rules);
    if DMS_RULE in x.rules {
      assert HasLabel(LabelAll(x.rules)[DMS_RULE]);
      EverythingElseSettles(inputs, x);
      PassOfStableSteps(steps, y);
    } else if Pass(steps, y) == Some(y) {
      MonitorsAfter(inputs, y, 0);
      LabelledIff(LabelAll(y.rules));
      LabelAllTwice(y.rules);
      assert false;
    }
  }

  /** The operators are installed, and nothing has been reconciled yet. */
  function FreshNamespace(): Cluster {
    var manager := Deployment(CONTROLLER_MANAGER, Some(1), [Container(PROXY, "image", "")]);
    var deployer := CSV(Server.DEPLOYER, [manager]);
    Cluster([Subscription(ODF_PACKAGE, "stable-4.10")], Some(map[]), None, [deployer],
            map[], map[], map[], [], map[])
  }

  function SimpleInputs(): Inputs {
    Inputs(1, Consumer, Untouched, map[], true, true, map p: Phase | p in PHASES :: "spec")
  }

  /** Nothing is in the way of a first reconcile. */
  predicate Fresh(inputs: Inputs, x: Cluster) {
    && WithODFChannel(x.subscriptions).Some? && x.rookConfig.Some? && ProxyImage(x.csvs).Some?
    && x.storageCluster.None? && WithStorageCluster(inputs, None).Some?
    && x.serviceMonitors == map[] && x.rules == map[] && x.owned == map[]
  }

  lemma FreshPhaseSucceeds(p: Phase, inputs: Inputs, x: Cluster)
    requires Fresh(inputs, x) && p in inputs.specs
    ensures Apply(p, inputs, x).Some?
  {
    if OwnsOne(p) {
      OwnedIsApplied(p, inputs, x);
    }
  }

  lemma FreshNamespaceIsFresh()
    ensures Fresh(SimpleInputs(), FreshNamespace())
  {
    var x := FreshNamespace();
    DeployerIsFound(x.csvs[0]);
    assert x.csvs == [x.csvs[0]];
  }

  lemma DeployerIsFound(csv: CSV)
    requires HasPrefix(csv.name, Server.DEPLOYER)
    requires |csv.deployments| == 1 && csv.deployments[0].name == CONTROLLER_MANAGER
    ensures ProxyImage([csv]).Some?
  {
    assert FirstCSV([csv], Server.DEPLOYER) == Some(csv);
  }

  /** In a fresh namespace a reconcile succeeds, and the next one still has something to do. */
  lemma OnePassIsNotEnough()
    ensures var steps, x := Steps(SimpleInputs()), FreshNamespace();
            && Pass(steps, x).Some?
            && Pass(steps, Pass(steps, x).value).Some?
            && Pass(steps, Pass(steps, x).value) != Pass(steps, x)
  {
    var steps, x := Steps(SimpleInputs()), FreshNamespace();
    FreshNamespaceIsFresh();
    forall i | 0 <= i < PHASE_COUNT
      ensures steps[i](x).Some?
    {
      FreshPhaseSucceeds(PHASES[i], SimpleInputs(), x);
    }
    ReconcileSucceedsIff(SimpleInputs(), x);
    OnePassSettlesIff(SimpleInputs(), x);
  }

  lemma MonitoringIsStable(inputs: Inputs, y: Cluster)
    requires LabelAll(y.podMonitors) == y.podMonitors && LabelAll(y.serviceMonitors) == y.serviceMonitors
    requires LabelAll(y.rules) == y.rules
    ensures Stable(StepAt(inputs, MONITORING), y)
  {
    MonitoringPlaces();
  }

  lemma EverythingElseSettles(inputs: Inputs, x: Cluster)
    requires Pass(Steps(inputs), x).Some?
    ensures var y := Pass(Steps(inputs), x).value;
            (LabelAll(y.podMonitors) == y.podMonitors && LabelAll(y.serviceMonitors) == y.serviceMonitors
             && LabelAll(y.rules) == y.rules) ==> AllStable(Steps(inputs), y)
  {
    var steps := Steps(inputs);
    var y := Pass(steps, x).value;
    StepsAreLayered(inputs);
    assert Passes(steps, x, 0) == Some(x) && Passes(steps, x, 1) == Some(y);
    PassesSettleLevels(steps, Level, x, 1);
    if LabelAll(y.podMonitors) == y.podMonitors && LabelAll(y.serviceMonitors) == y.serviceMonitors
       && LabelAll(y.rules) == y.rules {
      MonitoringIsStable(inputs, y);
      forall i | 0 <= i < |steps|
        ensures Stable(steps[i], y)
      {
        assert i != MONITORING ==> Level(i) < 1;
      }
    }
  }
}
