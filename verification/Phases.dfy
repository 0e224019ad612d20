/** The resource phases of reconcilePhases, in the order they run. */
module Phases {
  datatype Phase =
    | ODFSubscription
    | RookCephOperatorConfig
    | OnboardingValidationSecret
    | StorageClusterPhase
    | CSVs
    | CSIKMSConnectionDetails
    | AlertRelabelConfigSecret
    | PrometheusKubeRBACConfigMap
    | PrometheusService
    | PrometheusPhase
    | AlertmanagerPhase
    | AlertmanagerConfig
    | K8SMetricsServiceMonitor
    | MonitoringResources
    | DMSPrometheusRule
    | OCSInitialization
    | PrometheusProxyNetworkPolicy
    | EgressFirewall
    | EgressNetworkPolicy
    | IngressNetworkPolicy
    | CephIngressNetworkPolicy
    | ProviderAPIServerNetworkPolicy

  const PHASES: seq<Phase> := [
    ODFSubscription,
    RookCephOperatorConfig,
    OnboardingValidationSecret,
    StorageClusterPhase,
    CSVs,
    CSIKMSConnectionDetails,
    AlertRelabelConfigSecret,
    PrometheusKubeRBACConfigMap,
    PrometheusService,
    PrometheusPhase,
    AlertmanagerPhase,
    AlertmanagerConfig,
    K8SMetricsServiceMonitor,
    MonitoringResources,
    DMSPrometheusRule,
    OCSInitialization,
    PrometheusProxyNetworkPolicy,
    EgressFirewall,
    EgressNetworkPolicy,
    IngressNetworkPolicy,
    CephIngressNetworkPolicy,
    ProviderAPIServerNetworkPolicy
  ]

  const PHASE_COUNT := 22
  const STORAGE_CLUSTER_PHASE := 3

  lemma PhaseTable()
    ensures |PHASES| == PHASE_COUNT
    ensures PHASES[STORAGE_CLUSTER_PHASE] == StorageClusterPhase
    ensures forall i, j :: 0 <= i < j < PHASE_COUNT ==> PHASES[i] != PHASES[j]
  {
  }
}
