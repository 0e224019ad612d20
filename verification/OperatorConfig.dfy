/** What the controller edits in the objects of other operators: container resources and replicas in
    their ClusterServiceVersions (reconcileCSV) and settings in the Rook config map. */
module OperatorConfig {
  import opened Prelude
  import opened StorageClusters
  import Server

  datatype Container = Container(name: string, image: string, resources: string)

  datatype Deployment = Deployment(name: string, replicas: Option<int>, containers: seq<Container>)

  datatype CSV = CSV(name: string, deployments: seq<Deployment>)

  const MCG_OPERATOR := "mcg-operator"
  const NOOBAA := "noobaa-operator"

  /** utils.GetResourceRequirements for the containers of the OCS operator that are recognised. */
  function RequiredResources(container: string): Option<string> {
    if container == "ocs-operator" then Some("cpu: 200m, memory: 800Mi")
    else if container == "rook-ceph-operator" then Some("cpu: 300m, memory: 250Mi")
    else if container == "ocs-metrics-exporter" then Some("cpu: 60m, memory: 75Mi")
    else None
  }

  function WithResources(c: Container): Container {
    match RequiredResources(c.name)
    case Some(r) => c.(resources := r)
    case None => c
  }

  function WithContainerResources(d: Deployment): Deployment {
    d.(containers := seq(|d.containers|, i requires 0 <= i < |d.containers| => WithResources(d.containers[i])))
  }

  function OCSConfigured(ds: seq<Deployment>): seq<Deployment> {
    seq(|ds|, i requires 0 <= i < |ds| => WithContainerResources(ds[i]))
  }

  function Scaled(d: Deployment): Deployment {
    if d.name == NOOBAA && (d.replicas.None? || d.replicas.value > 0) then d.(replicas := Some(0)) else d
  }

  function MCGConfigured(ds: seq<Deployment>): seq<Deployment> {
    seq(|ds|, i requires 0 <= i < |ds| => Scaled(ds[i]))
  }

  /** An update is due exactly if the object differs from the configured one. */
  class ClusterServiceVersion {
    var deployments: seq<Deployment>

    constructor (deployments: seq<Deployment>)
      ensures this.deployments == deployments
    {
      this.deployments := deployments;
    }

    /** The first `n` deployments are configured, the others untouched. */
    ghost predicate ConfiguredUpTo(before: seq<Deployment>, n: nat)
      requires n <= |before|
      reads this
    {
      && |deployments| == |before|
      && (forall i :: 0 <= i < n ==> deployments[i] == WithContainerResources(before[i]))
      && (forall i :: n <= i < |before| ==> deployments[i] == before[i])
    }

    method UpdateOCSCSV() returns (isChanged: bool)
      modifies this
      ensures deployments == OCSConfigured(old(deployments))
      ensures isChanged <==> deployments != old(deployments)
    {
      isChanged := false;
      ghost var before := deployments;
      for i := 0 to |deployments|
        invariant ConfiguredUpTo(before, i)
        invariant isChanged <==> exists k :: 0 <= k < i && deployments[k] != before[k]
      {
        var changed := UpdateContainers(i);
        if changed {
          isChanged := true;
        }
      }
    }

    /** The inner loop, over the containers of deployment `i`. */
    method UpdateContainers(i: nat) returns (isChanged: bool)
      requires i < |deployments|
      modifies this
      ensures deployments == old(deployments)[i := WithContainerResources(old(deployments)[i])]
      ensures isChanged <==> deployments[i] != old(deployments)[i]
    {
      isChanged := false;
      var cs := deployments[i].containers;
      ghost var before := cs;
      for j := 0 to |cs|
        invariant |cs| == |before|
        invariant forall k :: 0 <= k < j ==> cs[k] == WithResources(before[k])
        invariant forall k :: j <= k < |before| ==> cs[k] == before[k]
        invariant isChanged <==> exists k :: 0 <= k < j && cs[k] != before[k]
      {
        var resources := RequiredResources(cs[j].name);
        if resources.Some? && cs[j].resources != resources.value {
          cs := cs[j := cs[j].(resources := resources.value)];
          isChanged := true;
        }
      }
      assert cs == WithContainerResources(deployments[i]).containers;
      deployments := deployments[i := deployments[i].(containers := cs)];
    }

    method UpdateMCGCSV() returns (isChanged: bool)
      modifies this
      ensures deployments == MCGConfigured(old(deployments))
      ensures isChanged <==> deployments != old(deployments)
    {
      isChanged := false;
      ghost var before := deployments;
      for i := 0 to |deployments|
        invariant |deployments| == |before|
        invariant forall k :: 0 <= k < i ==> deployments[k] == Scaled(before[k])
        invariant forall k :: i <= k < |before| ==> deployments[k] == before[k]
        invariant isChanged <==> exists k :: 0 <= k < i && deployments[k] != before[k]
      {
        var d := deployments[i];
        if d.name == NOOBAA && (d.replicas.None? || d.replicas.value > 0) {
          deployments := deployments[i := d.(replicas := Some(0))];
          isChanged := true;
        }
      }
    }
  }

  // ---- what the configured objects are ----

  /** Every recognised container has its resources; everything else is as it was. */
  lemma OCSConfiguredMeaning(ds: seq<Deployment>)
    ensures var r := OCSConfigured(ds);
            && |r| == |ds|
            && forall i :: 0 <= i < |ds| ==>
                 && r[i].name == ds[i].name && r[i].replicas == ds[i].replicas
                 && |r[i].containers| == |ds[i].containers|
                 && forall j :: 0 <= j < |ds[i].containers| ==>
                      var was, now := ds[i].containers[j], r[i].containers[j];
                      && now.name == was.name && now.image == was.image
                      && (RequiredResources(was.name).Some? ==> now.resources == RequiredResources(was.name).value)
                      && (RequiredResources(was.name).None? ==> now == was)
  {
  }

  /** A noobaa-operator deployment is left without replicas exactly if its count was not negative, and everything else
      is as it was. */
  lemma MCGConfiguredMeaning(ds: seq<Deployment>)
    ensures var r := MCGConfigured(ds);
            && |r| == |ds|
            && forall i :: 0 <= i < |ds| ==>
                 && (ds[i].name == NOOBAA ==>
                      (r[i].replicas == Some(0) <==> ds[i].replicas.None? || 0 <= ds[i].replicas.value))
                 && (r[i] == ds[i] || (ds[i].name == NOOBAA && r[i] == ds[i].(replicas := Some(0))))
  {
    forall i | 0 <= i < |ds|
      ensures var r := MCGConfigured(ds)[i];
              && (ds[i].name == NOOBAA ==>
                   (r.replicas == Some(0) <==> ds[i].replicas.None? || 0 <= ds[i].replicas.value))
              && (r == ds[i] || (ds[i].name == NOOBAA && r == ds[i].(replicas := Some(0))))
    {
      assert MCGConfigured(ds)[i] == Scaled(ds[i]);
    }
  }

  /** The loop asks for more than zero replicas before it scales down. */
  lemma NegativeReplicasStay()
    ensures MCGConfigured([Deployment(NOOBAA, Some(-1), [])]) == [Deployment(NOOBAA, Some(-1), [])]
  {
    assert Scaled(Deployment(NOOBAA, Some(-1), [])).replicas == Some(-1);
  }

  lemma ConfiguredTwiceIsConfiguredOnce(ds: seq<Deployment>)
    ensures OCSConfigured(OCSConfigured(ds)) == OCSConfigured(ds)
    ensures MCGConfigured(MCGConfigured(ds)) == MCGConfigured(ds)
  {
    forall i | 0 <= i < |ds|
      ensures WithContainerResources(WithContainerResources(ds[i])) == WithContainerResources(ds[i])
    {
      var d := WithContainerResources(ds[i]);
      assert WithContainerResources(d).containers == d.containers;
    }
  }

  // ---- the list of CSVs ----

  function ConfiguredCSV(csv: CSV): CSV {
    if HasPrefix(csv.name, Server.OCS_OPERATOR) then csv.(deployments := OCSConfigured(csv.deployments))
    else if HasPrefix(csv.name, MCG_OPERATOR) then csv.(deployments := MCGConfigured(csv.deployments))
    else csv
  }

  function ConfiguredCSVs(csvs: seq<CSV>): seq<CSV> {
    seq(|csvs|, i requires 0 <= i < |csvs| => ConfiguredCSV(csvs[i]))
  }

  lemma ConfiguredCSVsTwice(csvs: seq<CSV>)
    ensures ConfiguredCSVs(ConfiguredCSVs(csvs)) == ConfiguredCSVs(csvs)
  {
    forall i | 0 <= i < |csvs|
      ensures ConfiguredCSV(ConfiguredCSV(csvs[i])) == ConfiguredCSV(csvs[i])
    {
      ConfiguredTwiceIsConfiguredOnce(csvs[i].deployments);
    }
  }

  /** The containers of the OCS operator are recognised by their names. */
  predicate ContainerDone(was: Container, now: Container) {
    now == match was.name
           case "ocs-operator" => was.(resources := "cpu: 200m, memory: 800Mi")
           case "rook-ceph-operator" => was.(resources := "cpu: 300m, memory: 250Mi")
           case "ocs-metrics-exporter" => was.(resources := "cpu: 60m, memory: 75Mi")
           case _ => was
  }

  predicate OCSDeploymentDone(was: Deployment, now: Deployment) {
    && now == was.(containers := now.containers) && |now.containers| == |was.containers|
    && forall j :: 0 <= j < |was.containers| ==> ContainerDone(was.containers[j], now.containers[j])
  }

  predicate MCGDeploymentDone(was: Deployment, now: Deployment) {
    now == if was.name == "noobaa-operator" && (was.replicas.None? || was.replicas.value > 0)
           then was.(replicas := Some(0)) else was
  }

  /** What a successful pass makes of a CSV: resources in the OCS operator's, no noobaa-operator in the gateway's, and
      nothing in any other. */
  predicate CSVDone(was: CSV, now: CSV) {
    if HasPrefix(was.name, "ocs-operator") then
      && now == was.(deployments := now.deployments) && |now.deployments| == |was.deployments|
      && forall i :: 0 <= i < |was.deployments| ==> OCSDeploymentDone(was.deployments[i], now.deployments[i])
    else if HasPrefix(was.name, "mcg-operator") then
      && now == was.(deployments := now.deployments) && |now.deployments| == |was.deployments|
      && forall i :: 0 <= i < |was.deployments| ==> MCGDeploymentDone(was.deployments[i], now.deployments[i])
    else now == was
  }

  lemma ConfiguredCSVMeaning(csv: CSV)
    ensures CSVDone(csv, ConfiguredCSV(csv))
  {
    forall d: Deployment
      ensures OCSDeploymentDone(d, WithContainerResources(d))
    {
    }
  }

  /** Each CSV is either as before or configured. */
  predicate PartlyConfigured(before: seq<CSV>, after: seq<CSV>) {
    && |after| == |before|
    && forall i :: 0 <= i < |before| ==> after[i] == before[i] || after[i] == ConfiguredCSV(before[i])
  }

  /** The loop of reconcileCSV. An update is sent only for a CSV that changes; `refuses` says which updates the server
      refuses, and the first refusal ends the loop. */
  method ReconcileCSVs(csvs: seq<CSV>, refuses: string -> bool) returns (r: seq<CSV>, ok: bool)
    ensures ok <==> forall csv :: csv in csvs && ConfiguredCSV(csv) != csv ==> !refuses(csv.name)
    ensures ok ==> r == ConfiguredCSVs(csvs)
    ensures ok ==> |r| == |csvs| && forall i :: 0 <= i < |csvs| ==> CSVDone(csvs[i], r[i])
    ensures PartlyConfigured(csvs, r)
  {
    forall i | 0 <= i < |csvs|
      ensures CSVDone(csvs[i], ConfiguredCSV(csvs[i]))
    {
      ConfiguredCSVMeaning(csvs[i]);
    }
    r := csvs;
    for i := 0 to |csvs|
      invariant PartlyConfigured(csvs, r)
      invariant forall j :: 0 <= j < i ==> r[j] == ConfiguredCSV(csvs[j])
      invariant forall j :: i <= j < |csvs| ==> r[j] == csvs[j]
      invariant forall csv :: csv in csvs[..i] && ConfiguredCSV(csv) != csv ==> !refuses(csv.name)
    {
      var csv := new ClusterServiceVersion(csvs[i].deployments);
      var isChanged := false;
      if HasPrefix(csvs[i].name, Server.OCS_OPERATOR) {
        isChanged := csv.UpdateOCSCSV();
      } else if HasPrefix(csvs[i].name, MCG_OPERATOR) {
        isChanged := csv.UpdateMCGCSV();
      }
      assert csvs[i].(deployments := csv.deployments) == ConfiguredCSV(csvs[i]);
      assert csvs[..i + 1] == csvs[..i] + [csvs[i]];
      if isChanged {
        if refuses(csvs[i].name) {
          assert csvs[i] in csvs;
          return r, false;
        }
        r := r[i := csvs[i].(deployments := csv.deployments)];
      }
    }
    assert csvs[..|csvs|] == csvs;
    return r, true;
  }

  // ---- the kube-rbac-proxy image reconcilePrometheus looks up in the deployer CSV ----

  const CONTROLLER_MANAGER := "ocs-osd-controller-manager"
  const PROXY := "kube-rbac-proxy"

  /** The last deployment with the name; the loop does not stop at the first. */
  function LastDeployment(ds: seq<Deployment>, name: string): Option<Deployment> {
    if ds == [] then None
    else if ds[|ds| - 1].name == name then Some(ds[|ds| - 1])
    else LastDeployment(ds[..|ds| - 1], name)
  }

  function LastImage(cs: seq<Container>, name: string): string {
    if cs == [] then ""
    else if cs[|cs| - 1].name == name then cs[|cs| - 1].image
    else LastImage(cs[..|cs| - 1], name)
  }

  function FirstCSV(csvs: seq<CSV>, prefix: string): Option<CSV> {
    if csvs == [] then None
    else if HasPrefix(csvs[0].name, prefix) then Some(csvs[0])
    else FirstCSV(csvs[1..], prefix)
  }

  /** None if there is no deployer CSV, or none of its deployments is the controller manager. */
  function ProxyImage(csvs: seq<CSV>): Option<string> {
    match FirstCSV(csvs, Server.DEPLOYER)
    case None => None
    case Some(csv) =>
      match LastDeployment(csv.deployments, CONTROLLER_MANAGER)
      case None => None
      case Some(d) => Some(LastImage(d.containers, PROXY))
  }

  lemma ConfiguredKeepsKind(csv: CSV)
    ensures ConfiguredCSV(csv).name == csv.name
    ensures HasPrefix(csv.name, Server.DEPLOYER) ==> ConfiguredCSV(csv) == csv
  {
    Server.PrefixesAreDisjoint(csv.name);
    Server.PrefixConflict(csv.name, MCG_OPERATOR, Server.DEPLOYER, 0);
  }

  lemma {:induction false} PartlyConfiguringKeepsTheDeployer(before: seq<CSV>, after: seq<CSV>)
    requires PartlyConfigured(before, after)
    ensures FirstCSV(after, Server.DEPLOYER) == FirstCSV(before, Server.DEPLOYER)
  {
    if before != [] {
      ConfiguredKeepsKind(before[0]);
      PartlyConfiguringKeepsTheDeployer(before[1..], after[1..]);
    }
  }

  /** The image is that of the last container "kube-rbac-proxy" in the last deployment of the controller manager in the
      first deployer CSV, wherever these are. */
  lemma ProxyImageMeaning(csvs: seq<CSV>, i: nat, j: nat, k: nat)
    requires i < |csvs| && HasPrefix(csvs[i].name, "ocs-osd-deployer")
    requires forall n :: 0 <= n < i ==> !HasPrefix(csvs[n].name, "ocs-osd-deployer")
    requires var ds := csvs[i].deployments;
             && j < |ds| && ds[j].name == "ocs-osd-controller-manager"
             && forall n :: j < n < |ds| ==> ds[n].name != "ocs-osd-controller-manager"
    requires var cs := csvs[i].deployments[j].containers;
             && k < |cs| && cs[k].name == "kube-rbac-proxy"
             && forall n :: k < n < |cs| ==> cs[n].name != "kube-rbac-proxy"
    ensures ProxyImage(csvs) == Some(csvs[i].deployments[j].containers[k].image)
  {
    FirstCSVAt(csvs, i);
    LastDeploymentAt(csvs[i].deployments, j);
    LastImageAt(csvs[i].deployments[j].containers, k);
  }

  lemma {:induction false} FirstCSVAt(csvs: seq<CSV>, i: nat)
    requires i < |csvs| && HasPrefix(csvs[i].name, Server.DEPLOYER)
    requires forall n :: 0 <= n < i ==> !HasPrefix(csvs[n].name, Server.DEPLOYER)
    ensures FirstCSV(csvs, Server.DEPLOYER) == Some(csvs[i])
  {
    if i > 0 {
      FirstCSVAt(csvs[1..], i - 1);
    }
  }

  lemma {:induction false} LastDeploymentAt(ds: seq<Deployment>, j: nat)
    requires j < |ds| && ds[j].name == CONTROLLER_MANAGER
    requires forall n :: j < n < |ds| ==> ds[n].name != CONTROLLER_MANAGER
    ensures LastDeployment(ds, CONTROLLER_MANAGER) == Some(ds[j])
    decreases |ds|
  {
    if j < |ds| - 1 {
      LastDeploymentAt(ds[..|ds| - 1], j);
    }
  }

  lemma {:induction false} LastImageAt(cs: seq<Container>, k: nat)
    requires k < |cs| && cs[k].name == PROXY
    requires forall n :: k < n < |cs| ==> cs[n].name != PROXY
    ensures LastImage(cs, PROXY) == cs[k].image
    decreases |cs|
  {
    if k < |cs| - 1 {
      LastImageAt(cs[..|cs| - 1], k);
    }
  }

  /** Configuring the operators does not touch the deployer, so the image looked up stays the same. */
  lemma ConfiguringKeepsTheDeployer(csvs: seq<CSV>)
    ensures FirstCSV(ConfiguredCSVs(csvs), Server.DEPLOYER) == FirstCSV(csvs, Server.DEPLOYER)
  {
    PartlyConfiguringKeepsTheDeployer(csvs, ConfiguredCSVs(csvs));
  }

  // ---- the Rook config map ----

  /** The settings the deployment type calls for; the resource lists are fixed texts. */
  function RookSettings(deployment: DeploymentType): map<string, string> {
    if deployment.Provider? then
      map["ROOK_CSI_ENABLE_CEPHFS" := "false", "ROOK_CSI_ENABLE_RBD" := "false"]
    else
      map["CSI_RBD_PROVISIONER_RESOURCE" := "rbd provisioner", "CSI_RBD_PLUGIN_RESOURCE" := "rbd plugin",
          "CSI_CEPHFS_PROVISIONER_RESOURCE" := "cephfs provisioner", "CSI_CEPHFS_PLUGIN_RESOURCE" := "cephfs plugin"]
  }

  const CSI_KEYS := {"CSI_RBD_PROVISIONER_RESOURCE", "CSI_RBD_PLUGIN_RESOURCE",
                     "CSI_CEPHFS_PROVISIONER_RESOURCE", "CSI_CEPHFS_PLUGIN_RESOURCE"}

  /** A provider needs no CSI drivers, and on the others their resources are set; no other key is touched. */
  predicate RookDone(deployment: DeploymentType, was: map<string, string>, now: map<string, string>) {
    var keys := if deployment.Provider? then {"ROOK_CSI_ENABLE_CEPHFS", "ROOK_CSI_ENABLE_RBD"} else CSI_KEYS;
    && now.Keys == was.Keys + keys
    && (forall k :: k in was && k !in keys ==> now[k] == was[k])
    && if deployment.Provider? then
         now["ROOK_CSI_ENABLE_CEPHFS"] == "false" && now["ROOK_CSI_ENABLE_RBD"] == "false"
       else
         && now["CSI_RBD_PROVISIONER_RESOURCE"] == "rbd provisioner" && now["CSI_RBD_PLUGIN_RESOURCE"] == "rbd plugin"
         && now["CSI_CEPHFS_PROVISIONER_RESOURCE"] == "cephfs provisioner"
         && now["CSI_CEPHFS_PLUGIN_RESOURCE"] == "cephfs plugin"
  }

  lemma RookSettingsMeaning(deployment: DeploymentType, data: map<string, string>)
    ensures RookDone(deployment, data, data + RookSettings(deployment))
  {
  }

  class ConfigMap {
    var data: map<string, string>

    /** The settings are there, every other key is as it was, and an update is due exactly if something
        differed; so a second pass asks for none. */
    method ReconcileRook(deployment: DeploymentType) returns (update: bool)
      modifies this
      ensures data == old(data) + RookSettings(deployment) && RookDone(deployment, old(data), data)
      ensures update <==> data != old(data)
    {
      var clone := data;
      if deployment.Provider? {
        clone := clone["ROOK_CSI_ENABLE_CEPHFS" := "false"];
        clone := clone["ROOK_CSI_ENABLE_RBD" := "false"];
      } else {
        clone := clone["CSI_RBD_PROVISIONER_RESOURCE" := "rbd provisioner"];
        clone := clone["CSI_RBD_PLUGIN_RESOURCE" := "rbd plugin"];
        clone := clone["CSI_CEPHFS_PROVISIONER_RESOURCE" := "cephfs provisioner"];
        clone := clone["CSI_CEPHFS_PLUGIN_RESOURCE" := "cephfs plugin"];
      }
      assert clone == data + RookSettings(deployment);
      RookSettingsMeaning(deployment, data);
      update := data != clone;
      data := clone;
    }
  }

  lemma RookTwice(data: map<string, string>, deployment: DeploymentType)
    ensures var once := data + RookSettings(deployment); once + RookSettings(deployment) == once
  {
  }
}
