/** The API server as the controller sees it: the objects of one namespace, the requests the
    controller sends, how the server answers them, and what anybody else may do in between. */
module Server {
  import opened Prelude
  import opened StorageClusters

  const FINALIZER := "managedocs.ocs.openshift.io"
  const OCS_OPERATOR := "ocs-operator"
  const DEPLOYER := "ocs-osd-deployer"

  datatype ComponentState = Unset | Ready | Pending | NotFound | Unknown

  datatype Status = Status(
    strategy: Option<Strategy>,
    storageCluster: ComponentState,
    prometheus: ComponentState,
    alertmanager: ComponentState)

  const NO_STATUS := Status(None, Unset, Unset, Unset)

  /** uid 0 is the empty UID of an object that was never read from the server. */
  datatype ManagedOCS = ManagedOCS(
    uid: nat,
    version: nat,
    deleting: bool,
    finalizers: seq<string>,
    strategy: string,
    status: Status)

  const NO_MANAGED_OCS := ManagedOCS(0, 0, false, [], "", NO_STATUS)

  /** `owner` is the uid of the controlling ManagedOCS. */
  datatype StorageCluster = StorageCluster(
    uid: nat,
    version: nat,
    deleting: bool,
    finalizers: seq<string>,
    owner: nat,
    phase: string,
    spec: StorageClusterSpec)

  const NO_STORAGE_CLUSTER := StorageCluster(0, 0, false, [], 0, "", BLANK)

  datatype StorageClass = StorageClass(name: string, provisioner: string)

  /** Names of the deployment that do not change while the operator runs. */
  datatype Config = Config(namespace: string, deleteLabelKey: string, deployment: DeploymentType)

  datatype Server = Server(
    clock: nat,                               // the next uid or resource version
    managedOCS: Option<ManagedOCS>,
    storageCluster: Option<StorageCluster>,
    storageSystems: seq<string>,
    csvs: seq<string>,                        // names, in list order
    addonLabels: Option<set<string>>,         // label keys of the addon config map
    addonParams: Option<Params>,
    prometheus: Option<Option<int>>,          // spec.replicas
    prometheusSet: Option<int>,               // ready replicas
    alertmanager: Option<Option<int>>,
    alertmanagerSet: Option<int>,
    storageClasses: seq<StorageClass>,
    volumes: seq<string>,                     // storage class name of each persistent volume
    consumers: seq<string>)

  datatype Request =
    | CreateManagedOCS
    | GetManagedOCS
    | UpdateManagedOCS(managedOCS: ManagedOCS)
    | UpdateManagedOCSStatus(managedOCS: ManagedOCS)
    | DeleteManagedOCS
    | GetAddonConfigMap
    | GetAddonParams
    | GetStorageCluster
    | CreateStorageCluster(storageCluster: StorageCluster)
    | UpdateStorageCluster(storageCluster: StorageCluster)
    | DeleteStorageCluster
    | GetPrometheus
    | GetPrometheusSet
    | GetAlertmanager
    | GetAlertmanagerSet
    | ListCSVs
    | DeleteCSV(name: string)
    | ListStorageSystems
    | DeleteStorageSystem(name: string)
    | ListStorageClasses
    | ListVolumes
    | ListConsumers
    | ReconcilePhase(index: nat)                // one of the resource phases, by its place in PHASES

  datatype Response =
    | Failed                                  // any error but NotFound, conflicts included
    | Missing                                 // NotFound
    | AlreadyExists
    | Done
    | FoundManagedOCS(managedOCS: ManagedOCS)
    | FoundLabels(keys: set<string>)
    | FoundParams(params: Params)
    | FoundStorageCluster(storageCluster: StorageCluster)
    | FoundReplicas(replicas: Option<int>)
    | FoundReady(ready: int)
    | FoundNames(names: seq<string>)
    | FoundClasses(classes: seq<StorageClass>)

  /** Deleting only marks an object that has finalizers. */
  function DeletedManagedOCS(s: Server): Server
    requires s.managedOCS.Some?
  {
    var m := s.managedOCS.value;
    if m.finalizers == [] then s.(managedOCS := None)
    else if m.deleting then s
    else s.(managedOCS := Some(m.(deleting := true, version := s.clock)), clock := s.clock + 1)
  }

  function DeletedStorageCluster(s: Server): Server
    requires s.storageCluster.Some?
  {
    var c := s.storageCluster.value;
    if c.finalizers == [] then s.(storageCluster := None)
    else if c.deleting then s
    else s.(storageCluster := Some(c.(deleting := true, version := s.clock)), clock := s.clock + 1)
  }

  function WithoutName(names: seq<string>, name: string): seq<string> {
    if names == [] then []
    else if names[0] == name then names[1..]
    else [names[0]] + WithoutName(names[1..], name)
  }

  predicate SameManagedOCS(s: Server, m: ManagedOCS) {
    s.managedOCS.Some? && s.managedOCS.value.uid == m.uid && s.managedOCS.value.version == m.version
  }

  predicate SameStorageCluster(s: Server, c: StorageCluster) {
    s.storageCluster.Some? && s.storageCluster.value.uid == c.uid && s.storageCluster.value.version == c.version
  }

  /** How the server carries out a request and what it answers. An update must carry the uid and the
      resource version of the stored object; an object that is being deleted and loses its last
      finalizer disappears; a create must not carry a resource version. */
  function Serve(s: Server, q: Request): (Server, Response) {
    match q
    case CreateManagedOCS =>
      if s.managedOCS.Some? then (s, AlreadyExists)
      else
        var m := ManagedOCS(s.clock, s.clock, false, [FINALIZER], "", NO_STATUS);
        (s.(managedOCS := Some(m), clock := s.clock + 1), Done)
    case GetManagedOCS =>
      (s, if s.managedOCS.Some? then FoundManagedOCS(s.managedOCS.value) else Missing)
    case UpdateManagedOCS(m) =>
      if s.managedOCS.None? then (s, Missing)
      else if !SameManagedOCS(s, m) then (s, Failed)
      else
        var stored := s.managedOCS.value.(finalizers := m.finalizers, version := s.clock);
        (s.(managedOCS := if stored.deleting && stored.finalizers == [] then None else Some(stored),
            clock := s.clock + 1),
         FoundManagedOCS(stored))
    case UpdateManagedOCSStatus(m) =>
      if s.managedOCS.None? then (s, Missing)
      else if !SameManagedOCS(s, m) then (s, Failed)
      else
        var stored := s.managedOCS.value.(status := m.status, version := s.clock);
        (s.(managedOCS := Some(stored), clock := s.clock + 1), FoundManagedOCS(stored))
    case DeleteManagedOCS =>
      if s.managedOCS.None? then (s, Missing) else (DeletedManagedOCS(s), Done)
    case GetAddonConfigMap =>
      (s, if s.addonLabels.Some? then FoundLabels(s.addonLabels.value) else Missing)
    case GetAddonParams =>
      (s, if s.addonParams.Some? then FoundParams(s.addonParams.value) else Missing)
    case GetStorageCluster =>
      (s, if s.storageCluster.Some? then FoundStorageCluster(s.storageCluster.value) else Missing)
    case CreateStorageCluster(c) =>
      if s.storageCluster.Some? then (s, AlreadyExists)
      else if c.version != 0 then (s, Failed)
      else
        var stored := StorageCluster(s.clock, s.clock, false, [], c.owner, "", c.spec);
        (s.(storageCluster := Some(stored), clock := s.clock + 1), FoundStorageCluster(stored))
    case UpdateStorageCluster(c) =>
      if s.storageCluster.None? then (s, Missing)
      else if !SameStorageCluster(s, c) then (s, Failed)
      else
        var stored := s.storageCluster.value.(owner := c.owner, spec := c.spec, version := s.clock);
        (s.(storageCluster := Some(stored), clock := s.clock + 1), FoundStorageCluster(stored))
    case DeleteStorageCluster =>
      if s.storageCluster.None? then (s, Missing) else (DeletedStorageCluster(s), Done)
    case GetPrometheus =>
      (s, if s.prometheus.Some? then FoundReplicas(s.prometheus.value) else Missing)
    case GetPrometheusSet =>
      (s, if s.prometheusSet.Some? then FoundReady(s.prometheusSet.value) else Missing)
    case GetAlertmanager =>
      (s, if s.alertmanager.Some? then FoundReplicas(s.alertmanager.value) else Missing)
    case GetAlertmanagerSet =>
      (s, if s.alertmanagerSet.Some? then FoundReady(s.alertmanagerSet.value) else Missing)
    case ListCSVs => (s, FoundNames(s.csvs))
    case DeleteCSV(name) =>
      if name in s.csvs then (s.(csvs := WithoutName(s.csvs, name)), Done) else (s, Missing)
    case ListStorageSystems => (s, FoundNames(s.storageSystems))
    case DeleteStorageSystem(name) =>
      if name in s.storageSystems
      then (s.(storageSystems := WithoutName(s.storageSystems, name)), Done) else (s, Missing)
    case ListStorageClasses => (s, FoundClasses(s.storageClasses))
    case ListVolumes => (s, FoundNames(s.volumes))
    case ListConsumers => (s, FoundNames(if s.consumers == [] then [] else [s.consumers[0]]))
    case ReconcilePhase(_) => (s, Done)
  }

  // ---- everybody else ----

  /** A ManagedOCS made by somebody else: it is new, has no status and not the operator's finalizer. */
  predicate CreatedByUser(s: Server, m: ManagedOCS) {
    && s.clock <= m.uid && s.clock <= m.version
    && FINALIZER !in m.finalizers
    && !m.deleting
    && m.status == NO_STATUS
  }

  /** Others may create, edit and delete ManagedOCS resources, also finalizers of their own, but not
      the operator's finalizer and not the status. */
  predicate UserManagedOCS(s: Server, t: Server) {
    match s.managedOCS
    case None => t.managedOCS.None? || CreatedByUser(s, t.managedOCS.value)
    case Some(m) =>
      match t.managedOCS
      case None => FINALIZER !in m.finalizers
      case Some(n) =>
        if n.uid == m.uid then
          && (n.version == m.version ==> n == m)
          && (n.version != m.version ==> s.clock <= n.version)
          && n.status == m.status
          && (m.deleting ==> n.deleting)
          && (FINALIZER in n.finalizers <==> FINALIZER in m.finalizers)
          && (n.deleting ==> n.finalizers != [])
        else FINALIZER !in m.finalizers && CreatedByUser(s, n)
  }

  /** Others, the ocs-operator in particular, may edit, mark and remove the StorageCluster, but do not
      create one and do not change its owner. */
  predicate UserStorageCluster(s: Server, t: Server) {
    match s.storageCluster
    case None => t.storageCluster.None?
    case Some(c) =>
      t.storageCluster.Some? ==>
        var d := t.storageCluster.value;
        && d.uid == c.uid && d.owner == c.owner
        && (d.version == c.version ==> d == c)
        && (d.version != c.version ==> s.clock <= d.version)
        && (c.deleting ==> d.deleting)
  }

  /** Any number of steps of everybody else. All other objects change in any way. */
  predicate Interference(s: Server, t: Server) {
    && s.clock <= t.clock
    && (t.managedOCS.Some? ==> t.managedOCS.value.uid < t.clock && t.managedOCS.value.version < t.clock)
    && (t.storageCluster.Some? ==> t.storageCluster.value.version < t.clock)
    && UserManagedOCS(s, t)
    && UserStorageCluster(s, t)
  }

  // ---- names ----

  lemma PrefixConflict(name: string, p: string, q: string, i: nat)
    requires i < |p| && i < |q| && p[i] != q[i]
    ensures !(HasPrefix(name, p) && HasPrefix(name, q))
  {
  }

  /** Deleting by the one prefix can never hit an operator of the other. */
  lemma PrefixesAreDisjoint(name: string)
    ensures !(HasPrefix(name, OCS_OPERATOR) && HasPrefix(name, DEPLOYER))
  {
    PrefixConflict(name, OCS_OPERATOR, DEPLOYER, 5);
  }
}
