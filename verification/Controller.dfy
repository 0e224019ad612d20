/** The protocol: one reconcile as a machine that sends a request, waits for the answer and goes on,
    with everybody else acting in between, calls failing, and the process dying at any point. */
module Controller {
  import opened Prelude
  import opened StorageClusters
  import opened Phases
  import opened Server
  import Slices

  datatype Outcome = Completed | Requeue | Error

  /** The request the controller is about to send. */
  datatype Point =
    | LoadManagedOCS
    | CheckDeleteLabel
    | StatusOfStorageCluster
    | StatusOfPrometheus
    | StatusOfPrometheusSet(desired: int)
    | StatusOfAlertmanager
    | StatusOfAlertmanagerSet(desired: int)
    // the ManagedOCS is being deleted and there is no StorageCluster
    | ListOperators
    | RemoveOperator(name: string)
    | RemoveFinalizer
    // the ManagedOCS is being deleted and there may be a StorageCluster
    | RemoveStorageCluster
    | ListSystems
    | RemoveSystems(rest: seq<string>)
    // the ManagedOCS is alive
    | AddFinalizer
    | LoadParams
    | Resources(index: nat)
    | LoadStorageCluster
    | WriteStorageCluster(create: bool)
    | ListClasses
    | ListPVs
    | ListStorageConsumers
    | RemoveManagedOCS
    | ReloadManagedOCS
    // there is no ManagedOCS
    | ListDeployers
    | RemoveDeployer(name: string)
    // the end
    | SaveStatus(outcome: Outcome)

  /** What the reconciler remembers: its fields, and the locals of reconcilePhases. */
  datatype Locals = Locals(
    managedOCS: ManagedOCS,
    storageCluster: StorageCluster,
    uninstall: bool,
    strategy: Strategy,
    params: Params,
    ocsClasses: set<string>)

  const NO_LOCALS := Locals(NO_MANAGED_OCS, NO_STORAGE_CLUSTER, false, Strict, map[], {})

  /** Starting is the part of main before the manager runs. */
  datatype Control =
    | Starting
    | Idle(last: Outcome)
    | At(point: Point, locals: Locals)

  function SavedManagedOCS(l: Locals, m: ManagedOCS): Locals {
    // The answer to an update replaces the object in memory, its status only if one is stored.
    l.(managedOCS := if m.status == NO_STATUS then m.(status := l.managedOCS.status) else m)
  }

  function WithFinalizers(l: Locals, finalizers: seq<string>): Locals {
    l.(managedOCS := l.managedOCS.(finalizers := finalizers))
  }

  function WithStatus(l: Locals, status: Status): Locals {
    l.(managedOCS := l.managedOCS.(status := status))
  }

  function EffectiveStrategy(m: ManagedOCS): Strategy {
    if EqualFold(m.strategy, "none") then Untouched else Strict
  }

  function EffectiveParams(c: Config, params: Params): Params {
    if c.deployment.Consumer? then params[SIZE_KEY := "1024"][UNIT_KEY := "Ti"] else params
  }

  function Desired(replicas: Option<int>): int {
    if replicas.Some? then replicas.value else 1
  }

  function OCSClasses(namespace: string, classes: seq<StorageClass>): set<string> {
    set k | k in classes && HasPrefix(k.provisioner, namespace) :: k.name
  }

  predicate ReadyForUninstall(m: ManagedOCS) {
    m.status.storageCluster.Ready? && m.status.prometheus.Ready? && m.status.alertmanager.Ready?
  }

  /** After the status update the reconcile is over. It is skipped for an object without a uid. */
  function Finish(l: Locals, outcome: Outcome): Control {
    if l.managedOCS.uid != 0 then At(SaveStatus(outcome), l) else Idle(outcome)
  }

  function RemovingFinalizer(l: Locals): Control {
    At(RemoveFinalizer, WithFinalizers(l, Slices.Without(l.managedOCS.finalizers, FINALIZER)))
  }

  function RemovingSystems(l: Locals, rest: seq<string>): Control {
    if rest == [] then Finish(l, Completed) else At(RemoveSystems(rest), l)
  }

  /** The branch taken once the component status is known. */
  function Branch(l: Locals): Control {
    if l.managedOCS.deleting then
      if l.managedOCS.status.storageCluster.NotFound? then At(ListOperators, l)
      else At(RemoveStorageCluster, l)
    else if l.managedOCS.uid != 0 then
      if FINALIZER in l.managedOCS.finalizers then At(LoadParams, l)
      else At(AddFinalizer, WithFinalizers(l, l.managedOCS.finalizers + [FINALIZER]))
    else if l.uninstall then At(ListDeployers, l)
    else Finish(l, Completed)
  }

  /** After the last phase: is it time to uninstall, and what is left to check? */
  function AfterPhases(c: Config, locals: Locals): Control {
    var l := WithStatus(locals, locals.managedOCS.status.(strategy := Some(locals.strategy)));
    if l.uninstall && ReadyForUninstall(l.managedOCS) then
      match c.deployment
      case Converged => At(ListClasses, l)
      case Consumer => At(ListClasses, l)
      case Provider => At(ListStorageConsumers, l)
      case Other(_) => At(RemoveManagedOCS, l)
    else Finish(l, Completed)
  }

  function EnterPhase(c: Config, l: Locals, index: nat): Control {
    if PHASE_COUNT <= index then AfterPhases(c, l)
    else if index == STORAGE_CLUSTER_PHASE then At(LoadStorageCluster, l)
    else At(Resources(index), l)
  }

  /** The second half of CreateOrUpdate: mutate, then write unless nothing changed. */
  function StorageClusterRead(c: Config, l: Locals, exists_: bool): Control {
    match Mutated(c.deployment, l.strategy, l.params, l.storageCluster.spec)
    case Err(_) => Finish(l, Error)
    case Ok(spec) =>
      var wanted := l.storageCluster.(owner := l.managedOCS.uid, spec := spec);
      if exists_ && wanted == l.storageCluster then EnterPhase(c, l, STORAGE_CLUSTER_PHASE + 1)
      else At(WriteStorageCluster(!exists_), l.(storageCluster := wanted))
  }

  function RequestAt(c: Config, point: Point, l: Locals): Request {
    match point
    case LoadManagedOCS => GetManagedOCS
    case CheckDeleteLabel => GetAddonConfigMap
    case StatusOfStorageCluster => GetStorageCluster
    case StatusOfPrometheus => GetPrometheus
    case StatusOfPrometheusSet(_) => GetPrometheusSet
    case StatusOfAlertmanager => GetAlertmanager
    case StatusOfAlertmanagerSet(_) => GetAlertmanagerSet
    case ListOperators => ListCSVs
    case RemoveOperator(name) => DeleteCSV(name)
    case RemoveFinalizer => UpdateManagedOCS(l.managedOCS)
    case RemoveStorageCluster => DeleteStorageCluster
    case ListSystems => ListStorageSystems
    case RemoveSystems(rest) => if rest == [] then ListStorageSystems else DeleteStorageSystem(rest[0])
    case AddFinalizer => UpdateManagedOCS(l.managedOCS)
    case LoadParams => GetAddonParams
    case Resources(index) => ReconcilePhase(index)
    case LoadStorageCluster => GetStorageCluster
    case WriteStorageCluster(create) =>
      if create then CreateStorageCluster(l.storageCluster) else UpdateStorageCluster(l.storageCluster)
    case ListClasses => ListStorageClasses
    case ListPVs => ListVolumes
    case ListStorageConsumers => ListConsumers
    case RemoveManagedOCS => DeleteManagedOCS
    case ReloadManagedOCS => GetManagedOCS
    case ListDeployers => ListCSVs
    case RemoveDeployer(name) => DeleteCSV(name)
    case SaveStatus(_) => UpdateManagedOCSStatus(l.managedOCS)
  }

  /** A delete counts as successful when the object was not there. */
  predicate Deleted(r: Response) {
    r.Done? || r.Missing?
  }

  function StatusAfter(l: Locals, point: Point, r: Response): Locals
    requires point.StatusOfStorageCluster? || point.StatusOfPrometheus? || point.StatusOfPrometheusSet?
             || point.StatusOfAlertmanager? || point.StatusOfAlertmanagerSet?
  {
    var status := l.managedOCS.status;
    match point
    case StatusOfStorageCluster =>
      if r.FoundStorageCluster? then
        WithStatus(l, status.(storageCluster := if r.storageCluster.phase == "Ready" then Ready else Pending))
        .(storageCluster := r.storageCluster)
      else WithStatus(l, status.(storageCluster := if r.Missing? then NotFound else Unknown))
    case StatusOfPrometheus =>
      WithStatus(l, status.(prometheus := if r.Missing? then NotFound else Unknown))
    case StatusOfPrometheusSet(desired) =>
      WithStatus(l, status.(prometheus := if r.FoundReady? && r.ready == desired then Ready else Pending))
    case StatusOfAlertmanager =>
      WithStatus(l, status.(alertmanager := if r.Missing? then NotFound else Unknown))
    case StatusOfAlertmanagerSet(desired) =>
      WithStatus(l, status.(alertmanager := if r.FoundReady? && r.ready == desired then Ready else Pending))
  }

  /** How the controller goes on after an answer. */
  function Resume(c: Config, point: Point, l: Locals, r: Response): Control {
    match point
    case LoadManagedOCS =>
      if r.FoundManagedOCS? then At(CheckDeleteLabel, l.(managedOCS := r.managedOCS))
      else if r.Missing? then At(CheckDeleteLabel, l)
      else Idle(Error)
    case CheckDeleteLabel =>
      At(StatusOfStorageCluster, l.(uninstall := r.FoundLabels? && c.deleteLabelKey in r.keys))
    case StatusOfStorageCluster => At(StatusOfPrometheus, StatusAfter(l, point, r))
    case StatusOfPrometheus =>
      if r.FoundReplicas? then At(StatusOfPrometheusSet(Desired(r.replicas)), l)
      else At(StatusOfAlertmanager, StatusAfter(l, point, r))
    case StatusOfPrometheusSet(_) => At(StatusOfAlertmanager, StatusAfter(l, point, r))
    case StatusOfAlertmanager =>
      if r.FoundReplicas? then At(StatusOfAlertmanagerSet(Desired(r.replicas)), l)
      else Branch(StatusAfter(l, point, r))
    case StatusOfAlertmanagerSet(_) => Branch(StatusAfter(l, point, r))

    case ListOperators =>
      if r.FoundNames? then
        match FirstWithPrefix(r.names, OCS_OPERATOR)
        case Some(name) => At(RemoveOperator(name), l)
        case None => RemovingFinalizer(l)
      else Finish(l, Error)
    case RemoveOperator(_) => if Deleted(r) then RemovingFinalizer(l) else Finish(l, Error)
    case RemoveFinalizer =>
      if r.FoundManagedOCS? then Finish(SavedManagedOCS(l, r.managedOCS), Completed) else Finish(l, Error)

    case RemoveStorageCluster => if Deleted(r) then At(ListSystems, l) else Finish(l, Error)
    case ListSystems => if r.FoundNames? then RemovingSystems(l, r.names) else Finish(l, Error)
    case RemoveSystems(rest) =>
      if Deleted(r) && rest != [] then RemovingSystems(l, rest[1..]) else Finish(l, Error)

    case AddFinalizer =>
      if r.FoundManagedOCS? then At(LoadParams, SavedManagedOCS(l, r.managedOCS)) else Finish(l, Error)
    case LoadParams =>
      if r.FoundParams? then
        EnterPhase(c, l.(strategy := EffectiveStrategy(l.managedOCS), params := EffectiveParams(c, r.params)), 0)
      else Finish(l, Error)
    case Resources(index) => if r.Done? then EnterPhase(c, l, index + 1) else Finish(l, Error)
    case LoadStorageCluster =>
      // When the object is gone, the one in memory keeps what the status update read.
      if r.FoundStorageCluster? then StorageClusterRead(c, l.(storageCluster := r.storageCluster), true)
      else if r.Missing? then StorageClusterRead(c, l, false)
      else Finish(l, Error)
    case WriteStorageCluster(_) =>
      if r.FoundStorageCluster?
      then EnterPhase(c, l.(storageCluster := r.storageCluster), STORAGE_CLUSTER_PHASE + 1)
      else Finish(l, Error)
    case ListClasses =>
      if r.FoundClasses? then At(ListPVs, l.(ocsClasses := OCSClasses(c.namespace, r.classes)))
      else Finish(l, Error)
    case ListPVs =>
      if r.FoundNames? then
        if exists v :: v in r.names && v in l.ocsClasses then Finish(l, Requeue) else At(RemoveManagedOCS, l)
      else Finish(l, Error)
    case ListStorageConsumers =>
      if r.FoundNames? then
        if r.names != [] then Finish(l, Requeue) else At(RemoveManagedOCS, l)
      else Finish(l, Error)
    case RemoveManagedOCS => if Deleted(r) then At(ReloadManagedOCS, l) else Finish(l, Error)
    case ReloadManagedOCS =>
      if r.FoundManagedOCS? then Finish(l.(managedOCS := r.managedOCS), Completed)
      else if r.Missing? then Finish(l, Completed)
      else Finish(l, Error)

    case ListDeployers =>
      if r.FoundNames? then
        match FirstWithPrefix(r.names, DEPLOYER)
        case Some(name) => At(RemoveDeployer(name), l)
        case None => Finish(l, Completed)
      else Finish(l, Error)
    case RemoveDeployer(_) => if Deleted(r) then Finish(l, Completed) else Finish(l, Error)

    case SaveStatus(outcome) => Idle(if r.FoundManagedOCS? then outcome else Error)
  }

  /** A phase leaves the server to others and is followed by the next one. */
  lemma PhaseAnswer(c: Config, s: Server, index: nat, l: Locals)
    ensures Serve(s, RequestAt(c, Resources(index), l)) == (s, Done)
    ensures Resume(c, Resources(index), l, Done) == EnterPhase(c, l, index + 1)
  {
  }

  lemma ParamsAnswer(c: Config, s: Server, l: Locals)
    requires s.addonParams.Some?
    ensures Serve(s, RequestAt(c, LoadParams, l)) == (s, FoundParams(s.addonParams.value))
    ensures Resume(c, LoadParams, l, FoundParams(s.addonParams.value))
         == EnterPhase(c, l.(strategy := EffectiveStrategy(l.managedOCS),
                             params := EffectiveParams(c, s.addonParams.value)), 0)
  {
  }

  // ---- runs ----

  /** One call of the reconcile in progress, with the state the server was in. */
  datatype Exchange = Exchange(server: Server, request: Request, response: Response)

  /** `episode` holds the calls the reconcile in progress has made so far. */
  datatype World = World(server: Server, control: Control, episode: seq<Exchange>)

  /** The server may carry out a call or refuse it, and its answer may get lost. */
  datatype Delivery = Deliver | Refuse | LoseReply

  datatype Action =
    | Trigger                       // the manager calls Reconcile
    | Call(delivery: Delivery)      // the controller's next request
    | Interfere(server: Server)     // everybody else
    | Crash                         // the process dies and the pod starts again

  function NextRequest(c: Config, control: Control): Request
    requires !control.Idle?
  {
    if control.Starting? then CreateManagedOCS else RequestAt(c, control.point, control.locals)
  }

  function Advance(c: Config, control: Control, r: Response): Control
    requires !control.Idle?
  {
    if control.Starting? then
      if r.Done? || r.AlreadyExists? then Idle(Completed) else Starting
    else Resume(c, control.point, control.locals, r)
  }

  function Received(delivery: Delivery, r: Response): Response {
    if delivery.Deliver? then r else Failed
  }

  function Step(c: Config, w: World, a: Action): World {
    match a
    case Trigger =>
      if w.control.Idle? then World(w.server, At(LoadManagedOCS, NO_LOCALS), []) else w
    case Call(delivery) =>
      if w.control.Idle? then w
      else
        var q := NextRequest(c, w.control);
        var (server, answer) := Serve(w.server, q);
        var r := Received(delivery, answer);
        World(if delivery.Refuse? then w.server else server,
              Advance(c, w.control, r),
              w.episode + [Exchange(w.server, q, r)])
    case Interfere(server) =>
      if Interference(w.server, server) then w.(server := server) else w
    case Crash => World(w.server, Starting, [])
  }

  function Run(c: Config, w: World, actions: seq<Action>): World
    decreases |actions|
  {
    if actions == [] then w
    else Step(c, Run(c, w, actions[..|actions| - 1]), actions[|actions| - 1])
  }

  /** Before the operator is installed: no ManagedOCS and no StorageCluster, anything else. */
  predicate Initial(w: World) {
    && w.control.Starting? && w.episode == []
    && w.server.clock > 0
    && w.server.managedOCS.None? && w.server.storageCluster.None?
  }

  lemma RunExtends(c: Config, w: World, actions: seq<Action>, a: Action)
    ensures Run(c, w, actions + [a]) == Step(c, Run(c, w, actions), a)
  {
    assert (actions + [a])[..|actions|] == actions;
  }
}
