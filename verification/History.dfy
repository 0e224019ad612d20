/** What the controller has seen, in the reconcile in progress, before it takes an irrevocable step. */
module History {
  import opened Prelude
  import opened StorageClusters
  import opened Phases
  import opened Server
  import opened Controller
  import opened Safety

  datatype Fact =
    | LabelSeen
    | ManagedOCSMissing
    | StorageClusterReady
    | StorageClusterMissing
    | PrometheusWants(replicas: int)
    | PrometheusHas(replicas: int)
    | AlertmanagerWants(replicas: int)
    | AlertmanagerHas(replicas: int)
    | OperatorGone
    | PhaseSucceeded(index: nat)
    | StorageClusterSettled(strategy: Strategy, params: Params, owner: nat)
    | ClassesListed(ocsClasses: set<string>)
    | VolumesClear(ocsClasses: set<string>)
    | NoConsumers
    | InOrder(first: Fact, second: Fact)

  /** The object already is what reconcileStorageCluster would make of it. */
  predicate Settled(c: Config, sc: StorageCluster, strategy: Strategy, params: Params, owner: nat) {
    sc.owner == owner && Mutated(c.deployment, strategy, params, sc.spec) == Ok(sc.spec)
  }

  /** The answer to one call establishes the fact. A failed call establishes nothing. */
  predicate Shows(c: Config, x: Exchange, f: Fact) {
    var q, r := x.request, x.response;
    match f
    case LabelSeen => q.GetAddonConfigMap? && r.FoundLabels? && c.deleteLabelKey in r.keys
    case ManagedOCSMissing => q.GetManagedOCS? && r.Missing?
    case StorageClusterReady => q.GetStorageCluster? && r.FoundStorageCluster? && r.storageCluster.phase == "Ready"
    case StorageClusterMissing => q.GetStorageCluster? && r.Missing?
    case PrometheusWants(n) => q.GetPrometheus? && r.FoundReplicas? && Desired(r.replicas) == n
    case PrometheusHas(n) => q.GetPrometheusSet? && r == FoundReady(n)
    case AlertmanagerWants(n) => q.GetAlertmanager? && r.FoundReplicas? && Desired(r.replicas) == n
    case AlertmanagerHas(n) => q.GetAlertmanagerSet? && r == FoundReady(n)
    case OperatorGone =>
      || (q.ListCSVs? && r.FoundNames? && FirstWithPrefix(r.names, OCS_OPERATOR).None?)
      || (q.DeleteCSV? && HasPrefix(q.name, OCS_OPERATOR) && Deleted(r))
    case PhaseSucceeded(index) => q == ReconcilePhase(index) && r.Done?
    case StorageClusterSettled(strategy, params, owner) =>
      && r.FoundStorageCluster?
      && (q.GetStorageCluster? ==> Settled(c, r.storageCluster, strategy, params, owner))
      && (!q.GetStorageCluster? ==>
            && (q.CreateStorageCluster? || q.UpdateStorageCluster?)
            && Settled(c, q.storageCluster, strategy, params, owner))
    case ClassesListed(names) =>
      q.ListStorageClasses? && r.FoundClasses? && OCSClasses(c.namespace, r.classes) == names
    case VolumesClear(names) =>
      q.ListVolumes? && r.FoundNames? && forall v :: v in r.names ==> v !in names
    case NoConsumers => q.ListConsumers? && r == FoundNames([])
    case InOrder(_, _) => false
  }

  /** Some call of the episode shows the fact; for two facts in order, an earlier call shows the first
      and a later one the second. */
  ghost predicate Sees(c: Config, episode: seq<Exchange>, f: Fact) {
    match f
    case InOrder(g, h) =>
      exists i, j :: 0 <= i < j < |episode| && Shows(c, episode[i], g) && Shows(c, episode[j], h)
    case _ => exists i :: 0 <= i < |episode| && Shows(c, episode[i], f)
  }

  type Facts = iset<Fact>

  ghost function Seen(c: Config, episode: seq<Exchange>): Facts {
    iset f | Sees(c, episode, f)
  }

  lemma SeesGrows(c: Config, episode: seq<Exchange>, x: Exchange, f: Fact)
    requires Sees(c, episode, f)
    ensures Sees(c, episode + [x], f)
  {
    var longer := episode + [x];
    match f
    case InOrder(g, h) =>
      var i, j :| 0 <= i < j < |episode| && Shows(c, episode[i], g) && Shows(c, episode[j], h);
      assert longer[i] == episode[i] && longer[j] == episode[j];
    case _ =>
      var i :| 0 <= i < |episode| && Shows(c, episode[i], f);
      assert longer[i] == episode[i];
  }

  lemma ShownIsSeen(c: Config, episode: seq<Exchange>, x: Exchange, f: Fact)
    requires Shows(c, x, f)
    ensures Sees(c, episode + [x], f)
  {
    assert (episode + [x])[|episode|] == x;
  }

  lemma SeenInOrder(c: Config, episode: seq<Exchange>, x: Exchange, f: Fact, g: Fact)
    requires Sees(c, episode, f) && !f.InOrder? && Shows(c, x, g)
    ensures Sees(c, episode + [x], InOrder(f, g))
  {
    var longer := episode + [x];
    var i :| 0 <= i < |episode| && Shows(c, episode[i], f);
    assert longer[i] == episode[i] && longer[|episode|] == x;
  }

  // ---- what is known at each point ----

  ghost predicate PrometheusReady(known: Facts) {
    exists n :: PrometheusWants(n) in known && PrometheusHas(n) in known
  }

  ghost predicate AlertmanagerReady(known: Facts) {
    exists n :: AlertmanagerWants(n) in known && AlertmanagerHas(n) in known
  }

  ghost predicate ComponentsReady(known: Facts) {
    StorageClusterReady in known && PrometheusReady(known) && AlertmanagerReady(known)
  }

  function PhaseFact(strategy: Strategy, params: Params, owner: nat, index: nat): Fact {
    if index == STORAGE_CLUSTER_PHASE
    then StorageClusterSettled(strategy, params, owner)
    else PhaseSucceeded(index)
  }

  ghost predicate PhasesDone(known: Facts, l: Locals, count: nat) {
    forall k :: 0 <= k < count ==> PhaseFact(l.strategy, l.params, l.managedOCS.uid, k) in known
  }

  predicate GuardPoint(point: Point) {
    point.ListClasses? || point.ListPVs? || point.ListStorageConsumers? || point.RemoveManagedOCS?
  }

  /** Nothing uses the storage, as far as the deployment type asks. */
  ghost predicate NothingInUse(c: Config, known: Facts) {
    match c.deployment
    case Provider => NoConsumers in known
    case Other(_) => true
    case _ => exists names :: ClassesListed(names) in known && VolumesClear(names) in known
  }

  ghost predicate KnowsStatus(known: Facts, point: Point, l: Locals) {
    var status := l.managedOCS.status;
    && (StatusRead(point) ==>
          && (status.storageCluster.Ready? ==> StorageClusterReady in known)
          && (status.storageCluster.NotFound? ==> StorageClusterMissing in known))
    && (point.StatusOfPrometheusSet? ==> PrometheusWants(point.desired) in known)
    && (point.StatusOfAlertmanager? || point.StatusOfAlertmanagerSet? ==>
          (status.prometheus.Ready? ==> PrometheusReady(known)))
    && (point.StatusOfAlertmanagerSet? ==> AlertmanagerWants(point.desired) in known)
  }

  ghost predicate KnowsInstall(c: Config, known: Facts, point: Point, l: Locals) {
    && ((InstallPoint(point) && !point.ReloadManagedOCS?) && ReadyForUninstall(l.managedOCS) ==>
          ComponentsReady(known))
    && (point.Resources? ==> PhasesDone(known, l, point.index))
    && (point.LoadStorageCluster? || point.WriteStorageCluster? ==>
          PhasesDone(known, l, STORAGE_CLUSTER_PHASE))
    && (point.WriteStorageCluster? ==> Settled(c, l.storageCluster, l.strategy, l.params, l.managedOCS.uid))
    && (GuardPoint(point) ==>
          && l.uninstall && ReadyForUninstall(l.managedOCS)
          && PhasesDone(known, l, PHASE_COUNT))
    && (point.ListClasses? || point.ListPVs? ==> c.deployment.Converged? || c.deployment.Consumer?)
    && (point.ListStorageConsumers? ==> c.deployment.Provider?)
    && (point.ListPVs? ==> ClassesListed(l.ocsClasses) in known)
    && (point.RemoveManagedOCS? ==> NothingInUse(c, known))
  }

  const TEARDOWN := InOrder(StorageClusterMissing, OperatorGone)

  ghost predicate KnowsTeardown(known: Facts, point: Point) {
    && (FinalizerPoint(point) ==> StorageClusterMissing in known)
    && (point.RemoveOperator? ==> HasPrefix(point.name, OCS_OPERATOR))
    && (point.RemoveFinalizer? ==> TEARDOWN in known)
    && (DeployerPoint(point) ==> LabelSeen in known)
    && (point.RemoveDeployer? ==> HasPrefix(point.name, DEPLOYER))
  }

  ghost predicate Knows(c: Config, known: Facts, point: Point, l: Locals) {
    && (!point.LoadManagedOCS? && l.managedOCS.uid == 0 ==> ManagedOCSMissing in known)
    && (l.uninstall ==> LabelSeen in known)
    && KnowsStatus(known, point, l)
    && KnowsInstall(c, known, point, l)
    && KnowsTeardown(known, point)
  }

  ghost predicate KnowsControl(c: Config, known: Facts, control: Control) {
    control.At? ==> Knows(c, known, control.point, control.locals)
  }

  /** `later` has everything of `known` and what the exchange shows. */
  ghost predicate Learns(c: Config, known: Facts, x: Exchange, later: Facts) {
    && known <= later
    && (forall f :: Shows(c, x, f) ==> f in later)
    && (StorageClusterMissing in known && Shows(c, x, OperatorGone) ==> TEARDOWN in later)
  }

  lemma EpisodeLearns(c: Config, episode: seq<Exchange>, x: Exchange)
    ensures Learns(c, Seen(c, episode), x, Seen(c, episode + [x]))
  {
    forall f | f in Seen(c, episode)
      ensures f in Seen(c, episode + [x])
    {
      SeesGrows(c, episode, x, f);
    }
    forall f | Shows(c, x, f)
      ensures f in Seen(c, episode + [x])
    {
      ShownIsSeen(c, episode, x, f);
    }
    if StorageClusterMissing in Seen(c, episode) && Shows(c, x, OperatorGone) {
      SeenInOrder(c, episode, x, StorageClusterMissing, OperatorGone);
    }
  }

  // ---- every answer leads to a point where what must be known is known ----

  lemma FinishKnows(c: Config, known: Facts, l: Locals, outcome: Outcome)
    requires l.uninstall ==> LabelSeen in known
    ensures KnowsControl(c, known, Finish(l, outcome))
  {
  }

  lemma LoadTeaches(c: Config, known: Facts, later: Facts, point: Point, l: Locals, x: Exchange)
    requires Knows(c, known, point, l) && x.request == RequestAt(c, point, l) && Learns(c, known, x, later)
    requires point.LoadManagedOCS? || point.CheckDeleteLabel?
    requires x.response.FoundManagedOCS? ==> x.response.managedOCS.uid != 0
    ensures KnowsControl(c, later, Resume(c, point, l, x.response))
  {
    assert x.request.GetAddonConfigMap? && x.response.FoundLabels? && c.deleteLabelKey in x.response.keys
           ==> Shows(c, x, LabelSeen);
    assert x.request.GetManagedOCS? && x.response.Missing? ==> Shows(c, x, ManagedOCSMissing);
  }

  lemma BranchKnows(c: Config, known: Facts, l: Locals)
    requires l.managedOCS.uid == 0 ==> ManagedOCSMissing in known
    requires l.uninstall ==> LabelSeen in known
    requires l.managedOCS.status.storageCluster.NotFound? ==> StorageClusterMissing in known
    requires ReadyForUninstall(l.managedOCS) ==> ComponentsReady(known)
    ensures KnowsControl(c, known, Branch(l))
  {
  }

  lemma StatusOfStorageClusterTeaches(c: Config, known: Facts, later: Facts, point: Point, l: Locals, x: Exchange)
    requires Knows(c, known, point, l) && x.request == RequestAt(c, point, l) && Learns(c, known, x, later)
    requires point.StatusOfStorageCluster?
    ensures KnowsControl(c, later, Resume(c, point, l, x.response))
  {
    assert x.response.Missing? ==> Shows(c, x, StorageClusterMissing);
    assert x.response.FoundStorageCluster? && x.response.storageCluster.phase == "Ready"
           ==> Shows(c, x, StorageClusterReady);
  }

  lemma StatusOfPrometheusTeaches(c: Config, known: Facts, later: Facts, point: Point, l: Locals, x: Exchange)
    requires Knows(c, known, point, l) && x.request == RequestAt(c, point, l) && Learns(c, known, x, later)
    requires point.StatusOfPrometheus?
    ensures KnowsControl(c, later, Resume(c, point, l, x.response))
  {
    assert x.response.FoundReplicas? ==> Shows(c, x, PrometheusWants(Desired(x.response.replicas)));
  }

  lemma StatusOfPrometheusSetTeaches(c: Config, known: Facts, later: Facts, point: Point, l: Locals, x: Exchange)
    requires Knows(c, known, point, l) && x.request == RequestAt(c, point, l) && Learns(c, known, x, later)
    requires point.StatusOfPrometheusSet?
    ensures KnowsControl(c, later, Resume(c, point, l, x.response))
  {
    assert x.response == FoundReady(point.desired) ==> Shows(c, x, PrometheusHas(point.desired));
  }

  lemma StatusOfAlertmanagerTeaches(c: Config, known: Facts, later: Facts, point: Point, l: Locals, x: Exchange)
    requires Knows(c, known, point, l) && x.request == RequestAt(c, point, l) && Learns(c, known, x, later)
    requires point.StatusOfAlertmanager?
    ensures KnowsControl(c, later, Resume(c, point, l, x.response))
  {
    if x.response.FoundReplicas? {
      assert Shows(c, x, AlertmanagerWants(Desired(x.response.replicas)));
    } else {
      BranchKnows(c, later, StatusAfter(l, point, x.response));
    }
  }

  lemma StatusOfAlertmanagerSetTeaches(c: Config, known: Facts, later: Facts, point: Point, l: Locals, x: Exchange)
    requires Knows(c, known, point, l) && x.request == RequestAt(c, point, l) && Learns(c, known, x, later)
    requires point.StatusOfAlertmanagerSet?
    ensures KnowsControl(c, later, Resume(c, point, l, x.response))
  {
    assert x.response == FoundReady(point.desired) ==> Shows(c, x, AlertmanagerHas(point.desired));
    BranchKnows(c, later, StatusAfter(l, point, x.response));
  }

  lemma OperatorTeaches(c: Config, known: Facts, later: Facts, point: Point, l: Locals, x: Exchange)
    requires Knows(c, known, point, l) && x.request == RequestAt(c, point, l) && Learns(c, known, x, later)
    requires point.ListOperators? || point.RemoveOperator?
    requires l.managedOCS.uid != 0
    ensures KnowsControl(c, later, Resume(c, point, l, x.response))
  {
    assert x.response.FoundNames? && FirstWithPrefix(x.response.names, OCS_OPERATOR).None? && x.request.ListCSVs?
           ==> Shows(c, x, OperatorGone);
    assert point.RemoveOperator? && Deleted(x.response) ==> Shows(c, x, OperatorGone);
    FinishKnows(c, later, l, Error);
  }

  lemma DeployerTeaches(c: Config, known: Facts, later: Facts, point: Point, l: Locals, x: Exchange)
    requires Knows(c, known, point, l) && x.request == RequestAt(c, point, l) && Learns(c, known, x, later)
    requires DeployerPoint(point)
    ensures KnowsControl(c, later, Resume(c, point, l, x.response))
  {
    FinishKnows(c, later, l, Error);
    FinishKnows(c, later, l, Completed);
  }

  lemma TeardownTeaches(c: Config, known: Facts, later: Facts, point: Point, l: Locals, x: Exchange)
    requires Knows(c, known, point, l) && x.request == RequestAt(c, point, l) && Learns(c, known, x, later)
    requires TeardownPoint(point)
    requires l.managedOCS.uid != 0
    ensures KnowsControl(c, later, Resume(c, point, l, x.response))
  {
    FinishKnows(c, later, l, Error);
  }

  lemma WriteBackTeaches(c: Config, known: Facts, later: Facts, point: Point, l: Locals, x: Exchange)
    requires Knows(c, known, point, l) && x.request == RequestAt(c, point, l) && Learns(c, known, x, later)
    requires point.RemoveFinalizer? || point.SaveStatus?
    requires l.managedOCS.uid != 0
    requires x.response.FoundManagedOCS? ==> x.response.managedOCS.uid != 0
    ensures KnowsControl(c, later, Resume(c, point, l, x.response))
  {
    FinishKnows(c, later, l, Error);
    if x.response.FoundManagedOCS? {
      FinishKnows(c, later, SavedManagedOCS(l, x.response.managedOCS), Completed);
    }
  }

  lemma EnterPhaseKnows(c: Config, known: Facts, l: Locals, index: nat)
    requires l.managedOCS.uid != 0
    requires l.uninstall ==> LabelSeen in known
    requires ReadyForUninstall(l.managedOCS) ==> ComponentsReady(known)
    requires PhasesDone(known, l, index)
    ensures KnowsControl(c, known, EnterPhase(c, l, index))
  {
    if PHASE_COUNT <= index {
      var l' := WithStatus(l, l.managedOCS.status.(strategy := Some(l.strategy)));
      assert PhasesDone(known, l', PHASE_COUNT);
      FinishKnows(c, known, l', Completed);
    }
  }

  lemma PhaseTeaches(c: Config, known: Facts, later: Facts, point: Point, l: Locals, x: Exchange)
    requires Knows(c, known, point, l) && x.request == RequestAt(c, point, l) && Learns(c, known, x, later)
    requires point.LoadParams? || (point.Resources? && point.index != STORAGE_CLUSTER_PHASE)
    requires l.managedOCS.uid != 0
    ensures KnowsControl(c, later, Resume(c, point, l, x.response))
  {
    FinishKnows(c, later, l, Error);
    if point.Resources? {
      if x.response.Done? {
        assert Shows(c, x, PhaseFact(l.strategy, l.params, l.managedOCS.uid, point.index));
        EnterPhaseKnows(c, later, l, point.index + 1);
      }
    } else if x.response.FoundParams? {
      EnterPhaseKnows(c, later, l.(strategy := EffectiveStrategy(l.managedOCS),
                                   params := EffectiveParams(c, x.response.params)), 0);
    }
  }

  lemma StorageClusterReadKnows(c: Config, known: Facts, l: Locals, found: bool)
    requires l.managedOCS.uid != 0
    requires l.uninstall ==> LabelSeen in known
    requires ReadyForUninstall(l.managedOCS) ==> ComponentsReady(known)
    requires PhasesDone(known, l, STORAGE_CLUSTER_PHASE)
    requires found && Settled(c, l.storageCluster, l.strategy, l.params, l.managedOCS.uid) ==>
               PhaseFact(l.strategy, l.params, l.managedOCS.uid, STORAGE_CLUSTER_PHASE) in known
    ensures KnowsControl(c, known, StorageClusterRead(c, l, found))
  {
    var r := Mutated(c.deployment, l.strategy, l.params, l.storageCluster.spec);
    FinishKnows(c, known, l, Error);
    if r.Ok? {
      MutatedIsIdempotent(c.deployment, l.strategy, l.params, l.storageCluster.spec);
      var wanted := l.storageCluster.(owner := l.managedOCS.uid, spec := r.value);
      if found && wanted == l.storageCluster {
        EnterPhaseKnows(c, known, l, STORAGE_CLUSTER_PHASE + 1);
      } else {
        assert PhasesDone(known, l.(storageCluster := wanted), STORAGE_CLUSTER_PHASE);
      }
    }
  }

  lemma LoadStorageClusterTeaches(c: Config, known: Facts, later: Facts, point: Point, l: Locals, x: Exchange)
    requires Knows(c, known, point, l) && x.request == RequestAt(c, point, l) && Learns(c, known, x, later)
    requires point.LoadStorageCluster? && l.managedOCS.uid != 0
    ensures KnowsControl(c, later, Resume(c, point, l, x.response))
  {
    var r := x.response;
    FinishKnows(c, later, l, Error);
    if r.FoundStorageCluster? {
      var l' := l.(storageCluster := r.storageCluster);
      assert PhasesDone(later, l', STORAGE_CLUSTER_PHASE);
      assert Settled(c, r.storageCluster, l.strategy, l.params, l.managedOCS.uid) ==>
          Shows(c, x, PhaseFact(l'.strategy, l'.params, l'.managedOCS.uid, STORAGE_CLUSTER_PHASE));
      StorageClusterReadKnows(c, later, l', true);
    } else if r.Missing? {
      StorageClusterReadKnows(c, later, l, false);
    }
  }

  lemma WriteStorageClusterTeaches(c: Config, known: Facts, later: Facts, point: Point, l: Locals, x: Exchange)
    requires Knows(c, known, point, l) && x.request == RequestAt(c, point, l) && Learns(c, known, x, later)
    requires point.WriteStorageCluster? && l.managedOCS.uid != 0
    ensures KnowsControl(c, later, Resume(c, point, l, x.response))
  {
    FinishKnows(c, later, l, Error);
    if x.response.FoundStorageCluster? {
      assert Shows(c, x, PhaseFact(l.strategy, l.params, l.managedOCS.uid, STORAGE_CLUSTER_PHASE));
      var l' := l.(storageCluster := x.response.storageCluster);
      assert PhasesDone(later, l', STORAGE_CLUSTER_PHASE + 1);
      EnterPhaseKnows(c, later, l', STORAGE_CLUSTER_PHASE + 1);
    }
  }

  lemma ListClassesTeaches(c: Config, known: Facts, later: Facts, point: Point, l: Locals, x: Exchange)
    requires Knows(c, known, point, l) && x.request == RequestAt(c, point, l) && Learns(c, known, x, later)
    requires point.ListClasses? && l.managedOCS.uid != 0
    ensures KnowsControl(c, later, Resume(c, point, l, x.response))
  {
    FinishKnows(c, later, l, Error);
    if x.response.FoundClasses? {
      var names := OCSClasses(c.namespace, x.response.classes);
      assert Shows(c, x, ClassesListed(names));
      assert PhasesDone(later, l.(ocsClasses := names), PHASE_COUNT);
    }
  }

  lemma InUseTeaches(c: Config, known: Facts, later: Facts, point: Point, l: Locals, x: Exchange)
    requires Knows(c, known, point, l) && x.request == RequestAt(c, point, l) && Learns(c, known, x, later)
    requires (point.ListPVs? || point.ListStorageConsumers?) && l.managedOCS.uid != 0
    ensures KnowsControl(c, later, Resume(c, point, l, x.response))
  {
    var r := x.response;
    FinishKnows(c, later, l, Error);
    FinishKnows(c, later, l, Requeue);
    if point.ListPVs? && r.FoundNames? && forall v :: v in r.names ==> v !in l.ocsClasses {
      assert Shows(c, x, VolumesClear(l.ocsClasses));
    }
    assert point.ListStorageConsumers? && r == FoundNames([]) ==> Shows(c, x, NoConsumers);
  }

  lemma RemovalTeaches(c: Config, known: Facts, later: Facts, l: Locals, x: Exchange)
    requires Knows(c, known, RemoveManagedOCS, l) && x.request == DeleteManagedOCS && Learns(c, known, x, later)
    requires l.managedOCS.uid != 0
    ensures KnowsControl(c, later, Resume(c, RemoveManagedOCS, l, x.response))
  {
    FinishKnows(c, later, l, Error);
  }

  lemma ReloadTeaches(c: Config, known: Facts, later: Facts, l: Locals, x: Exchange)
    requires Knows(c, known, ReloadManagedOCS, l) && Learns(c, known, x, later)
    requires l.managedOCS.uid != 0
    requires x.response.FoundManagedOCS? ==> x.response.managedOCS.uid != 0
    ensures KnowsControl(c, later, Resume(c, ReloadManagedOCS, l, x.response))
  {
    FinishKnows(c, later, l, Error);
    FinishKnows(c, later, l, Completed);
    if x.response.FoundManagedOCS? {
      FinishKnows(c, later, l.(managedOCS := x.response.managedOCS), Completed);
    }
  }


  /** After adding the finalizer the status in memory may be the stored one. It cannot say that the
      StorageCluster is ready, because the ManagedOCS never had a finalizer before. */
  lemma AddFinalizerTeaches(c: Config, s: Server, known: Facts, later: Facts, l: Locals, delivery: Delivery)
    requires ServerInv(s) && ControlInv(c, s, At(AddFinalizer, l))
    requires Knows(c, known, AddFinalizer, l) && known <= later
    ensures KnowsControl(c, later, Resume(c, AddFinalizer, l, Heard(s, UpdateManagedOCS(l.managedOCS), delivery)))
  {
    var r := Heard(s, UpdateManagedOCS(l.managedOCS), delivery);
    FinishKnows(c, later, l, Error);
    if r.FoundManagedOCS? {
      assert !r.managedOCS.status.storageCluster.Ready?;
    }
  }

  /** Every answer is either a failure or the truth about the server at that moment. */
  predicate Honest(x: Exchange) {
    x.response.Failed? || x.response == Serve(x.server, x.request).1
  }

  ghost predicate KnowsInv(c: Config, w: World) {
    && (forall i :: 0 <= i < |w.episode| ==> Honest(w.episode[i]))
    && KnowsControl(c, Seen(c, w.episode), w.control)
  }

  lemma StatusCallTeaches(c: Config, known: Facts, later: Facts, point: Point, l: Locals, x: Exchange)
    requires Knows(c, known, point, l) && x.request == RequestAt(c, point, l) && Learns(c, known, x, later)
    requires BeforeBranch(point) || point.LoadManagedOCS?
    requires x.response.FoundManagedOCS? ==> x.response.managedOCS.uid != 0
    ensures KnowsControl(c, later, Resume(c, point, l, x.response))
  {
    match point
    case StatusOfStorageCluster => StatusOfStorageClusterTeaches(c, known, later, point, l, x);
    case StatusOfPrometheus => StatusOfPrometheusTeaches(c, known, later, point, l, x);
    case StatusOfPrometheusSet(_) => StatusOfPrometheusSetTeaches(c, known, later, point, l, x);
    case StatusOfAlertmanager => StatusOfAlertmanagerTeaches(c, known, later, point, l, x);
    case StatusOfAlertmanagerSet(_) => StatusOfAlertmanagerSetTeaches(c, known, later, point, l, x);
    case _ => LoadTeaches(c, known, later, point, l, x);
  }

  lemma InstallCallTeaches(c: Config, known: Facts, later: Facts, point: Point, l: Locals, x: Exchange)
    requires Knows(c, known, point, l) && x.request == RequestAt(c, point, l) && Learns(c, known, x, later)
    requires InstallPoint(point) && l.managedOCS.uid != 0
    requires point.Resources? ==> point.index != STORAGE_CLUSTER_PHASE
    requires x.response.FoundManagedOCS? ==> x.response.managedOCS.uid != 0
    ensures KnowsControl(c, later, Resume(c, point, l, x.response))
  {
    match point
    case LoadStorageCluster => LoadStorageClusterTeaches(c, known, later, point, l, x);
    case WriteStorageCluster(_) => WriteStorageClusterTeaches(c, known, later, point, l, x);
    case ListClasses => ListClassesTeaches(c, known, later, point, l, x);
    case ListPVs => InUseTeaches(c, known, later, point, l, x);
    case ListStorageConsumers => InUseTeaches(c, known, later, point, l, x);
    case RemoveManagedOCS => RemovalTeaches(c, known, later, l, x);
    case ReloadManagedOCS => ReloadTeaches(c, known, later, l, x);
    case _ => PhaseTeaches(c, known, later, point, l, x);
  }

  lemma AnswerTeaches(c: Config, s: Server, known: Facts, later: Facts, point: Point, l: Locals, x: Exchange)
    requires ServerInv(s) && ControlInv(c, s, At(point, l)) && !point.AddFinalizer?
    requires Knows(c, known, point, l) && x.request == RequestAt(c, point, l) && Learns(c, known, x, later)
    requires x.response.FoundManagedOCS? ==> x.response.managedOCS.uid != 0
    ensures KnowsControl(c, later, Resume(c, point, l, x.response))
  {
    if BeforeBranch(point) || point.LoadManagedOCS? {
      StatusCallTeaches(c, known, later, point, l, x);
    } else if InstallPoint(point) {
      InstallCallTeaches(c, known, later, point, l, x);
    } else if point.ListOperators? || point.RemoveOperator? {
      OperatorTeaches(c, known, later, point, l, x);
    } else if DeployerPoint(point) {
      DeployerTeaches(c, known, later, point, l, x);
    } else if TeardownPoint(point) {
      TeardownTeaches(c, known, later, point, l, x);
    } else {
      WriteBackTeaches(c, known, later, point, l, x);
    }
  }

  lemma CallTeaches(c: Config, w: World, delivery: Delivery)
    requires Inv(c, w) && KnowsInv(c, w) && w.control.At?
    ensures KnowsInv(c, Step(c, w, Call(delivery)))
  {
    var point, l := w.control.point, w.control.locals;
    var q := RequestAt(c, point, l);
    var x := Exchange(w.server, q, Heard(w.server, q, delivery));
    var known, later := Seen(c, w.episode), Seen(c, w.episode + [x]);
    EpisodeLearns(c, w.episode, x);
    FoundManagedOCSHasUid(w.server, q);
    assert Honest(x);
    var next := Step(c, w, Call(delivery));
    assert next.control == Resume(c, point, l, x.response) && next.episode == w.episode + [x];
    if point.AddFinalizer? {
      AddFinalizerTeaches(c, w.server, known, later, l, delivery);
    } else {
      AnswerTeaches(c, w.server, known, later, point, l, x);
    }
  }

  lemma {:induction false} RunKeepsKnows(c: Config, w: World, actions: seq<Action>)
    requires Initial(w)
    ensures KnowsInv(c, Run(c, w, actions))
    decreases |actions|
  {
    if actions != [] {
      var before := actions[..|actions| - 1];
      RunKeepsInv(c, w, before);
      RunKeepsKnows(c, w, before);
      var a := actions[|actions| - 1];
      if a.Call? && Run(c, w, before).control.At? {
        CallTeaches(c, Run(c, w, before), a.delivery);
      }
    }
  }

  // ---- the results ----

  /** The delete label was seen, all three components were seen ready, every resource phase succeeded,
      and, for the known deployment types, nothing was seen to use the storage. */
  ghost predicate SafeToUninstall(c: Config, seen: Facts, l: Locals) {
    && LabelSeen in seen
    && StorageClusterReady in seen
    && (exists n :: PrometheusWants(n) in seen && PrometheusHas(n) in seen)
    && (exists n :: AlertmanagerWants(n) in seen && AlertmanagerHas(n) in seen)
    && (forall k :: 0 <= k < PHASE_COUNT && k != STORAGE_CLUSTER_PHASE ==> PhaseSucceeded(k) in seen)
    && StorageClusterSettled(l.strategy, l.params, l.managedOCS.uid) in seen
    && (c.deployment.Provider? ==> NoConsumers in seen)
    && (c.deployment.Converged? || c.deployment.Consumer? ==>
          exists names :: ClassesListed(names) in seen && VolumesClear(names) in seen)
  }

  lemma RemovalIsSafe(c: Config, known: Facts, l: Locals)
    requires Knows(c, known, RemoveManagedOCS, l)
    ensures SafeToUninstall(c, known, l)
  {
    assert PhaseFact(l.strategy, l.params, l.managedOCS.uid, STORAGE_CLUSTER_PHASE) in known;
    forall k | 0 <= k < PHASE_COUNT && k != STORAGE_CLUSTER_PHASE
      ensures PhaseSucceeded(k) in known
    {
      assert PhaseFact(l.strategy, l.params, l.managedOCS.uid, k) in known;
    }
  }

  lemma OnlyRemovalDeletes(c: Config, point: Point, l: Locals)
    ensures RequestAt(c, point, l).DeleteManagedOCS? <==> point.RemoveManagedOCS?
  {
  }

  /** In every run, whenever the next request is to delete the ManagedOCS, this same reconcile has
      seen all that makes it safe, in answers that were true when they were given. A failed call shows
      nothing. */
  lemma UninstallOnlyWhenSafe(c: Config, w: World, actions: seq<Action>)
    requires Initial(w)
    ensures var now := Run(c, w, actions);
            now.control.At? && NextRequest(c, now.control).DeleteManagedOCS? ==>
              && SafeToUninstall(c, Seen(c, now.episode), now.control.locals)
              && forall i :: 0 <= i < |now.episode| ==> Honest(now.episode[i])
  {
    RunKeepsKnows(c, w, actions);
    var now := Run(c, w, actions);
    if now.control.At? {
      OnlyRemovalDeletes(c, now.control.point, now.control.locals);
      if now.control.point.RemoveManagedOCS? {
        RemovalIsSafe(c, Seen(c, now.episode), now.control.locals);
      }
    }
  }

  /** In every run, whenever the next request takes the finalizer off the ManagedOCS, this same
      reconcile has first got NotFound for the StorageCluster and later found the OCS operator gone
      or deleted it; and there is no StorageCluster at this moment either. */
  lemma FinalizerIsRemovedLast(c: Config, w: World, actions: seq<Action>)
    requires Initial(w)
    ensures var now := Run(c, w, actions);
            now.control.At? && NextRequest(c, now.control).UpdateManagedOCS?
            && FINALIZER !in NextRequest(c, now.control).managedOCS.finalizers ==>
              InOrder(StorageClusterMissing, OperatorGone) in Seen(c, now.episode)
              && now.server.storageCluster.None?
  {
    RunKeepsInv(c, w, actions);
    RunKeepsKnows(c, w, actions);
    var now := Run(c, w, actions);
    if now.control.At? && now.control.point.AddFinalizer? {
      var m := now.control.locals.managedOCS;
      assert m.finalizers[|m.finalizers| - 1] == FINALIZER;
    }
  }

  /** In every run, whenever the next request deletes an operator: it is a deployer only if this same
      reconcile saw the delete label and found no ManagedOCS, it is otherwise an OCS operator and this
      reconcile found no StorageCluster; and in both cases there is none at this moment. */
  lemma OperatorsAreDeletedInOrder(c: Config, w: World, actions: seq<Action>)
    requires Initial(w)
    ensures var now := Run(c, w, actions);
            now.control.At? && NextRequest(c, now.control).DeleteCSV? ==>
              var name, seen := NextRequest(c, now.control).name, Seen(c, now.episode);
              && now.server.storageCluster.None?
              && (HasPrefix(name, DEPLOYER) <==> !HasPrefix(name, OCS_OPERATOR))
              && (HasPrefix(name, DEPLOYER) ==> LabelSeen in seen && ManagedOCSMissing in seen)
              && (HasPrefix(name, OCS_OPERATOR) ==> StorageClusterMissing in seen)
  {
    RunKeepsInv(c, w, actions);
    RunKeepsKnows(c, w, actions);
    var now := Run(c, w, actions);
    if now.control.At? && NextRequest(c, now.control).DeleteCSV? {
      PrefixesAreDisjoint(NextRequest(c, now.control).name);
    }
  }
}
