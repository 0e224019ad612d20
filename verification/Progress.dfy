/** Uninstallation makes progress and ends. */
module Progress {
  import opened Prelude
  import opened Phases
  import opened Server
  import opened Controller
  import opened Safety
  import Slices

  // ---- every reconcile ends ----

  function Stage(point: Point): nat {
    match point
    case LoadManagedOCS => 110
    case CheckDeleteLabel => 109
    case StatusOfStorageCluster => 108
    case StatusOfPrometheus => 107
    case StatusOfPrometheusSet(_) => 106
    case StatusOfAlertmanager => 105
    case StatusOfAlertmanagerSet(_) => 104
    case AddFinalizer => 103
    case LoadParams => 102
    case Resources(index) => if index < PHASE_COUNT then 100 - 2 * index else 40
    case LoadStorageCluster => 100 - 2 * STORAGE_CLUSTER_PHASE
    case WriteStorageCluster(_) => 99 - 2 * STORAGE_CLUSTER_PHASE
    case ListClasses => 31
    case ListPVs => 30
    case ListStorageConsumers => 30
    case RemoveManagedOCS => 20
    case ReloadManagedOCS => 19
    case ListOperators => 18
    case RemoveOperator(_) => 17
    case RemoveFinalizer => 16
    case RemoveStorageCluster => 14
    case ListSystems => 13
    case RemoveSystems(_) => 12
    case ListDeployers => 11
    case RemoveDeployer(_) => 10
    case SaveStatus(_) => 1
  }

  function Remaining(point: Point): nat {
    if point.RemoveSystems? then |point.rest| else 0
  }

  predicate Descends(before: Point, after: Point) {
    Stage(after) < Stage(before) || (Stage(after) == Stage(before) && Remaining(after) < Remaining(before))
  }

  lemma EnterPhaseDescends(c: Config, l: Locals, index: nat)
    ensures var next := EnterPhase(c, l, index);
            next.At? ==> Stage(next.point) <= (if index < PHASE_COUNT then 100 - 2 * index else 31)
  {
  }

  lemma StorageClusterReadDescends(c: Config, l: Locals, found: bool)
    ensures var next := StorageClusterRead(c, l, found);
            next.Idle? || (next.At? && Stage(next.point) < Stage(LoadStorageCluster))
  {
    EnterPhaseDescends(c, l, STORAGE_CLUSTER_PHASE + 1);
  }

  lemma InstallDescends(c: Config, point: Point, l: Locals, r: Response)
    requires point.LoadParams? || point.Resources? || point.LoadStorageCluster? || point.WriteStorageCluster?
    ensures var next := Resume(c, point, l, r);
            next.Idle? || (next.At? && Stage(next.point) < Stage(point))
  {
    match point
    case LoadParams =>
      if r.FoundParams? {
        EnterPhaseDescends(c, l.(strategy := EffectiveStrategy(l.managedOCS),
                                 params := EffectiveParams(c, r.params)), 0);
      }
    case Resources(index) => EnterPhaseDescends(c, l, index + 1);
    case LoadStorageCluster =>
      StorageClusterReadDescends(c, l, false);
      if r.FoundStorageCluster? {
        StorageClusterReadDescends(c, l.(storageCluster := r.storageCluster), true);
      }
    case WriteStorageCluster(_) =>
      if r.FoundStorageCluster? {
        EnterPhaseDescends(c, l.(storageCluster := r.storageCluster), STORAGE_CLUSTER_PHASE + 1);
      }
  }

  lemma BranchDescends(l: Locals)
    ensures var next := Branch(l);
            next.Idle? || (next.At? && Stage(next.point) < Stage(StatusOfAlertmanagerSet(1)))
  {
  }

  lemma StatusDescends(c: Config, point: Point, l: Locals, r: Response)
    requires BeforeBranch(point) || point.LoadManagedOCS?
    ensures var next := Resume(c, point, l, r);
            next.Idle? || (next.At? && Stage(next.point) < Stage(point))
  {
    if point.StatusOfAlertmanager? || point.StatusOfAlertmanagerSet? {
      BranchDescends(StatusAfter(l, point, r));
    }
  }

  lemma GuardDescends(c: Config, point: Point, l: Locals, r: Response)
    requires InstallPoint(point) || point.AddFinalizer? || point.SaveStatus?
    requires !(point.LoadParams? || point.Resources? || point.LoadStorageCluster? || point.WriteStorageCluster?)
    ensures var next := Resume(c, point, l, r);
            next.Idle? || (next.At? && Stage(next.point) < Stage(point))
  {
  }

  lemma OperatorRemovalDescends(c: Config, point: Point, l: Locals, r: Response)
    requires FinalizerPoint(point)
    ensures var next := Resume(c, point, l, r);
            next.Idle? || (next.At? && Descends(point, next.point))
  {
  }

  lemma TeardownDescends(c: Config, point: Point, l: Locals, r: Response)
    requires TeardownPoint(point)
    ensures var next := Resume(c, point, l, r);
            next.Idle? || (next.At? && Descends(point, next.point))
  {
  }

  lemma DeployerRemovalDescends(c: Config, point: Point, l: Locals, r: Response)
    requires DeployerPoint(point)
    ensures var next := Resume(c, point, l, r);
            next.Idle? || (next.At? && Descends(point, next.point))
  {
  }

  lemma RemovalDescends(c: Config, point: Point, l: Locals, r: Response)
    requires FinalizerPoint(point) || TeardownPoint(point) || DeployerPoint(point)
    ensures var next := Resume(c, point, l, r);
            next.Idle? || (next.At? && Descends(point, next.point))
  {
    if FinalizerPoint(point) {
      OperatorRemovalDescends(c, point, l, r);
    } else if TeardownPoint(point) {
      TeardownDescends(c, point, l, r);
    } else {
      DeployerRemovalDescends(c, point, l, r);
    }
  }

  /** Whatever the answer, a reconcile is one call closer to its end. */
  lemma EveryReconcileEnds(c: Config, point: Point, l: Locals, r: Response)
    ensures var next := Resume(c, point, l, r);
            next.Idle? || (next.At? && Descends(point, next.point))
  {
    if point.LoadParams? || point.Resources? || point.LoadStorageCluster? || point.WriteStorageCluster? {
      InstallDescends(c, point, l, r);
    } else if BeforeBranch(point) || point.LoadManagedOCS? {
      StatusDescends(c, point, l, r);
    } else if FinalizerPoint(point) || TeardownPoint(point) || DeployerPoint(point) {
      RemovalDescends(c, point, l, r);
    } else {
      GuardDescends(c, point, l, r);
    }
  }

  /** The rest of a reconcile that nobody disturbs and in which no call fails. */
  function CleanRest(c: Config, s: Server, point: Point, l: Locals): Server
    decreases Stage(point), Remaining(point)
  {
    var (t, r) := Serve(s, RequestAt(c, point, l));
    EveryReconcileEnds(c, point, l, r);
    var next := Resume(c, point, l, r);
    if next.Idle? then t else CleanRest(c, t, next.point, next.locals)
  }

  function CleanFrom(c: Config, s: Server, control: Control): Server
    requires !control.Starting?
  {
    if control.Idle? then s else CleanRest(c, s, control.point, control.locals)
  }

  /** What a whole reconcile makes of the server. */
  function CleanReconcile(c: Config, s: Server): Server {
    CleanRest(c, s, LoadManagedOCS, NO_LOCALS)
  }

  function Calls(n: nat): seq<Action> {
    if n == 0 then [] else Calls(n - 1) + [Call(Deliver)]
  }

  lemma {:induction false} CallsFromTheFront(c: Config, w: World, n: nat)
    ensures Run(c, w, Calls(n + 1)) == Run(c, Step(c, w, Call(Deliver)), Calls(n))
  {
    var next := Step(c, w, Call(Deliver));
    RunExtends(c, w, Calls(n), Call(Deliver));
    if n > 0 {
      CallsFromTheFront(c, w, n - 1);
      var last := Run(c, w, Calls(n));
      assert last == Run(c, next, Calls(n - 1));
      RunExtends(c, next, Calls(n - 1), Call(Deliver));
      assert Run(c, next, Calls(n)) == Step(c, last, Call(Deliver));
    }
  }

  /** A clean reconcile is one of the runs: some number of delivered calls in a row. */
  lemma {:induction false} CleanReconcileIsARun(c: Config, w: World, point: Point, l: Locals)
    requires w.control == At(point, l)
    ensures exists n ::
              && Run(c, w, Calls(n)).control.Idle?
              && Run(c, w, Calls(n)).server == CleanRest(c, w.server, point, l)
    decreases Stage(point), Remaining(point)
  {
    var (t, r) := Serve(w.server, RequestAt(c, point, l));
    EveryReconcileEnds(c, point, l, r);
    var next := Step(c, w, Call(Deliver));
    if next.control.Idle? {
      assert Run(c, next, Calls(0)) == next;
      CallsFromTheFront(c, w, 0);
    } else {
      CleanReconcileIsARun(c, next, next.control.point, next.control.locals);
      var n :| Run(c, next, Calls(n)).control.Idle?
               && Run(c, next, Calls(n)).server == CleanRest(c, next.server, next.control.point, next.control.locals);
      CallsFromTheFront(c, w, n);
    }
  }

  /** The pending call is delivered, and its answer is no failure. */
  predicate Answered(c: Config, w: World, delivery: Delivery) {
    delivery.Deliver? && w.control.At? && !Serve(w.server, NextRequest(c, w.control)).1.Failed?
  }

  // ---- how far the uninstallation is ----

  function CountDeployers(csvs: seq<string>): nat {
    if csvs == [] then 0
    else (if HasPrefix(csvs[0], DEPLOYER) then 1 else 0) + CountDeployers(csvs[1..])
  }

  /** What is left: the StorageCluster, the finalizer, the ManagedOCS and the deployers. */
  function Rank(s: Server): nat {
    (if s.storageCluster.Some? then 1 else 0)
    + (if s.managedOCS.Some? && FINALIZER in s.managedOCS.value.finalizers then 1 else 0)
    + (if s.managedOCS.Some? then 1 else 0)
    + CountDeployers(s.csvs)
  }

  predicate Uninstalling(c: Config, s: Server) {
    && (s.managedOCS.Some? ==> s.managedOCS.value.deleting)
    && s.addonLabels.Some? && c.deleteLabelKey in s.addonLabels.value
  }

  lemma {:induction false} RemovingLowersTheCount(csvs: seq<string>, name: string)
    requires name in csvs
    ensures CountDeployers(WithoutName(csvs, name)) ==
            CountDeployers(csvs) - (if HasPrefix(name, DEPLOYER) then 1 else 0)
  {
    if csvs[0] != name {
      RemovingLowersTheCount(csvs[1..], name);
      assert ([csvs[0]] + WithoutName(csvs[1..], name))[1..] == WithoutName(csvs[1..], name);
    }
  }

  lemma {:induction false} CountIsZeroIff(csvs: seq<string>)
    ensures CountDeployers(csvs) == 0 <==> FirstWithPrefix(csvs, DEPLOYER).None?
  {
    if csvs != [] {
      CountIsZeroIff(csvs[1..]);
    }
  }

  /** A reconcile that found the ManagedOCS alive, and so still installs. */
  predicate Installing(control: Control) {
    control.At? &&
    ( || InstallPoint(control.point)
      || control.point.AddFinalizer?
      || (BeforeBranch(control.point) && control.locals.managedOCS.uid != 0 && !control.locals.managedOCS.deleting))
  }

  lemma TeardownServes(c: Config, s: Server, point: Point, l: Locals)
    requires ServerInv(s) && ControlInv(c, s, At(point, l)) && Uninstalling(c, s)
    requires !Installing(At(point, l))
    ensures var t := Serve(s, RequestAt(c, point, l)).0; Uninstalling(c, t) && Rank(t) <= Rank(s)
  {
    var q := RequestAt(c, point, l);
    if q.DeleteCSV? && q.name in s.csvs {
      RemovingLowersTheCount(s.csvs, q.name);
    }
  }

  lemma TeardownStays(c: Config, s: Server, point: Point, l: Locals, r: Response)
    requires ServerInv(s) && ControlInv(c, s, At(point, l)) && Uninstalling(c, s)
    requires !Installing(At(point, l))
    requires r.Failed? || r == Serve(s, RequestAt(c, point, l)).1
    ensures !Installing(Resume(c, point, l, r)) && !Resume(c, point, l, r).Starting?
  {
  }

  /** Once the ManagedOCS is being deleted and the delete label is on, no call of a reconcile that does
      not install any more raises the rank, whether it succeeds, fails or its answer gets lost. */
  lemma CallNeverRaisesRank(c: Config, w: World, delivery: Delivery)
    requires Inv(c, w) && Uninstalling(c, w.server) && !w.control.Starting? && !Installing(w.control)
    ensures var after := Step(c, w, Call(delivery));
            && Rank(after.server) <= Rank(w.server)
            && Uninstalling(c, after.server) && !after.control.Starting? && !Installing(after.control)
  {
    if w.control.At? {
      var point, l := w.control.point, w.control.locals;
      TeardownServes(c, w.server, point, l);
      TeardownStays(c, w.server, point, l, Heard(w.server, RequestAt(c, point, l), delivery));
    }
  }

  /** Others let the uninstallation be: they neither take the label off nor add to what is left. */
  predicate Undisturbed(c: Config, w: World, a: Action) {
    match a
    case Crash => false
    case Interfere(server) => Uninstalling(c, server) && Rank(server) <= Rank(w.server)
    case _ => true
  }

  predicate UndisturbedRun(c: Config, w: World, actions: seq<Action>)
    decreases |actions|
  {
    actions == [] ||
    ( && UndisturbedRun(c, w, actions[..|actions| - 1])
      && Undisturbed(c, Run(c, w, actions[..|actions| - 1]), actions[|actions| - 1]))
  }

  /** Over whole runs without a restart, any mix of failing calls included, the rank never rises. */
  lemma {:induction false} RankNeverRises(c: Config, w: World, actions: seq<Action>)
    requires Inv(c, w) && Uninstalling(c, w.server) && !w.control.Starting? && !Installing(w.control)
    requires UndisturbedRun(c, w, actions)
    ensures var after := Run(c, w, actions);
            && Rank(after.server) <= Rank(w.server)
            && Inv(c, after) && Uninstalling(c, after.server)
            && !after.control.Starting? && !Installing(after.control)
    decreases |actions|
  {
    if actions != [] {
      var before := actions[..|actions| - 1];
      RankNeverRises(c, w, before);
      var now, a := Run(c, w, before), actions[|actions| - 1];
      StepKeepsInv(c, now, a);
      if a.Call? {
        CallNeverRaisesRank(c, now, a.delivery);
      }
    }
  }

  // Without the two exclusions this is false, and here is exactly when.

  /** The two calls that add something: main makes the ManagedOCS when there is none, and a reconcile that
      loaded the ManagedOCS before its deletion creates the StorageCluster when there is none. */
  predicate Adds(w: World) {
    match w.control
    case Idle(_) => false
    case Starting => w.server.managedOCS.None?
    case At(point, l) =>
      point == WriteStorageCluster(true) && w.server.storageCluster.None? && l.storageCluster.version == 0
  }

  lemma OtherCallsAddNothing(c: Config, s: Server, point: Point, l: Locals)
    requires ServerInv(s) && ControlInv(c, s, At(point, l)) && Uninstalling(c, s) && Installing(At(point, l))
    requires !point.WriteStorageCluster?
    ensures Rank(Serve(s, RequestAt(c, point, l)).0) <= Rank(s)
  {
  }

  lemma WriteRaisesRankIff(c: Config, s: Server, l: Locals, create: bool)
    ensures Rank(Serve(s, RequestAt(c, WriteStorageCluster(create), l)).0)
         == Rank(s) + if create && s.storageCluster.None? && l.storageCluster.version == 0 then 1 else 0
  {
  }

  /** While the uninstallation is on, a call raises the rank exactly if it is one of these two and reaches
      the server. */
  lemma CallRaisesRankIff(c: Config, w: World, delivery: Delivery)
    requires Inv(c, w) && Uninstalling(c, w.server)
    ensures Rank(Step(c, w, Call(delivery)).server) > Rank(w.server) <==> Adds(w) && !delivery.Refuse?
  {
    match w.control {
      case Idle(_) =>
      case Starting =>
      case At(point, l) =>
        if !Installing(w.control) {
          TeardownServes(c, w.server, point, l);
        } else if point.WriteStorageCluster? {
          WriteRaisesRankIff(c, w.server, l, point.create);
        } else {
          OtherCallsAddNothing(c, w.server, point, l);
        }
    }
  }

  // ---- what a clean reconcile does to an installation that is being removed ----

  function Loaded(s: Server): ManagedOCS {
    if s.managedOCS.Some? then s.managedOCS.value else NO_MANAGED_OCS
  }

  function LoadedStorageCluster(s: Server): StorageCluster {
    if s.storageCluster.Some? then s.storageCluster.value else NO_STORAGE_CLUSTER
  }

  /** The locals agree with the server, apart from component states other than NotFound. */
  predicate InStep(c: Config, s: Server, l: Locals) {
    && l.managedOCS == Loaded(s).(status := l.managedOCS.status)
    && l.storageCluster == LoadedStorageCluster(s)
    && (l.uninstall <==> s.addonLabels.Some? && c.deleteLabelKey in s.addonLabels.value)
  }

  lemma CleanFirstCalls(c: Config, s: Server) returns (l: Locals)
    ensures CleanReconcile(c, s) == CleanRest(c, s, StatusOfStorageCluster, l)
    ensures l == NO_LOCALS.(managedOCS := Loaded(s),
                            uninstall := s.addonLabels.Some? && c.deleteLabelKey in s.addonLabels.value)
  {
    var l1 := NO_LOCALS.(managedOCS := Loaded(s));
    assert Resume(c, LoadManagedOCS, NO_LOCALS, Serve(s, GetManagedOCS).1) == At(CheckDeleteLabel, l1);
    assert CleanReconcile(c, s) == CleanRest(c, s, CheckDeleteLabel, l1);
    l := l1.(uninstall := s.addonLabels.Some? && c.deleteLabelKey in s.addonLabels.value);
    assert CleanRest(c, s, CheckDeleteLabel, l1) == CleanRest(c, s, StatusOfStorageCluster, l);
  }

  lemma CleanLoad(c: Config, s: Server) returns (l: Locals)
    ensures CleanReconcile(c, s) == CleanRest(c, s, StatusOfPrometheus, l)
    ensures InStep(c, s, l)
    ensures l.managedOCS.status.storageCluster.NotFound? <==> s.storageCluster.None?
  {
    var l2 := CleanFirstCalls(c, s);
    l := StatusAfter(l2, StatusOfStorageCluster, Serve(s, GetStorageCluster).1);
    assert CleanRest(c, s, StatusOfStorageCluster, l2) == CleanRest(c, s, StatusOfPrometheus, l);
  }

  lemma CleanPrometheus(c: Config, s: Server, l: Locals) returns (l': Locals)
    requires InStep(c, s, l)
    ensures CleanRest(c, s, StatusOfPrometheus, l) == CleanRest(c, s, StatusOfAlertmanager, l')
    ensures InStep(c, s, l')
    ensures l'.managedOCS.status.storageCluster == l.managedOCS.status.storageCluster
  {
    var r := Serve(s, GetPrometheus).1;
    if r.FoundReplicas? {
      var set_ := StatusOfPrometheusSet(Desired(r.replicas));
      assert CleanRest(c, s, StatusOfPrometheus, l) == CleanRest(c, s, set_, l);
      l' := StatusAfter(l, set_, Serve(s, GetPrometheusSet).1);
      assert CleanRest(c, s, set_, l) == CleanRest(c, s, StatusOfAlertmanager, l');
    } else {
      l' := StatusAfter(l, StatusOfPrometheus, r);
    }
  }

  lemma CleanAlertmanager(c: Config, s: Server, l: Locals) returns (l': Locals)
    requires InStep(c, s, l)
    ensures CleanRest(c, s, StatusOfAlertmanager, l) == CleanFrom(c, s, Branch(l'))
    ensures InStep(c, s, l')
    ensures l'.managedOCS.status.storageCluster == l.managedOCS.status.storageCluster
  {
    var r := Serve(s, GetAlertmanager).1;
    if r.FoundReplicas? {
      var set_ := StatusOfAlertmanagerSet(Desired(r.replicas));
      assert CleanRest(c, s, StatusOfAlertmanager, l) == CleanRest(c, s, set_, l);
      l' := StatusAfter(l, set_, Serve(s, GetAlertmanagerSet).1);
    } else {
      l' := StatusAfter(l, StatusOfAlertmanager, r);
    }
  }

  /** The status part of a clean reconcile only finds out what to do. */
  lemma CleanStatus(c: Config, s: Server) returns (l: Locals)
    ensures CleanReconcile(c, s) == CleanFrom(c, s, Branch(l))
    ensures InStep(c, s, l)
    ensures l.managedOCS.status.storageCluster.NotFound? <==> s.storageCluster.None?
  {
    var l1 := CleanLoad(c, s);
    var l2 := CleanPrometheus(c, s, l1);
    l := CleanAlertmanager(c, s, l2);
  }

  /** Saving the status touches neither the finalizers nor anything else that counts. */
  lemma CleanSave(c: Config, s: Server, l: Locals, outcome: Outcome)
    requires s.managedOCS.Some? ==> s.managedOCS.value.uid > 0
    ensures var t := CleanFrom(c, s, Finish(l, outcome));
            && t.storageCluster == s.storageCluster && t.csvs == s.csvs && t.addonLabels == s.addonLabels
            && t.storageSystems == s.storageSystems
            && (t.managedOCS.Some? <==> s.managedOCS.Some?)
            && (t.managedOCS.Some? ==>
                  && t.managedOCS.value.finalizers == s.managedOCS.value.finalizers
                  && t.managedOCS.value.deleting == s.managedOCS.value.deleting)
  {
    if l.managedOCS.uid != 0 {
      var (t, r) := Serve(s, UpdateManagedOCSStatus(l.managedOCS));
      assert Resume(c, SaveStatus(outcome), l, r).Idle?;
      assert CleanRest(c, s, SaveStatus(outcome), l) == t;
    }
  }

  lemma {:induction false} CleanSystems(c: Config, s: Server, l: Locals, rest: seq<string>)
    requires l.managedOCS.uid != 0
    requires s.managedOCS.Some? ==> s.managedOCS.value.uid > 0
    ensures var t := CleanFrom(c, s, RemovingSystems(l, rest));
            && t.storageCluster == s.storageCluster && Rank(t) == Rank(s)
            && (s.storageSystems == rest ==> t.storageSystems == [])
            && (Uninstalling(c, s) ==> Uninstalling(c, t))
    decreases |rest|
  {
    if rest == [] {
      CleanSave(c, s, l, Completed);
    } else {
      var (t, r) := Serve(s, DeleteStorageSystem(rest[0]));
      assert Resume(c, RemoveSystems(rest), l, r) == RemovingSystems(l, rest[1..]);
      CleanSystems(c, t, l, rest[1..]);
    }
  }

  /** The ManagedOCS is going and there is a StorageCluster: its deletion is asked for, and the StorageSystems go. */
  lemma CleanTeardown(c: Config, s: Server, l: Locals)
    requires ServerInv(s) && InStep(c, s, l)
    requires s.managedOCS.Some? && s.storageCluster.Some?
    ensures var t := CleanRest(c, s, RemoveStorageCluster, l);
            && t.storageSystems == []
            && (Uninstalling(c, s) ==> Uninstalling(c, t))
            && Rank(t) == Rank(s) - (if s.storageCluster.value.finalizers == [] then 1 else 0)
            && (t.storageCluster.Some? <==> s.storageCluster.value.finalizers != [])
            && (t.storageCluster.Some? ==> t.storageCluster.value.deleting)
  {
    var (t, r) := Serve(s, DeleteStorageCluster);
    assert Resume(c, RemoveStorageCluster, l, r) == At(ListSystems, l);
    assert Resume(c, ListSystems, l, Serve(t, ListStorageSystems).1) == RemovingSystems(l, t.storageSystems);
    assert CleanRest(c, s, RemoveStorageCluster, l) == CleanRest(c, t, ListSystems, l);
    assert CleanRest(c, t, ListSystems, l) == CleanFrom(c, t, RemovingSystems(l, t.storageSystems));
    CleanSystems(c, t, l, t.storageSystems);
  }

  /** Removing the finalizer succeeds, and removes the ManagedOCS unless others hold on to it. */
  lemma CleanRemoveFinalizer(c: Config, s: Server, l: Locals)
    requires ServerInv(s) && Uninstalling(c, s) && l.managedOCS == Loaded(s).(status := l.managedOCS.status)
    requires s.managedOCS.Some? && s.storageCluster.None?
    ensures var t := CleanFrom(c, s, RemovingFinalizer(l));
            && Uninstalling(c, t) && t.storageCluster.None?
            && (t.managedOCS.Some? ==> FINALIZER !in t.managedOCS.value.finalizers)
            && t.csvs == s.csvs
            && (t.managedOCS.None? <==> forall f :: f in s.managedOCS.value.finalizers ==> f == FINALIZER)
            && (FINALIZER !in s.managedOCS.value.finalizers ==> t.managedOCS.Some?)
  {
    assert s.managedOCS.value.finalizers[0] in s.managedOCS.value.finalizers;
    var left := Slices.Without(l.managedOCS.finalizers, FINALIZER);
    assert left == [] <==> forall f :: f in s.managedOCS.value.finalizers ==> f == FINALIZER by {
      if left != [] {
        assert left[0] in left;
      }
    }
    var l' := WithFinalizers(l, left);
    var (t, r) := Serve(s, UpdateManagedOCS(l'.managedOCS));
    assert CleanRest(c, s, RemoveFinalizer, l') == CleanFrom(c, t, Resume(c, RemoveFinalizer, l', r));
    CleanSave(c, t, SavedManagedOCS(l', r.managedOCS), Completed);
  }

  lemma RemovingAnOperator(c: Config, s: Server, name: string)
    requires HasPrefix(name, OCS_OPERATOR) && name in s.csvs
    ensures CountDeployers(WithoutName(s.csvs, name)) == CountDeployers(s.csvs)
  {
    PrefixesAreDisjoint(name);
    RemovingLowersTheCount(s.csvs, name);
  }

  /** Removing the OCS operator, if there is one, leads to the removal of the finalizer. */
  lemma CleanOperator(c: Config, s: Server, l: Locals) returns (t: Server)
    requires l.managedOCS.uid != 0
    ensures CleanRest(c, s, ListOperators, l) == CleanFrom(c, t, RemovingFinalizer(l))
    ensures t == s.(csvs := t.csvs) && CountDeployers(t.csvs) == CountDeployers(s.csvs)
  {
    var r := Serve(s, ListCSVs).1;
    var found := FirstWithPrefix(s.csvs, OCS_OPERATOR);
    if found.None? {
      t := s;
      assert Resume(c, ListOperators, l, r) == RemovingFinalizer(l);
    } else {
      var name := found.value;
      t := s.(csvs := WithoutName(s.csvs, name));
      assert Resume(c, ListOperators, l, r) == At(RemoveOperator(name), l);
      assert CleanRest(c, s, ListOperators, l) == CleanRest(c, s, RemoveOperator(name), l);
      CleanRemoveOperator(c, s, l, name);
      RemovingAnOperator(c, s, name);
    }
  }

  lemma CleanRemoveOperator(c: Config, s: Server, l: Locals, name: string)
    requires name in s.csvs
    ensures CleanRest(c, s, RemoveOperator(name), l)
            == CleanFrom(c, s.(csvs := WithoutName(s.csvs, name)), RemovingFinalizer(l))
  {
    assert Serve(s, DeleteCSV(name)) == (s.(csvs := WithoutName(s.csvs, name)), Done);
    assert Resume(c, RemoveOperator(name), l, Done) == RemovingFinalizer(l);
  }

  /** The ManagedOCS is going and there is no StorageCluster. */
  lemma CleanFinalizer(c: Config, s: Server, l: Locals)
    requires ServerInv(s) && Uninstalling(c, s) && InStep(c, s, l)
    requires s.managedOCS.Some? && s.storageCluster.None?
    ensures var t := CleanRest(c, s, ListOperators, l);
            && Uninstalling(c, t) && t.storageCluster.None?
            && (t.managedOCS.Some? ==> FINALIZER !in t.managedOCS.value.finalizers)
            && (FINALIZER !in s.managedOCS.value.finalizers ==> t.managedOCS.Some?)
            && CountDeployers(t.csvs) == CountDeployers(s.csvs)
  {
    var t := CleanOperator(c, s, l);
    CleanRemoveFinalizer(c, t, l);
  }

  lemma CleanRemoveDeployer(c: Config, s: Server, l: Locals, name: string)
    requires l.managedOCS.uid == 0 && name in s.csvs
    ensures CleanRest(c, s, RemoveDeployer(name), l) == s.(csvs := WithoutName(s.csvs, name))
  {
    assert Serve(s, DeleteCSV(name)) == (s.(csvs := WithoutName(s.csvs, name)), Done);
    assert Resume(c, RemoveDeployer(name), l, Done) == Idle(Completed);
  }

  /** The ManagedOCS is gone: one deployer goes too. */
  lemma CleanDeployer(c: Config, s: Server, l: Locals)
    requires l.managedOCS.uid == 0
    ensures var t := CleanRest(c, s, ListDeployers, l);
            && t == s.(csvs := t.csvs)
            && CountDeployers(t.csvs) == (if CountDeployers(s.csvs) == 0 then 0 else CountDeployers(s.csvs) - 1)
  {
    CountIsZeroIff(s.csvs);
    var found := FirstWithPrefix(s.csvs, DEPLOYER);
    var r := Serve(s, ListCSVs).1;
    if found.None? {
      assert Resume(c, ListDeployers, l, r) == Idle(Completed);
      assert CleanRest(c, s, ListDeployers, l) == s;
    } else {
      var name := found.value;
      assert Resume(c, ListDeployers, l, r) == At(RemoveDeployer(name), l);
      assert CleanRest(c, s, ListDeployers, l) == CleanRest(c, s, RemoveDeployer(name), l);
      RemovingLowersTheCount(s.csvs, name);
      CleanRemoveDeployer(c, s, l, name);
    }
  }

  /** Only others can go on: the StorageCluster, or the ManagedOCS, still has finalizers of theirs. */
  predicate Waiting(s: Server) {
    || (s.storageCluster.Some? && s.storageCluster.value.finalizers != [])
    || (s.storageCluster.None? && s.managedOCS.Some? && FINALIZER !in s.managedOCS.value.finalizers)
  }

  /** What one clean reconcile achieves. */
  predicate Progressed(c: Config, s: Server, t: Server) {
    && Uninstalling(c, t)
    && Rank(t) <= Rank(s)
    && (Rank(t) < Rank(s) <==> Rank(s) > 0 && !Waiting(s))
    && (t.storageCluster.Some? ==> t.storageCluster.value.deleting)
  }

  lemma DeployerProgress(c: Config, s: Server, t: Server)
    requires ServerInv(s) && Uninstalling(c, s) && s.managedOCS.None? && t == s.(csvs := t.csvs)
    requires CountDeployers(t.csvs) == (if CountDeployers(s.csvs) == 0 then 0 else CountDeployers(s.csvs) - 1)
    ensures Progressed(c, s, t)
  {
  }

  lemma FinalizerProgress(c: Config, s: Server, t: Server)
    requires ServerInv(s) && s.managedOCS.Some? && s.storageCluster.None?
    requires Uninstalling(c, t) && t.storageCluster.None?
    requires t.managedOCS.Some? ==> FINALIZER !in t.managedOCS.value.finalizers
    requires FINALIZER !in s.managedOCS.value.finalizers ==> t.managedOCS.Some?
    requires CountDeployers(t.csvs) == CountDeployers(s.csvs)
    ensures Progressed(c, s, t)
  {
  }

  lemma TeardownProgress(c: Config, s: Server, t: Server)
    requires s.storageCluster.Some? && s.managedOCS.Some? && Uninstalling(c, t)
    requires Rank(t) == Rank(s) - (if s.storageCluster.value.finalizers == [] then 1 else 0)
    requires t.storageCluster.Some? ==> t.storageCluster.value.deleting
    ensures Progressed(c, s, t)
  {
  }

  /** A reconcile in which no call fails lowers the rank, exactly unless there is nothing left or it has
      to wait for others; and then at least the deletion of the StorageCluster has been asked for. */
  lemma CleanReconcileMakesProgress(c: Config, s: Server)
    requires ServerInv(s) && Uninstalling(c, s)
    ensures Progressed(c, s, CleanReconcile(c, s))
  {
    var l := CleanStatus(c, s);
    if s.managedOCS.None? {
      assert Branch(l) == At(ListDeployers, l);
      CleanDeployer(c, s, l);
      DeployerProgress(c, s, CleanReconcile(c, s));
    } else if s.storageCluster.None? {
      assert Branch(l) == At(ListOperators, l);
      CleanFinalizer(c, s, l);
      FinalizerProgress(c, s, CleanReconcile(c, s));
    } else {
      assert Branch(l) == At(RemoveStorageCluster, l);
      CleanTeardown(c, s, l);
      TeardownProgress(c, s, CleanReconcile(c, s));
    }
  }

  /** Such a reconcile leaves no StorageSystem, and no StorageCluster that is not marked; the delete label is not
      needed for that. */
  lemma CleanReconcileTearsDown(c: Config, s: Server)
    requires ServerInv(s)
    requires s.managedOCS.Some? && s.managedOCS.value.deleting && s.storageCluster.Some?
    ensures var t := CleanReconcile(c, s);
            && t.storageSystems == []
            && (t.storageCluster.Some? <==> s.storageCluster.value.finalizers != [])
            && (t.storageCluster.Some? ==> t.storageCluster.value.deleting)
  {
    var l := CleanStatus(c, s);
    assert Branch(l) == At(RemoveStorageCluster, l);
    CleanTeardown(c, s, l);
  }

  predicate Gone(s: Server) {
    s.storageCluster.None? && s.managedOCS.None? && forall n :: n in s.csvs ==> !HasPrefix(n, DEPLOYER)
  }

  lemma GoneIsRankZero(s: Server)
    ensures Gone(s) <==> Rank(s) == 0
  {
    CountIsZeroIff(s.csvs);
  }
}
