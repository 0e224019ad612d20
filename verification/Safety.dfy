/** What holds in every reachable state of every run. */
module Safety {
  import opened Prelude
  import opened StorageClusters
  import opened Phases
  import opened Server
  import opened Controller

  // ---- the server ----

  predicate WellFormed(s: Server) {
    && s.clock > 0
    && (s.managedOCS.Some? ==>
          var m := s.managedOCS.value;
          && 0 < m.uid < s.clock && m.version < s.clock
          && (m.deleting ==> m.finalizers != []))
    && (s.storageCluster.Some? ==> s.storageCluster.value.version < s.clock)
  }

  /** The ManagedOCS with this uid exists and carries the operator's finalizer. */
  predicate Held(s: Server, uid: nat) {
    s.managedOCS.Some? && s.managedOCS.value.uid == uid && FINALIZER in s.managedOCS.value.finalizers
  }

  /** A StorageCluster is never left behind: its owner exists and cannot disappear. */
  predicate Guarded(s: Server) {
    s.storageCluster.Some? ==> Held(s, s.storageCluster.value.owner)
  }

  /** A live ManagedOCS that never had the finalizer never had a StorageCluster to be ready. */
  predicate StatusHonest(s: Server) {
    s.managedOCS.Some? ==>
      var m := s.managedOCS.value;
      m.deleting || FINALIZER in m.finalizers || !m.status.storageCluster.Ready?
  }

  predicate ServerInv(s: Server) {
    WellFormed(s) && Guarded(s) && StatusHonest(s)
  }

  // ---- what the controller remembers ----

  /** `m` is some earlier state of the stored object with its uid. */
  predicate Snapshot(s: Server, m: ManagedOCS) {
    && m.uid < s.clock && m.version < s.clock
    && (s.managedOCS.Some? && s.managedOCS.value.uid == m.uid ==>
          var stored := s.managedOCS.value;
          && m.version <= stored.version
          && (m.deleting ==> stored.deleting)
          && (m.version == stored.version ==> m.deleting == stored.deleting))
  }

  predicate ExactFinalizers(s: Server, m: ManagedOCS, finalizers: seq<string>) {
    SameManagedOCS(s, m) ==> s.managedOCS.value.finalizers == finalizers
  }

  predicate BeforeBranch(point: Point) {
    || point.CheckDeleteLabel? || point.StatusOfStorageCluster? || point.StatusOfPrometheus?
    || point.StatusOfPrometheusSet? || point.StatusOfAlertmanager? || point.StatusOfAlertmanagerSet?
  }

  predicate StatusRead(point: Point) {
    BeforeBranch(point) && !point.CheckDeleteLabel? && !point.StatusOfStorageCluster?
  }

  /** The part of the live branch where the finalizer is known to be on. */
  predicate InstallPoint(point: Point) {
    || point.LoadParams? || point.Resources? || point.LoadStorageCluster? || point.WriteStorageCluster?
    || point.ListClasses? || point.ListPVs? || point.ListStorageConsumers?
    || point.RemoveManagedOCS? || point.ReloadManagedOCS?
  }

  predicate FinalizerPoint(point: Point) {
    point.ListOperators? || point.RemoveOperator? || point.RemoveFinalizer?
  }

  predicate TeardownPoint(point: Point) {
    point.RemoveStorageCluster? || point.ListSystems? || point.RemoveSystems?
  }

  predicate DeployerPoint(point: Point) {
    point.ListDeployers? || point.RemoveDeployer?
  }

  /** The write of a StorageCluster the controller holds would not shrink it. */
  predicate WriteIsSafe(c: Config, s: Server, held: StorageCluster) {
    && (s.storageCluster.Some? && s.storageCluster.value.uid == held.uid ==>
          held.version <= s.storageCluster.value.version)
    && (Sized(c.deployment) && SameStorageCluster(s, held) ==>
          DeviceCount(s.storageCluster.value.spec) <= DeviceCount(held.spec))
  }

  predicate PointInv(c: Config, s: Server, point: Point, l: Locals) {
    var m := l.managedOCS;
    if point.LoadManagedOCS? then l == NO_LOCALS
    else if BeforeBranch(point) then
      && (FINALIZER in m.finalizers ==> Held(s, m.uid))
      && (FINALIZER !in m.finalizers ==> s.storageCluster.None?)
      && (m.uid == 0 ==> m.finalizers == [] && !m.deleting)
      && ExactFinalizers(s, m, m.finalizers)
      && (StatusRead(point) && FINALIZER !in m.finalizers ==> !m.status.storageCluster.Ready?)
      && (StatusRead(point) && m.status.storageCluster.NotFound? ==> s.storageCluster.None?)
    else if FinalizerPoint(point) then
      && m.uid != 0 && m.deleting && s.storageCluster.None?
      && (point.RemoveFinalizer? ==> FINALIZER !in m.finalizers)
    else if TeardownPoint(point) then m.uid != 0 && m.deleting
    else if point.AddFinalizer? then
      && m.uid != 0 && !m.deleting && s.storageCluster.None?
      && !m.status.storageCluster.Ready?
      && |m.finalizers| > 0 && FINALIZER !in m.finalizers[..|m.finalizers| - 1]
      && m.finalizers[|m.finalizers| - 1] == FINALIZER
      && ExactFinalizers(s, m, m.finalizers[..|m.finalizers| - 1])
    else if InstallPoint(point) then
      && m.uid != 0 && Held(s, m.uid)
      && (point.Resources? ==> point.index != STORAGE_CLUSTER_PHASE)
      && (point.WriteStorageCluster? ==> l.storageCluster.owner == m.uid && WriteIsSafe(c, s, l.storageCluster))
    else if DeployerPoint(point) then m.uid == 0 && s.storageCluster.None?
    else m.uid != 0 && (Held(s, m.uid) || m.deleting || !m.status.storageCluster.Ready?)
  }

  predicate ControlInv(c: Config, s: Server, control: Control) {
    control.At? ==>
      && Snapshot(s, control.locals.managedOCS)
      && control.locals.storageCluster.version < s.clock
      && PointInv(c, s, control.point, control.locals)
  }

  predicate Inv(c: Config, w: World) {
    ServerInv(w.server) && ControlInv(c, w.server, w.control)
  }

  // ---- everybody else ----

  lemma InterferenceKeepsServerInv(s: Server, t: Server)
    requires ServerInv(s) && Interference(s, t)
    ensures ServerInv(t)
  {
  }

  lemma InterferenceKeepsHeld(s: Server, t: Server, uid: nat)
    requires ServerInv(s) && Interference(s, t) && Held(s, uid)
    ensures Held(t, uid)
  {
  }

  lemma InterferenceKeepsSnapshot(s: Server, t: Server, m: ManagedOCS)
    requires ServerInv(s) && Interference(s, t) && Snapshot(s, m)
    ensures Snapshot(t, m)
    ensures SameManagedOCS(t, m) ==> t.managedOCS == s.managedOCS
  {
  }

  lemma InterferenceKeepsControlInv(c: Config, s: Server, t: Server, control: Control)
    requires ServerInv(s) && ControlInv(c, s, control) && Interference(s, t)
    ensures ControlInv(c, t, control)
  {
    if control.At? {
      var m := control.locals.managedOCS;
      InterferenceKeepsSnapshot(s, t, m);
      if Held(s, m.uid) {
        InterferenceKeepsHeld(s, t, m.uid);
      }
    }
  }

  // ---- the controller's own calls ----

  predicate WritesManagedOCS(point: Point) {
    point.AddFinalizer? || point.RemoveFinalizer? || point.RemoveManagedOCS? || point.SaveStatus?
  }

  lemma OtherCallsLeaveManagedOCS(c: Config, s: Server, point: Point, l: Locals)
    requires !WritesManagedOCS(point)
    ensures var t := Serve(s, RequestAt(c, point, l)).0; t.managedOCS == s.managedOCS && s.clock <= t.clock
  {
  }

  lemma ManagedOCSCallKeepsServerInv(c: Config, s: Server, point: Point, l: Locals)
    requires ServerInv(s) && ControlInv(c, s, At(point, l)) && WritesManagedOCS(point)
    ensures ServerInv(Serve(s, RequestAt(c, point, l)).0)
  {
    if point.AddFinalizer? && SameManagedOCS(s, l.managedOCS) {
      assert FINALIZER in l.managedOCS.finalizers;
    }
  }

  lemma OtherCallKeepsServerInv(c: Config, s: Server, point: Point, l: Locals)
    requires ServerInv(s) && ControlInv(c, s, At(point, l)) && !WritesManagedOCS(point)
    ensures ServerInv(Serve(s, RequestAt(c, point, l)).0)
  {
  }

  /** What is true of the server alone survives each of the controller's calls. */
  lemma ServeKeepsServerInv(c: Config, s: Server, point: Point, l: Locals)
    requires ServerInv(s) && ControlInv(c, s, At(point, l))
    ensures ServerInv(Serve(s, RequestAt(c, point, l)).0)
  {
    if WritesManagedOCS(point) {
      ManagedOCSCallKeepsServerInv(c, s, point, l);
    } else {
      OtherCallKeepsServerInv(c, s, point, l);
    }
  }

  lemma ServeLeavesSnapshot(c: Config, s: Server, point: Point, l: Locals, m: ManagedOCS)
    requires ServerInv(s) && Snapshot(s, m)
    ensures Snapshot(Serve(s, RequestAt(c, point, l)).0, m)
  {
    if !WritesManagedOCS(point) {
      OtherCallsLeaveManagedOCS(c, s, point, l);
    }
  }

  lemma ServeKeepsHeld(c: Config, s: Server, point: Point, l: Locals, uid: nat)
    requires ServerInv(s) && ControlInv(c, s, At(point, l)) && Held(s, uid) && !point.RemoveFinalizer?
    ensures Held(Serve(s, RequestAt(c, point, l)).0, uid)
  {
    if point.AddFinalizer? {
      assert FINALIZER in l.managedOCS.finalizers;
    }
  }

  /** The controller's requests leave every snapshot a snapshot, and only RemoveFinalizer gives up
      the finalizer. */
  lemma ServeKeepsSnapshot(c: Config, s: Server, point: Point, l: Locals, m: ManagedOCS)
    requires ServerInv(s) && ControlInv(c, s, At(point, l)) && Snapshot(s, m)
    ensures Snapshot(Serve(s, RequestAt(c, point, l)).0, m)
    ensures Held(s, m.uid) && !point.RemoveFinalizer? ==> Held(Serve(s, RequestAt(c, point, l)).0, m.uid)
  {
    ServeLeavesSnapshot(c, s, point, l, m);
    if Held(s, m.uid) && !point.RemoveFinalizer? {
      ServeKeepsHeld(c, s, point, l, m.uid);
    }
  }

  lemma AddingKeepsInv(c: Config, s: Server, l: Locals)
    requires ServerInv(s) && Snapshot(s, l.managedOCS) && l.storageCluster.version < s.clock
    requires PointInv(c, s, StatusOfAlertmanager, l)
    requires l.managedOCS.uid != 0 && !l.managedOCS.deleting && FINALIZER !in l.managedOCS.finalizers
    ensures ControlInv(c, s, At(AddFinalizer, WithFinalizers(l, l.managedOCS.finalizers + [FINALIZER])))
  {
    var m := l.managedOCS;
    assert (m.finalizers + [FINALIZER])[..|m.finalizers|] == m.finalizers;
  }

  lemma BranchKeepsInv(c: Config, s: Server, l: Locals)
    requires ServerInv(s) && Snapshot(s, l.managedOCS) && l.storageCluster.version < s.clock
    requires PointInv(c, s, StatusOfAlertmanager, l)
    ensures ControlInv(c, s, Branch(l))
  {
    var m := l.managedOCS;
    if !m.deleting && m.uid != 0 && FINALIZER !in m.finalizers {
      AddingKeepsInv(c, s, l);
    }
  }

  /** The server after a call, and what the controller hears of it. */
  function After(s: Server, q: Request, delivery: Delivery): Server {
    if delivery.Refuse? then s else Serve(s, q).0
  }

  function Heard(s: Server, q: Request, delivery: Delivery): Response {
    Received(delivery, Serve(s, q).1)
  }

  predicate CallIsSafe(c: Config, s: Server, point: Point, l: Locals, delivery: Delivery) {
    var q := RequestAt(c, point, l);
    ControlInv(c, After(s, q, delivery), Resume(c, point, l, Heard(s, q, delivery)))
  }

  lemma FinishKeepsInv(c: Config, s: Server, l: Locals, outcome: Outcome)
    requires Snapshot(s, l.managedOCS) && l.storageCluster.version < s.clock
    requires Held(s, l.managedOCS.uid) || l.managedOCS.deleting || !l.managedOCS.status.storageCluster.Ready?
    ensures ControlInv(c, s, Finish(l, outcome))
  {
  }

  lemma EnterPhaseKeepsInv(c: Config, s: Server, l: Locals, index: nat)
    requires Snapshot(s, l.managedOCS) && l.storageCluster.version < s.clock
    requires l.managedOCS.uid != 0 && Held(s, l.managedOCS.uid)
    ensures ControlInv(c, s, EnterPhase(c, l, index))
  {
  }

  lemma StorageClusterReadKeepsInv(c: Config, s: Server, l: Locals, found: bool)
    requires Snapshot(s, l.managedOCS) && l.storageCluster.version < s.clock
    requires l.managedOCS.uid != 0 && Held(s, l.managedOCS.uid)
    requires found ==> s.storageCluster == Some(l.storageCluster)
    requires !found ==> s.storageCluster.None?
    ensures ControlInv(c, s, StorageClusterRead(c, l, found))
  {
    EnterPhaseKeepsInv(c, s, l, STORAGE_CLUSTER_PHASE + 1);
    var r := Mutated(c.deployment, l.strategy, l.params, l.storageCluster.spec);
    if r.Ok? && Sized(c.deployment) {
      MutatedNeverShrinks(c.deployment, l.strategy, l.params, l.storageCluster.spec);
    }
  }

  /** The calls of the status update only read. */
  lemma StatusCallReads(c: Config, s: Server, point: Point, l: Locals)
    requires BeforeBranch(point) || point.LoadManagedOCS?
    ensures Serve(s, RequestAt(c, point, l)).0 == s
  {
  }

  lemma LoadKeepsInv(c: Config, s: Server, l: Locals, r: Response)
    requires ServerInv(s) && ControlInv(c, s, At(LoadManagedOCS, l))
    requires r.Failed? || r == Serve(s, GetManagedOCS).1
    ensures ControlInv(c, s, Resume(c, LoadManagedOCS, l, r))
  {
  }

  lemma StatusOfStorageClusterKeepsInv(c: Config, s: Server, l: Locals, r: Response)
    requires ServerInv(s) && ControlInv(c, s, At(StatusOfStorageCluster, l))
    requires r.Failed? || r == Serve(s, GetStorageCluster).1
    ensures ControlInv(c, s, Resume(c, StatusOfStorageCluster, l, r))
  {
  }

  lemma StatusOfTheRestKeepsInv(c: Config, s: Server, point: Point, l: Locals, r: Response)
    requires ServerInv(s) && ControlInv(c, s, At(point, l))
    requires point.CheckDeleteLabel? || StatusRead(point)
    ensures ControlInv(c, s, Resume(c, point, l, r))
  {
    if point.StatusOfAlertmanager? && !r.FoundReplicas? {
      BranchKeepsInv(c, s, StatusAfter(l, point, r));
    } else if point.StatusOfAlertmanagerSet? {
      BranchKeepsInv(c, s, StatusAfter(l, point, r));
    }
  }

  lemma PhaseCallKeepsInv(c: Config, s: Server, point: Point, l: Locals, delivery: Delivery)
    requires ServerInv(s) && ControlInv(c, s, At(point, l))
    requires point.LoadParams? || point.Resources?
    ensures CallIsSafe(c, s, point, l, delivery)
  {
    var q := RequestAt(c, point, l);
    assert Serve(s, q).0 == s;
    var r := Heard(s, q, delivery);
    if point.Resources? {
      EnterPhaseKeepsInv(c, s, l, point.index + 1);
    } else if r.FoundParams? {
      EnterPhaseKeepsInv(c, s, l.(strategy := EffectiveStrategy(l.managedOCS),
                                  params := EffectiveParams(c, r.params)), 0);
    }
  }

  lemma LoadStorageClusterKeepsInv(c: Config, s: Server, l: Locals, r: Response)
    requires ServerInv(s) && ControlInv(c, s, At(LoadStorageCluster, l))
    requires r.Failed? || r == Serve(s, GetStorageCluster).1
    ensures ControlInv(c, s, Resume(c, LoadStorageCluster, l, r))
  {
    if r.FoundStorageCluster? {
      StorageClusterReadKeepsInv(c, s, l.(storageCluster := r.storageCluster), true);
    } else if r.Missing? {
      StorageClusterReadKeepsInv(c, s, l, false);
    }
  }

  lemma WriteStorageClusterKeepsInv(c: Config, s: Server, point: Point, l: Locals, delivery: Delivery)
    requires ServerInv(s) && ControlInv(c, s, At(point, l)) && point.WriteStorageCluster?
    ensures CallIsSafe(c, s, point, l, delivery)
  {
    ServeKeepsSnapshot(c, s, point, l, l.managedOCS);
    var q := RequestAt(c, point, l);
    var t, r := After(s, q, delivery), Heard(s, q, delivery);
    assert Snapshot(t, l.managedOCS) && Held(t, l.managedOCS.uid) && s.clock <= t.clock;
    if r.FoundStorageCluster? {
      EnterPhaseKeepsInv(c, t, l.(storageCluster := r.storageCluster), STORAGE_CLUSTER_PHASE + 1);
    }
  }

  lemma AddFinalizerServes(c: Config, s: Server, l: Locals)
    requires ServerInv(s) && ControlInv(c, s, At(AddFinalizer, l))
    ensures var (t, r) := Serve(s, RequestAt(c, AddFinalizer, l));
            && s.clock <= t.clock && Snapshot(t, l.managedOCS) && t.storageCluster == s.storageCluster
            && (r.FoundManagedOCS? ==>
                  Snapshot(t, r.managedOCS) && r.managedOCS.uid != 0 && Held(t, r.managedOCS.uid))
  {
    assert FINALIZER in l.managedOCS.finalizers;
  }

  lemma AddFinalizerKeepsInv(c: Config, s: Server, l: Locals, delivery: Delivery)
    requires ServerInv(s) && ControlInv(c, s, At(AddFinalizer, l))
    ensures CallIsSafe(c, s, AddFinalizer, l, delivery)
  {
    AddFinalizerServes(c, s, l);
    var q := RequestAt(c, AddFinalizer, l);
    var t, r := After(s, q, delivery), Heard(s, q, delivery);
    if !r.FoundManagedOCS? {
      FinishKeepsInv(c, t, l, Error);
    }
  }

  lemma RemoveManagedOCSKeepsInv(c: Config, s: Server, l: Locals, delivery: Delivery)
    requires ServerInv(s) && ControlInv(c, s, At(RemoveManagedOCS, l))
    ensures CallIsSafe(c, s, RemoveManagedOCS, l, delivery)
  {
    ServeKeepsSnapshot(c, s, RemoveManagedOCS, l, l.managedOCS);
    var q := RequestAt(c, RemoveManagedOCS, l);
    var t := After(s, q, delivery);
    assert Snapshot(t, l.managedOCS) && Held(t, l.managedOCS.uid) && s.clock <= t.clock;
  }

  lemma ReloadManagedOCSKeepsInv(c: Config, s: Server, l: Locals, r: Response)
    requires ServerInv(s) && ControlInv(c, s, At(ReloadManagedOCS, l))
    requires r.Failed? || r == Serve(s, GetManagedOCS).1
    ensures ControlInv(c, s, Resume(c, ReloadManagedOCS, l, r))
  {
  }

  lemma RemoveFinalizerServes(c: Config, s: Server, l: Locals)
    requires ServerInv(s) && ControlInv(c, s, At(RemoveFinalizer, l))
    ensures var (t, r) := Serve(s, RequestAt(c, RemoveFinalizer, l));
            && s.clock <= t.clock && Snapshot(t, l.managedOCS)
            && (r.FoundManagedOCS? ==> Snapshot(t, r.managedOCS) && r.managedOCS.deleting)
  {
  }

  lemma RemoveFinalizerKeepsInv(c: Config, s: Server, l: Locals, delivery: Delivery)
    requires ServerInv(s) && ControlInv(c, s, At(RemoveFinalizer, l))
    ensures CallIsSafe(c, s, RemoveFinalizer, l, delivery)
  {
    RemoveFinalizerServes(c, s, l);
    var q := RequestAt(c, RemoveFinalizer, l);
    var t, r := After(s, q, delivery), Heard(s, q, delivery);
    if r.FoundManagedOCS? {
      FinishKeepsInv(c, t, SavedManagedOCS(l, r.managedOCS), Completed);
    } else {
      FinishKeepsInv(c, t, l, Error);
    }
  }

  /** Points whose call cannot upset what is known there, whatever it answers. */
  predicate QuietPoint(point: Point) {
    || point.ListClasses? || point.ListPVs? || point.ListStorageConsumers?
    || point.ListOperators? || point.RemoveOperator?
    || TeardownPoint(point) || DeployerPoint(point) || point.SaveStatus?
  }

  lemma QuietServe(c: Config, s: Server, point: Point, l: Locals, delivery: Delivery)
    requires ServerInv(s) && ControlInv(c, s, At(point, l)) && QuietPoint(point)
    ensures ControlInv(c, After(s, RequestAt(c, point, l), delivery), At(point, l))
  {
    ServeKeepsSnapshot(c, s, point, l, l.managedOCS);
  }

  lemma ResumeListing(c: Config, s: Server, point: Point, l: Locals, r: Response)
    requires ControlInv(c, s, At(point, l))
    requires point.ListClasses? || point.ListPVs? || point.ListStorageConsumers?
    ensures ControlInv(c, s, Resume(c, point, l, r))
  {
  }

  lemma ResumeFinalizer(c: Config, s: Server, point: Point, l: Locals, r: Response)
    requires ControlInv(c, s, At(point, l))
    requires point.ListOperators? || point.RemoveOperator?
    ensures ControlInv(c, s, Resume(c, point, l, r))
  {
  }

  lemma ResumeTeardown(c: Config, s: Server, point: Point, l: Locals, r: Response)
    requires ControlInv(c, s, At(point, l))
    requires TeardownPoint(point)
    ensures ControlInv(c, s, Resume(c, point, l, r))
  {
  }

  lemma ResumeDeployer(c: Config, s: Server, point: Point, l: Locals, r: Response)
    requires ControlInv(c, s, At(point, l))
    requires DeployerPoint(point)
    ensures ControlInv(c, s, Resume(c, point, l, r))
  {
  }

  lemma QuietResume(c: Config, s: Server, point: Point, l: Locals, r: Response)
    requires ControlInv(c, s, At(point, l)) && QuietPoint(point)
    ensures ControlInv(c, s, Resume(c, point, l, r))
  {
    if TeardownPoint(point) {
      ResumeTeardown(c, s, point, l, r);
    } else if point.ListOperators? || point.RemoveOperator? {
      ResumeFinalizer(c, s, point, l, r);
    } else if DeployerPoint(point) {
      ResumeDeployer(c, s, point, l, r);
    } else if point.SaveStatus? {
      assert Resume(c, point, l, r).Idle?;
    } else {
      ResumeListing(c, s, point, l, r);
    }
  }

  lemma QuietCallKeepsInv(c: Config, s: Server, point: Point, l: Locals, delivery: Delivery)
    requires ServerInv(s) && ControlInv(c, s, At(point, l)) && QuietPoint(point)
    ensures CallIsSafe(c, s, point, l, delivery)
  {
    var q := RequestAt(c, point, l);
    QuietServe(c, s, point, l, delivery);
    QuietResume(c, After(s, q, delivery), point, l, Heard(s, q, delivery));
  }

  lemma StatusCallKeepsInv(c: Config, s: Server, point: Point, l: Locals, delivery: Delivery)
    requires ServerInv(s) && ControlInv(c, s, At(point, l))
    requires BeforeBranch(point) || point.LoadManagedOCS?
    ensures CallIsSafe(c, s, point, l, delivery)
  {
    var r := Heard(s, RequestAt(c, point, l), delivery);
    StatusCallReads(c, s, point, l);
    if point.LoadManagedOCS? {
      LoadKeepsInv(c, s, l, r);
    } else if point.StatusOfStorageCluster? {
      StatusOfStorageClusterKeepsInv(c, s, l, r);
    } else {
      StatusOfTheRestKeepsInv(c, s, point, l, r);
    }
  }

  lemma CallKeepsControlInv(c: Config, s: Server, point: Point, l: Locals, delivery: Delivery)
    requires ServerInv(s) && ControlInv(c, s, At(point, l))
    ensures CallIsSafe(c, s, point, l, delivery)
  {
    if BeforeBranch(point) || point.LoadManagedOCS? {
      StatusCallKeepsInv(c, s, point, l, delivery);
    } else if point.AddFinalizer? {
      AddFinalizerKeepsInv(c, s, l, delivery);
    } else if point.RemoveFinalizer? {
      RemoveFinalizerKeepsInv(c, s, l, delivery);
    } else if QuietPoint(point) {
      QuietCallKeepsInv(c, s, point, l, delivery);
    } else if point.RemoveManagedOCS? {
      RemoveManagedOCSKeepsInv(c, s, l, delivery);
    } else if point.ReloadManagedOCS? {
      ReloadManagedOCSKeepsInv(c, s, l, Heard(s, GetManagedOCS, delivery));
    } else if point.WriteStorageCluster? {
      WriteStorageClusterKeepsInv(c, s, point, l, delivery);
    } else if point.LoadStorageCluster? {
      LoadStorageClusterKeepsInv(c, s, l, Heard(s, GetStorageCluster, delivery));
    } else {
      PhaseCallKeepsInv(c, s, point, l, delivery);
    }
  }

  lemma StepKeepsInv(c: Config, w: World, a: Action)
    requires Inv(c, w)
    ensures Inv(c, Step(c, w, a))
  {
    match a
    case Interfere(server) =>
      if Interference(w.server, server) {
        InterferenceKeepsServerInv(w.server, server);
        InterferenceKeepsControlInv(c, w.server, server, w.control);
      }
    case Call(delivery) =>
      if w.control.At? {
        var point, l := w.control.point, w.control.locals;
        ServeKeepsServerInv(c, w.server, point, l);
        CallKeepsControlInv(c, w.server, point, l, delivery);
      }
    case _ =>
  }

  lemma {:induction false} RunKeepsInv(c: Config, w: World, actions: seq<Action>)
    requires Initial(w)
    ensures Inv(c, Run(c, w, actions))
    decreases |actions|
  {
    if actions != [] {
      RunKeepsInv(c, w, actions[..|actions| - 1]);
      StepKeepsInv(c, Run(c, w, actions[..|actions| - 1]), actions[|actions| - 1]);
    }
  }

  lemma FoundManagedOCSHasUid(s: Server, q: Request)
    requires ServerInv(s)
    ensures var r := Serve(s, q).1; r.FoundManagedOCS? ==> r.managedOCS.uid != 0
  {
  }

  // ---- the results ----

  /** In every state of every run, also in the middle of a reconcile, with calls failing, answers
      getting lost, users deleting the ManagedOCS and the pod restarting: whenever there is a
      StorageCluster, the ManagedOCS that owns it exists and carries the finalizer. */
  lemma StorageClusterIsAlwaysGuarded(c: Config, w: World, actions: seq<Action>)
    requires Initial(w)
    ensures var s := Run(c, w, actions).server;
            s.storageCluster.Some? ==>
              && s.managedOCS.Some?
              && s.managedOCS.value.uid == s.storageCluster.value.owner
              && FINALIZER in s.managedOCS.value.finalizers
  {
    RunKeepsInv(c, w, actions);
  }

  /** Whenever the controller is about to remove its finalizer, or to delete an operator of either
      kind, there is no StorageCluster, and none appears until that call is answered. */
  lemma NothingIsRemovedUnderAStorageCluster(c: Config, w: World, actions: seq<Action>)
    requires Initial(w)
    ensures var now := Run(c, w, actions);
            now.control.At? && (FinalizerPoint(now.control.point) || DeployerPoint(now.control.point))
            ==> now.server.storageCluster.None?
  {
    RunKeepsInv(c, w, actions);
  }

  lemma WriteNeverDownscales(c: Config, s: Server, point: Point, l: Locals)
    requires ServerInv(s) && ControlInv(c, s, At(point, l)) && Sized(c.deployment) && point.WriteStorageCluster?
    ensures var t := Serve(s, RequestAt(c, point, l)).0;
            s.storageCluster.Some? && t.storageCluster.Some? ==>
              && t.storageCluster.value.uid == s.storageCluster.value.uid
              && DeviceCount(s.storageCluster.value.spec) <= DeviceCount(t.storageCluster.value.spec)
  {
  }

  lemma OtherCallsLeaveTheSpec(c: Config, s: Server, point: Point, l: Locals)
    requires !point.WriteStorageCluster?
    ensures var t := Serve(s, RequestAt(c, point, l)).0;
            t.storageCluster.Some? ==>
              && s.storageCluster.Some?
              && t.storageCluster.value.uid == s.storageCluster.value.uid
              && t.storageCluster.value.spec == s.storageCluster.value.spec
  {
  }

  lemma CallNeverDownscales(c: Config, s: Server, point: Point, l: Locals)
    requires ServerInv(s) && ControlInv(c, s, At(point, l)) && Sized(c.deployment)
    ensures var t := Serve(s, RequestAt(c, point, l)).0;
            s.storageCluster.Some? && t.storageCluster.Some? ==>
              && t.storageCluster.value.uid == s.storageCluster.value.uid
              && DeviceCount(s.storageCluster.value.spec) <= DeviceCount(t.storageCluster.value.spec)
  {
    if point.WriteStorageCluster? {
      WriteNeverDownscales(c, s, point, l);
    } else {
      OtherCallsLeaveTheSpec(c, s, point, l);
    }
  }

  /** No step of the controller, at any moment of any run, makes the default device set of an existing
      StorageCluster smaller. Only edits by others can. */
  lemma NoDownscaleInAnyRun(c: Config, w: World, actions: seq<Action>, a: Action)
    requires Initial(w) && Sized(c.deployment) && !a.Interfere?
    ensures var before, after := Run(c, w, actions).server, Run(c, w, actions + [a]).server;
            before.storageCluster.Some? && after.storageCluster.Some? ==>
              && after.storageCluster.value.uid == before.storageCluster.value.uid
              && DeviceCount(before.storageCluster.value.spec) <= DeviceCount(after.storageCluster.value.spec)
  {
    var now := Run(c, w, actions);
    RunKeepsInv(c, w, actions);
    RunExtends(c, w, actions, a);
    if now.control.At? {
      CallNeverDownscales(c, now.server, now.control.point, now.control.locals);
    }
  }
}
