/** From the delete label on the add-on's config map to the marked ManagedOCS, with others at work between the calls,
    and from there to the end. */
module Removal {
  import opened Prelude
  import opened StorageClusters
  import opened Phases
  import opened Server
  import opened Controller
  import opened Safety
  import opened Progress
  import Guard
  import Installation
  import Uninstallation
  import Witnesses

  // ---- when the add-on can be removed ----

  predicate MonitoringReady(s: Server) {
    && s.prometheus.Some? && s.prometheusSet == Some(Desired(s.prometheus.value))
    && s.alertmanager.Some? && s.alertmanagerSet == Some(Desired(s.alertmanager.value))
  }

  /** Nothing uses the storage, as far as the deployment type asks. */
  predicate Unused(c: Config, s: Server) {
    match c.deployment
    case Provider => s.consumers == []
    case Other(_) => true
    case _ => forall v :: v in s.volumes ==> v !in OCSClasses(c.namespace, s.storageClasses)
  }

  /** The ManagedOCS is alive, the delete label is on, the components are ready, nothing is in use, and the parameters
      make sense. */
  predicate Removable(c: Config, s: Server) {
    && s.managedOCS.Some? && !s.managedOCS.value.deleting
    && s.addonLabels.Some? && c.deleteLabelKey in s.addonLabels.value
    && s.storageCluster.Some? && s.storageCluster.value.phase == "Ready"
    && MonitoringReady(s) && Unused(c, s)
    && s.addonParams.Some?
    && Mutated(c.deployment, EffectiveStrategy(s.managedOCS.value), EffectiveParams(c, s.addonParams.value), BLANK).Ok?
  }

  /** Others leave that so. They may edit the StorageCluster otherwise, its spec for instance. */
  predicate LeavesRemovable(c: Config, s: Server, t: Server)
    requires Removable(c, s)
  {
    && Removable(c, t) && Installation.StillAsked(s, t)
    && t.prometheus == s.prometheus && t.alertmanager == s.alertmanager && t.storageClasses == s.storageClasses
  }

  /** Or the user deletes the ManagedOCS himself. */
  predicate Acts(c: Config, s: Server, t: Server) {
    Interference(s, t) && (Uninstalling(c, t) || (Removable(c, s) && LeavesRemovable(c, s, t)))
  }

  /** The pending call is answered, or others act. */
  predicate Steady(c: Config, w: World, a: Action) {
    match a
    case Call(delivery) => Answered(c, w, delivery)
    case Interfere(server) => Acts(c, w.server, server)
    case _ => false
  }

  predicate SteadyRun(c: Config, w: World, actions: seq<Action>)
    decreases |actions|
  {
    actions == [] ||
    ( && SteadyRun(c, w, actions[..|actions| - 1])
      && Steady(c, Run(c, w, actions[..|actions| - 1]), actions[|actions| - 1]))
  }

  // ---- the course of the reconcile ----

  predicate Holds(s: Server, l: Locals)
    requires s.managedOCS.Some?
  {
    && l.managedOCS.uid == s.managedOCS.value.uid && l.managedOCS.strategy == s.managedOCS.value.strategy
    && !l.managedOCS.deleting
  }

  predicate Decided(c: Config, s: Server, l: Locals)
    requires s.managedOCS.Some?
  {
    Holds(s, l) && l.uninstall && ReadyForUninstall(l.managedOCS)
  }

  predicate DecidedWith(c: Config, s: Server, l: Locals)
    requires s.managedOCS.Some? && s.addonParams.Some?
  {
    && Decided(c, s, l)
    && l.strategy == EffectiveStrategy(s.managedOCS.value) && l.params == EffectiveParams(c, s.addonParams.value)
  }

  predicate OnCourseBefore(s: Server, point: Point, l: Locals)
    requires s.managedOCS.Some? && MonitoringReady(s)
  {
    var status := l.managedOCS.status;
    && Holds(s, l)
    && (!point.CheckDeleteLabel? ==> l.uninstall)
    && (StatusRead(point) ==> status.storageCluster.Ready?)
    && (point.StatusOfPrometheusSet? ==> point.desired == Desired(s.prometheus.value))
    && (point.StatusOfAlertmanager? || point.StatusOfAlertmanagerSet? ==> status.prometheus.Ready?)
    && (point.StatusOfAlertmanagerSet? ==> point.desired == Desired(s.alertmanager.value))
  }

  predicate OnCourse(c: Config, s: Server, point: Point, l: Locals)
    requires Removable(c, s)
  {
    if point.LoadManagedOCS? then l == NO_LOCALS
    else if BeforeBranch(point) then OnCourseBefore(s, point, l)
    else if point.LoadParams? then Decided(c, s, l)
    else if point.Resources? || point.LoadStorageCluster? then DecidedWith(c, s, l)
    else if point.WriteStorageCluster? then DecidedWith(c, s, l) && !point.create
    else if point.ListClasses? then c.deployment.Converged? || c.deployment.Consumer?
    else if point.ListPVs? then
      && (c.deployment.Converged? || c.deployment.Consumer?)
      && l.ocsClasses == OCSClasses(c.namespace, s.storageClasses)
    else if point.ListStorageConsumers? then c.deployment.Provider?
    else point.RemoveManagedOCS?
  }

  /** The ManagedOCS is marked, or gone, or the reconcile is on its way to mark it. */
  predicate Course(c: Config, s: Server, control: Control) {
    && !control.Starting?
    && (Uninstalling(c, s) || (Removable(c, s) && control.At? && OnCourse(c, s, control.point, control.locals)))
  }

  lemma OthersKeepCourse(c: Config, s: Server, t: Server, control: Control)
    requires Course(c, s, control) && Acts(c, s, t)
    ensures Course(c, t, control)
  {
  }

  predicate CallOnCourse(c: Config, s: Server, point: Point, l: Locals) {
    var (t, r) := Serve(s, RequestAt(c, point, l));
    Course(c, t, Resume(c, point, l, r))
  }

  lemma LoadOnCourse(c: Config, s: Server, point: Point, l: Locals)
    requires ServerInv(s) && Removable(c, s) && OnCourse(c, s, point, l)
    requires point.LoadManagedOCS? || point.CheckDeleteLabel? || point.StatusOfStorageCluster?
    ensures CallOnCourse(c, s, point, l)
  {
  }

  lemma PrometheusOnCourse(c: Config, s: Server, point: Point, l: Locals)
    requires Removable(c, s) && OnCourse(c, s, point, l)
    requires point.StatusOfPrometheus? || point.StatusOfPrometheusSet?
    ensures CallOnCourse(c, s, point, l)
  {
  }

  lemma BranchOnCourse(c: Config, s: Server, l: Locals)
    requires Removable(c, s) && Decided(c, s, l) && l.managedOCS.uid != 0 && FINALIZER in l.managedOCS.finalizers
    ensures Course(c, s, Branch(l))
  {
  }

  lemma AlertmanagerOnCourse(c: Config, s: Server, point: Point, l: Locals)
    requires ServerInv(s) && ControlInv(c, s, At(point, l)) && Removable(c, s) && OnCourse(c, s, point, l)
    requires point.StatusOfAlertmanager? || point.StatusOfAlertmanagerSet?
    ensures CallOnCourse(c, s, point, l)
  {
    assert FINALIZER in l.managedOCS.finalizers;
    if point.StatusOfAlertmanagerSet? {
      var r := FoundReady(point.desired);
      assert Serve(s, GetAlertmanagerSet) == (s, r);
      BranchOnCourse(c, s, StatusAfter(l, point, r));
    }
  }

  lemma EnterPhaseOnCourse(c: Config, s: Server, l: Locals, index: nat)
    requires Removable(c, s) && DecidedWith(c, s, l)
    ensures Course(c, s, EnterPhase(c, l, index))
  {
  }

  /** Whether the parameters make sense does not depend on the spec they are applied to. */
  lemma MutatedOkAnywhere(deployment: DeploymentType, strategy: Strategy, params: Params, a: StorageClusterSpec,
                          b: StorageClusterSpec)
    requires Mutated(deployment, strategy, params, a).Ok?
    ensures Mutated(deployment, strategy, params, b).Ok?
  {
  }

  lemma ParamsOnCourse(c: Config, s: Server, l: Locals)
    requires Removable(c, s) && OnCourse(c, s, LoadParams, l)
    ensures CallOnCourse(c, s, LoadParams, l)
  {
    var params := s.addonParams.value;
    var l' := l.(strategy := EffectiveStrategy(l.managedOCS), params := EffectiveParams(c, params));
    EnterPhaseOnCourse(c, s, l', 0);
    ParamsAnswer(c, s, l);
  }

  lemma PhaseOnCourse(c: Config, s: Server, index: nat, l: Locals)
    requires Removable(c, s) && OnCourse(c, s, Resources(index), l)
    ensures CallOnCourse(c, s, Resources(index), l)
  {
    EnterPhaseOnCourse(c, s, l, index + 1);
    PhaseAnswer(c, s, index, l);
  }

  lemma LoadStorageClusterOnCourse(c: Config, s: Server, l: Locals)
    requires Removable(c, s) && OnCourse(c, s, LoadStorageCluster, l)
    ensures CallOnCourse(c, s, LoadStorageCluster, l)
  {
    var l' := l.(storageCluster := s.storageCluster.value);
    MutatedOkAnywhere(c.deployment, l.strategy, l.params, BLANK, l'.storageCluster.spec);
    EnterPhaseOnCourse(c, s, l', STORAGE_CLUSTER_PHASE + 1);
  }

  lemma WriteOnCourse(c: Config, s: Server, point: Point, l: Locals)
    requires Removable(c, s) && OnCourse(c, s, point, l)
    requires point.WriteStorageCluster? && !Serve(s, RequestAt(c, point, l)).1.Failed?
    ensures CallOnCourse(c, s, point, l)
  {
    var (t, r) := Serve(s, RequestAt(c, point, l));
    EnterPhaseOnCourse(c, t, l.(storageCluster := r.storageCluster), STORAGE_CLUSTER_PHASE + 1);
  }

  /** Nothing is in use, and so the guard lets the deletion through. */
  lemma GuardOnCourse(c: Config, s: Server, point: Point, l: Locals)
    requires Removable(c, s) && OnCourse(c, s, point, l)
    requires point.ListClasses? || point.ListPVs? || point.ListStorageConsumers?
    ensures CallOnCourse(c, s, point, l)
  {
  }

  /** The finalizer is on, and so the deletion marks the ManagedOCS. */
  lemma RemovalOnCourse(c: Config, s: Server, l: Locals)
    requires Removable(c, s)
    ensures CallOnCourse(c, s, RemoveManagedOCS, l)
  {
  }

  lemma CallKeepsCourse(c: Config, s: Server, point: Point, l: Locals)
    requires ServerInv(s) && ControlInv(c, s, At(point, l)) && Removable(c, s) && OnCourse(c, s, point, l)
    requires !Serve(s, RequestAt(c, point, l)).1.Failed?
    ensures CallOnCourse(c, s, point, l)
  {
    if point.StatusOfPrometheus? || point.StatusOfPrometheusSet? {
      PrometheusOnCourse(c, s, point, l);
    } else if StatusRead(point) {
      AlertmanagerOnCourse(c, s, point, l);
    } else if point.LoadParams? {
      ParamsOnCourse(c, s, l);
    } else if point.Resources? {
      PhaseOnCourse(c, s, point.index, l);
    } else if point.LoadStorageCluster? {
      LoadStorageClusterOnCourse(c, s, l);
    } else if point.WriteStorageCluster? {
      WriteOnCourse(c, s, point, l);
    } else if point.RemoveManagedOCS? {
      RemovalOnCourse(c, s, l);
    } else if point.ListClasses? || point.ListPVs? || point.ListStorageConsumers? {
      GuardOnCourse(c, s, point, l);
    } else {
      LoadOnCourse(c, s, point, l);
    }
  }

  /** The controller never revives what is marked. */
  lemma LabelsStay(c: Config, s: Server, point: Point, l: Locals)
    ensures Serve(s, RequestAt(c, point, l)).0.addonLabels == s.addonLabels
  {
  }

  lemma DeletingStays(c: Config, s: Server, point: Point, l: Locals)
    requires WritesManagedOCS(point) && (s.managedOCS.Some? ==> s.managedOCS.value.deleting)
    ensures var t := Serve(s, RequestAt(c, point, l)).0; t.managedOCS.Some? ==> t.managedOCS.value.deleting
  {
  }

  lemma MarkedStaysMarked(c: Config, s: Server, point: Point, l: Locals)
    requires Uninstalling(c, s)
    ensures Uninstalling(c, Serve(s, RequestAt(c, point, l)).0)
  {
    LabelsStay(c, s, point, l);
    if WritesManagedOCS(point) {
      DeletingStays(c, s, point, l);
    } else {
      OtherCallsLeaveManagedOCS(c, s, point, l);
    }
  }

  lemma NeverStartsAgain(c: Config, point: Point, l: Locals, r: Response)
    ensures !Resume(c, point, l, r).Starting?
  {
    EveryReconcileEnds(c, point, l, r);
  }

  // ---- the results ----

  lemma {:induction false} SteadyRunIsOnCourse(c: Config, w: World, actions: seq<Action>)
    requires Inv(c, w) && Course(c, w.server, w.control) && SteadyRun(c, w, actions)
    ensures var now := Run(c, w, actions); Inv(c, now) && Course(c, now.server, now.control)
    decreases |actions|
  {
    if actions != [] {
      var before, a := actions[..|actions| - 1], actions[|actions| - 1];
      SteadyRunIsOnCourse(c, w, before);
      var now := Run(c, w, before);
      StepKeepsInv(c, now, a);
      match a
      case Interfere(server) => OthersKeepCourse(c, now.server, server, now.control);
      case Call(_) =>
        var point, l := now.control.point, now.control.locals;
        if Uninstalling(c, now.server) {
          MarkedStaysMarked(c, now.server, point, l);
          NeverStartsAgain(c, point, l, Serve(now.server, RequestAt(c, point, l)).1);
        } else {
          CallKeepsCourse(c, now.server, point, l);
        }
    }
  }

  /** The add-on can be removed, and nothing is running. */
  predicate Ready(c: Config, w: World) {
    Inv(c, w) && Removable(c, w.server) && w.control.Idle?
  }

  /** For every configuration there is a run to such a state. */
  lemma ReadyIsReached(c: Config) returns (actions: seq<Action>)
    ensures Initial(Witnesses.BEGINNING) && Ready(c, Run(c, Witnesses.BEGINNING, actions))
  {
    actions := Guard.ReadyServerIsReached(c);
    RunKeepsInv(c, Witnesses.BEGINNING, actions);
  }

  /** A reconcile in which no call fails begins the removal: at its end the ManagedOCS is marked, or gone. */
  lemma RemovalBegins(c: Config, w: World, actions: seq<Action>)
    requires Ready(c, w) && SteadyRun(c, Step(c, w, Trigger), actions)
    requires Uninstallation.AfterRound(c, w, actions).control.Idle?
    ensures Uninstallation.Resting(c, Uninstallation.AfterRound(c, w, actions))
  {
    StepKeepsInv(c, w, Trigger);
    SteadyRunIsOnCourse(c, Step(c, w, Trigger), actions);
  }

  /** From the label to the end: after one such reconcile, and among any others as many served ones as there are
      things left, everything is gone. */
  lemma RemovalEnds(c: Config, w: World, first: seq<Action>, rounds: seq<seq<Action>>)
    requires Ready(c, w) && SteadyRun(c, Step(c, w, Trigger), first)
    requires Uninstallation.AfterRound(c, w, first).control.Idle?
    requires var w' := Uninstallation.AfterRound(c, w, first);
             && Uninstallation.AllRounds(c, w', rounds)
             && Rank(w'.server) <= Uninstallation.ServedRounds(c, w', rounds)
    ensures Gone(Uninstallation.AfterRounds(c, Uninstallation.AfterRound(c, w, first), rounds).server)
  {
    RemovalBegins(c, w, first);
    Uninstallation.UninstallEnds(c, Uninstallation.AfterRound(c, w, first), rounds);
  }
}
