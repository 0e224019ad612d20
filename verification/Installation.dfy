/** What a reconcile in which no call fails makes of a ManagedOCS that is alive, with everybody else at work between
    its calls. */
module Installation {
  import opened Prelude
  import opened StorageClusters
  import opened Phases
  import opened Server
  import opened Controller
  import opened Safety
  import opened Progress
  import Float64

  /** What the controller makes of the spec the StorageCluster has now, if there is one. */
  function WantedSpec(c: Config, s: Server): Result<StorageClusterSpec, SpecError>
    requires s.managedOCS.Some? && s.addonParams.Some?
  {
    Mutated(c.deployment, EffectiveStrategy(s.managedOCS.value), EffectiveParams(c, s.addonParams.value),
            LoadedStorageCluster(s).spec)
  }

  /** The ManagedOCS is alive, nobody asked to remove the add-on, and its parameters make sense. */
  predicate Installable(c: Config, s: Server) {
    && s.managedOCS.Some? && !s.managedOCS.value.deleting
    && !(s.addonLabels.Some? && c.deleteLabelKey in s.addonLabels.value)
    && s.addonParams.Some? && WantedSpec(c, s).Ok?
  }

  /** What the user and the add-on ask for is the same. */
  predicate SameRequest(s: Server, t: Server)
    requires s.managedOCS.Some? && t.managedOCS.Some?
  {
    && t.managedOCS.value.deleting == s.managedOCS.value.deleting
    && t.managedOCS.value.strategy == s.managedOCS.value.strategy
    && t.addonParams == s.addonParams && t.addonLabels == s.addonLabels
  }

  // ---- what is wanted, in terms of what was asked for ----

  /** "none" in any mix of cases; everything else, nothing included, is the strict strategy. */
  predicate AsksForNone(strategy: string) {
    && |strategy| == 4 && strategy[0] in "nN" && strategy[1] in "oO" && strategy[2] in "nN" && strategy[3] in "eE"
  }

  lemma StrategyMeaning(m: ManagedOCS)
    ensures EffectiveStrategy(m) == if AsksForNone(m.strategy) then Untouched else Strict
  {
    LowerIs('n', 'N');
    LowerIs('o', 'O');
    LowerIs('e', 'E');
  }

  lemma LowerIs(small: char, large: char)
    requires 'a' <= small <= 'z' && (large as int) + ('a' as int) == (small as int) + ('A' as int)
    ensures forall c :: Lower(c) == small <==> c == small || c == large
  {
  }

  /** A consumer's capacity is overridden; all other parameters, and those of other types, are as they are given. */
  lemma EffectiveParamsMeaning(c: Config, params: Params)
    ensures var r := EffectiveParams(c, params);
            && (!c.deployment.Consumer? ==> r == params)
            && (c.deployment.Consumer? ==>
                  && "size" in r && "unit" in r && r["size"] + r["unit"] == "1024Ti"
                  && forall key :: key != "size" && key != "unit" ==>
                       (key in r <==> key in params) && (key in params ==> r[key] == params[key]))
  {
  }

  /** The strict spec, in terms of the parameters the add-on was given. */
  predicate AsGiven(deployment: DeploymentType, params: Params, current: StorageClusterSpec, spec: StorageClusterSpec)
    requires Readable(deployment, params)
  {
    && spec.multiCloudGateway == (if GatewayAsked(params) then "manage" else "ignore")
    && match deployment
       case Consumer =>
         && spec.layout == "consumer" && spec.deviceSets == []
         && Gives(params, "onboarding-ticket", spec.external.onboardingTicket)
         && Gives(params, "storage-provider-endpoint", spec.external.providerEndpoint)
         && spec.external.capacity == "1024Ti"
       case Converged =>
         && spec.layout == "converged" && spec.external == External("", "", "")
         && spec.deviceSets == [DeviceSet("default", AtLeast(Atoi(params["size"]).value, current), "1Ti")]
       case Provider =>
         && spec.layout == "provider" && spec.external == External("", "", "")
         && var sets := Float64.ProviderDeviceSetCount(Atoi(params["size"]).value);
         && spec.deviceSets == [DeviceSet("default", AtLeast(sets, current), "4Ti")]
       case Other(_) => false
  }

  /** No fewer than there are. */
  function AtLeast(count: int, current: StorageClusterSpec): int {
    if count < DeviceCount(current) then DeviceCount(current) else count
  }

  lemma StrictSpecMeaning(c: Config, params: Params, current: StorageClusterSpec)
    ensures var r := DesiredSpec(c.deployment, EffectiveParams(c, params), current);
            && (r.Ok? <==> Readable(c.deployment, params))
            && (r.Ok? ==> AsGiven(c.deployment, params, current, r.value))
  {
    EffectiveParamsMeaning(c, params);
    if Sized(c.deployment) {
      SizedSpecMeaning(c.deployment, params, current);
    } else if c.deployment.Consumer? {
      ConsumerSpecMeaning(EffectiveParams(c, params), current, current);
    }
  }

  /** What the controller wants, in terms of the strategy and the parameters that were given. */
  lemma WantedSpecMeaning(c: Config, s: Server)
    requires s.managedOCS.Some? && s.addonParams.Some?
    ensures var current, r, params := LoadedStorageCluster(s).spec, WantedSpec(c, s), s.addonParams.value;
            if AsksForNone(s.managedOCS.value.strategy) then r == Ok(current)
            else
              && (r.Ok? <==> Readable(c.deployment, params))
              && (r.Ok? ==> AsGiven(c.deployment, params, current, r.value))
  {
    StrategyMeaning(s.managedOCS.value);
    StrictSpecMeaning(c, s.addonParams.value, LoadedStorageCluster(s).spec);
  }

  /** The StorageCluster is there, and is what the controller wanted of it in `s`. */
  predicate AsWanted(c: Config, s: Server, t: Server)
    requires Installable(c, s)
  {
    && t.storageCluster.Some?
    && t.storageCluster.value.owner == s.managedOCS.value.uid
    && Ok(t.storageCluster.value.spec) == WantedSpec(c, s)
  }

  /** The ManagedOCS is the one of `s`, and what the user and the add-on ask for is the same. */
  predicate StillAsked(s: Server, t: Server)
    requires s.managedOCS.Some?
  {
    t.managedOCS.Some? && t.managedOCS.value.uid == s.managedOCS.value.uid && SameRequest(s, t)
  }

  /** The finalizer is on, the status names the strategy, and the StorageCluster is as wanted. */
  predicate Installed(c: Config, s: Server, t: Server)
    requires Installable(c, s)
  {
    && StillAsked(s, t) && AsWanted(c, s, t)
    && FINALIZER in t.managedOCS.value.finalizers
    && t.managedOCS.value.status.strategy == Some(EffectiveStrategy(s.managedOCS.value))
  }

  /** There is nothing to do about the StorageCluster. */
  predicate SettledFor(c: Config, s: Server)
    requires Installable(c, s)
  {
    AsWanted(c, s, s)
  }

  // ---- reconciles in which no call fails ----

  /** Others may do what they like, the ocs-operator its work on the StorageCluster for instance, but for what was
      asked for, and for the StorageCluster's existence and spec. */
  predicate Leaves(s: Server, t: Server) {
    && Interference(s, t)
    && (s.managedOCS.Some? ==> StillAsked(s, t))
    && (s.storageCluster.Some? ==>
          t.storageCluster.Some? && t.storageCluster.value.spec == s.storageCluster.value.spec)
  }

  /** The pending call is answered, or others act. */
  predicate Steady(c: Config, w: World, a: Action) {
    match a
    case Call(delivery) => Answered(c, w, delivery)
    case Interfere(server) => Leaves(w.server, server)
    case _ => false
  }

  predicate SteadyRun(c: Config, w: World, actions: seq<Action>)
    decreases |actions|
  {
    actions == [] ||
    ( && SteadyRun(c, w, actions[..|actions| - 1])
      && Steady(c, Run(c, w, actions[..|actions| - 1]), actions[|actions| - 1]))
  }

  // ---- what the reconcile holds is still so ----

  /** The StorageCluster has not been written yet. */
  predicate NotWritten(first: Server, s: Server) {
    && (s.storageCluster.Some? <==> first.storageCluster.Some?)
    && LoadedStorageCluster(s).spec == LoadedStorageCluster(first).spec
    && (s.storageCluster.Some? ==> s.storageCluster.value.owner == first.storageCluster.value.owner)
  }

  /** What the controller has in memory is the request. */
  predicate Holds(first: Server, l: Locals)
    requires first.managedOCS.Some?
  {
    var m := first.managedOCS.value;
    && l.managedOCS.uid == m.uid && l.managedOCS.strategy == m.strategy && !l.managedOCS.deleting
    && !l.uninstall
  }

  predicate HoldsParams(c: Config, first: Server, l: Locals)
    requires Installable(c, first)
  {
    && Holds(first, l)
    && l.strategy == EffectiveStrategy(first.managedOCS.value)
    && l.params == EffectiveParams(c, first.addonParams.value)
  }

  predicate BeforeTheWrite(point: Point) {
    point.LoadStorageCluster? || (point.Resources? && point.index < STORAGE_CLUSTER_PHASE)
  }

  /** How far the installation is at each point of the reconcile. */
  predicate Aims(c: Config, first: Server, s: Server, point: Point, l: Locals)
    requires Installable(c, first)
  {
    if point.LoadManagedOCS? then l == NO_LOCALS && NotWritten(first, s)
    else if BeforeBranch(point) || point.AddFinalizer? || point.LoadParams? then
      && Holds(first, l) && NotWritten(first, s)
      && (s.storageCluster.None? ==> l.storageCluster.spec == BLANK)
    else if BeforeTheWrite(point) then
      && HoldsParams(c, first, l) && NotWritten(first, s)
      && (s.storageCluster.None? ==> l.storageCluster.spec == BLANK)
    else if point.WriteStorageCluster? then
      && HoldsParams(c, first, l) && NotWritten(first, s) && !SettledFor(c, first)
      && (point.create <==> s.storageCluster.None?)
      && l.storageCluster.owner == first.managedOCS.value.uid && Ok(l.storageCluster.spec) == WantedSpec(c, first)
    else if point.Resources? then
      HoldsParams(c, first, l) && AsWanted(c, first, s) && STORAGE_CLUSTER_PHASE < point.index
    else
      && point == SaveStatus(Completed) && Holds(first, l) && AsWanted(c, first, s)
      && l.managedOCS.status.strategy == Some(EffectiveStrategy(first.managedOCS.value))
  }

  predicate AimsControl(c: Config, first: Server, s: Server, control: Control)
    requires Installable(c, first)
  {
    && StillAsked(first, s)
    && match control
       case Starting => false
       case Idle(outcome) => outcome.Completed? && Installed(c, first, s)
       case At(point, l) => Aims(c, first, s, point, l)
  }

  lemma OthersKeepAim(c: Config, first: Server, s: Server, t: Server, control: Control)
    requires Installable(c, first) && AimsControl(c, first, s, control)
    requires ServerInv(s) && ServerInv(t) && Leaves(s, t)
    ensures AimsControl(c, first, t, control)
  {
  }

  predicate CallAims(c: Config, first: Server, s: Server, point: Point, l: Locals)
    requires Installable(c, first)
  {
    var (t, r) := Serve(s, RequestAt(c, point, l));
    AimsControl(c, first, t, Resume(c, point, l, r))
  }

  lemma LoadAims(c: Config, first: Server, s: Server, point: Point, l: Locals)
    requires ServerInv(s) && ControlInv(c, s, At(point, l))
    requires Installable(c, first) && StillAsked(first, s) && Aims(c, first, s, point, l)
    requires point.LoadManagedOCS? || point.CheckDeleteLabel? || point.StatusOfStorageCluster?
    ensures CallAims(c, first, s, point, l)
  {
  }

  lemma BranchAims(c: Config, first: Server, s: Server, l: Locals)
    requires ServerInv(s) && Installable(c, first) && StillAsked(first, s)
    requires Aims(c, first, s, StatusOfAlertmanager, l)
    ensures AimsControl(c, first, s, Branch(l))
  {
  }

  lemma PrometheusAims(c: Config, first: Server, s: Server, point: Point, l: Locals)
    requires ServerInv(s) && Installable(c, first) && StillAsked(first, s) && Aims(c, first, s, point, l)
    requires point.StatusOfPrometheus? || point.StatusOfPrometheusSet?
    ensures CallAims(c, first, s, point, l)
  {
  }

  lemma AlertmanagerAims(c: Config, first: Server, s: Server, point: Point, l: Locals)
    requires ServerInv(s) && Installable(c, first) && StillAsked(first, s) && Aims(c, first, s, point, l)
    requires point.StatusOfAlertmanager? || point.StatusOfAlertmanagerSet?
    ensures CallAims(c, first, s, point, l)
  {
    var (t, r) := Serve(s, RequestAt(c, point, l));
    if !r.FoundReplicas? {
      BranchAims(c, first, s, StatusAfter(l, point, r));
    }
  }

  lemma AddFinalizerAims(c: Config, first: Server, s: Server, l: Locals)
    requires ServerInv(s) && ControlInv(c, s, At(AddFinalizer, l))
    requires Installable(c, first) && StillAsked(first, s) && Aims(c, first, s, AddFinalizer, l)
    requires !Serve(s, RequestAt(c, AddFinalizer, l)).1.Failed?
    ensures CallAims(c, first, s, AddFinalizer, l)
  {
    assert FINALIZER in l.managedOCS.finalizers;
  }

  lemma EnterPhaseAims(c: Config, first: Server, s: Server, l: Locals, index: nat)
    requires Installable(c, first) && StillAsked(first, s) && HoldsParams(c, first, l)
    requires first.managedOCS.value.uid != 0
    requires if index <= STORAGE_CLUSTER_PHASE then
               NotWritten(first, s) && (s.storageCluster.None? ==> l.storageCluster.spec == BLANK)
             else AsWanted(c, first, s)
    ensures AimsControl(c, first, s, EnterPhase(c, l, index))
  {
  }

  lemma ParamsAim(c: Config, first: Server, s: Server, l: Locals)
    requires ServerInv(s) && Installable(c, first) && StillAsked(first, s) && Aims(c, first, s, LoadParams, l)
    ensures CallAims(c, first, s, LoadParams, l)
  {
    var params := s.addonParams.value;
    var l' := l.(strategy := EffectiveStrategy(l.managedOCS), params := EffectiveParams(c, params));
    EnterPhaseAims(c, first, s, l', 0);
    ParamsAnswer(c, s, l);
  }

  lemma PhaseAims(c: Config, first: Server, s: Server, index: nat, l: Locals)
    requires ServerInv(s) && Installable(c, first) && StillAsked(first, s) && Aims(c, first, s, Resources(index), l)
    ensures CallAims(c, first, s, Resources(index), l)
  {
    EnterPhaseAims(c, first, s, l, index + 1);
    PhaseAnswer(c, s, index, l);
  }

  lemma LoadStorageClusterAims(c: Config, first: Server, s: Server, l: Locals)
    requires ServerInv(s) && Installable(c, first) && StillAsked(first, s)
    requires Aims(c, first, s, LoadStorageCluster, l)
    ensures CallAims(c, first, s, LoadStorageCluster, l)
  {
    var r := Serve(s, GetStorageCluster).1;
    if r.FoundStorageCluster? {
      var l1 := l.(storageCluster := r.storageCluster);
      var spec := WantedSpec(c, first).value;
      if l1.storageCluster == l1.storageCluster.(owner := l.managedOCS.uid, spec := spec) {
        EnterPhaseAims(c, first, s, l1, STORAGE_CLUSTER_PHASE + 1);
      }
    }
  }

  lemma WriteAims(c: Config, first: Server, s: Server, point: Point, l: Locals)
    requires ServerInv(s) && Installable(c, first) && StillAsked(first, s) && Aims(c, first, s, point, l)
    requires point.WriteStorageCluster? && !Serve(s, RequestAt(c, point, l)).1.Failed?
    ensures CallAims(c, first, s, point, l)
  {
    var (t, r) := Serve(s, RequestAt(c, point, l));
    EnterPhaseAims(c, first, t, l.(storageCluster := r.storageCluster), STORAGE_CLUSTER_PHASE + 1);
  }

  lemma SaveAims(c: Config, first: Server, s: Server, l: Locals)
    requires ServerInv(s) && Installable(c, first) && StillAsked(first, s)
    requires Aims(c, first, s, SaveStatus(Completed), l)
    requires !Serve(s, UpdateManagedOCSStatus(l.managedOCS)).1.Failed?
    ensures CallAims(c, first, s, SaveStatus(Completed), l)
  {
  }

  lemma CallKeepsAim(c: Config, first: Server, s: Server, point: Point, l: Locals)
    requires ServerInv(s) && ControlInv(c, s, At(point, l))
    requires Installable(c, first) && StillAsked(first, s) && Aims(c, first, s, point, l)
    requires !Serve(s, RequestAt(c, point, l)).1.Failed?
    ensures CallAims(c, first, s, point, l)
  {
    if point.StatusOfPrometheus? || point.StatusOfPrometheusSet? {
      PrometheusAims(c, first, s, point, l);
    } else if StatusRead(point) {
      AlertmanagerAims(c, first, s, point, l);
    } else if point.AddFinalizer? {
      AddFinalizerAims(c, first, s, l);
    } else if point.LoadParams? {
      ParamsAim(c, first, s, l);
    } else if point.Resources? {
      PhaseAims(c, first, s, point.index, l);
    } else if point.LoadStorageCluster? {
      LoadStorageClusterAims(c, first, s, l);
    } else if point.WriteStorageCluster? {
      WriteAims(c, first, s, point, l);
    } else if point.SaveStatus? {
      SaveAims(c, first, s, l);
    } else {
      LoadAims(c, first, s, point, l);
    }
  }

  // ---- the results ----

  /** A reconcile has just been triggered for a ManagedOCS that is to be installed. */
  predicate Triggered(c: Config, w: World) {
    Inv(c, w) && Installable(c, w.server) && w.control == At(LoadManagedOCS, NO_LOCALS)
  }

  lemma {:induction false} SteadyRunAims(c: Config, w: World, actions: seq<Action>)
    requires Triggered(c, w) && SteadyRun(c, w, actions)
    ensures var now := Run(c, w, actions); Inv(c, now) && AimsControl(c, w.server, now.server, now.control)
    decreases |actions|
  {
    if actions != [] {
      var before, a := actions[..|actions| - 1], actions[|actions| - 1];
      SteadyRunAims(c, w, before);
      var now := Run(c, w, before);
      StepKeepsInv(c, now, a);
      match a
      case Interfere(server) => OthersKeepAim(c, w.server, now.server, server, now.control);
      case Call(_) => CallKeepsAim(c, w.server, now.server, now.control.point, now.control.locals);
    }
  }

  /** A reconcile in which no call fails installs, whatever was there before and whatever others do to the rest
      meanwhile: it ends with success, the finalizer is on and the StorageCluster is as wanted. */
  lemma SteadyReconcileInstalls(c: Config, w: World, actions: seq<Action>)
    requires Triggered(c, w) && SteadyRun(c, w, actions) && Run(c, w, actions).control.Idle?
    ensures var now := Run(c, w, actions); now.control == Idle(Completed) && Installed(c, w.server, now.server)
  {
    SteadyRunAims(c, w, actions);
  }

  /** What has been installed, in terms of what was asked for. */
  lemma InstalledMeaning(c: Config, s: Server, t: Server)
    requires Installable(c, s) && Installed(c, s, t)
    ensures var current, spec := LoadedStorageCluster(s).spec, t.storageCluster.value.spec;
            if AsksForNone(s.managedOCS.value.strategy) then spec == current
            else
              && Readable(c.deployment, s.addonParams.value)
              && AsGiven(c.deployment, s.addonParams.value, current, spec)
  {
    WantedSpecMeaning(c, s);
  }

  /** If the StorageCluster is as wanted already, the reconcile never comes to write it. */
  lemma SettledIsNotWritten(c: Config, w: World, actions: seq<Action>)
    requires Triggered(c, w) && SettledFor(c, w.server) && SteadyRun(c, w, actions)
    ensures var now := Run(c, w, actions);
            now.control.At? ==>
              var q := NextRequest(c, now.control);
              !q.CreateStorageCluster? && !q.UpdateStorageCluster? && !q.DeleteStorageCluster?
  {
    SteadyRunAims(c, w, actions);
  }

  /** What has been installed is settled, and so the next reconcile does not write it. */
  lemma InstalledIsSettled(c: Config, s: Server, t: Server)
    requires Installable(c, s) && Installed(c, s, t)
    ensures Installable(c, t) && SettledFor(c, t)
  {
    MutatedIsIdempotent(c.deployment, EffectiveStrategy(s.managedOCS.value), EffectiveParams(c, s.addonParams.value),
                        LoadedStorageCluster(s).spec);
  }
}
