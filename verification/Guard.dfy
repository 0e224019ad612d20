/** When the check for volumes and consumers in use is made before the ManagedOCS is deleted. */
module Guard {
  import opened Prelude
  import opened StorageClusters
  import opened Phases
  import opened Server
  import opened Controller
  import opened History
  import opened Witnesses

  // ---- which runs make the check ----

  /** The reconcile has seen that nothing uses the storage. */
  ghost predicate Checked(seen: Facts) {
    NoConsumers in seen || exists names :: ClassesListed(names) in seen && VolumesClear(names) in seen
  }

  predicate Deleting(c: Config, w: World) {
    w.control.At? && NextRequest(c, w.control).DeleteManagedOCS?
  }

  /** In every run, the ManagedOCS is deleted only by a reconcile that has made the check. */
  ghost predicate AlwaysChecked(c: Config) {
    forall w, actions :: Initial(w) && Deleting(c, Run(c, w, actions)) ==> Checked(Seen(c, Run(c, w, actions).episode))
  }

  predicate Looks(q: Request) {
    q.ListStorageClasses? || q.ListVolumes? || q.ListConsumers?
  }

  predicate NeverLooked(episode: seq<Exchange>) {
    forall i :: 0 <= i < |episode| ==> !Looks(episode[i].request)
  }

  lemma NotLookedNotChecked(c: Config, episode: seq<Exchange>)
    requires NeverLooked(episode)
    ensures !Checked(Seen(c, episode))
  {
    if names :| VolumesClear(names) in Seen(c, episode) {
      var i :| 0 <= i < |episode| && Shows(c, episode[i], VolumesClear(names));
      assert Looks(episode[i].request);
    }
  }

  /** An unrecognised deployment type has no branch that looks. */
  lemma OtherCallDoesNotLook(c: Config, known: Facts, point: Point, l: Locals)
    requires c.deployment.Other? && KnowsInstall(c, known, point, l)
    ensures !Looks(RequestAt(c, point, l))
  {
  }

  lemma {:induction false} OtherNeverLooks(c: Config, w: World, actions: seq<Action>)
    requires Initial(w) && c.deployment.Other?
    ensures NeverLooked(Run(c, w, actions).episode)
    decreases |actions|
  {
    if actions != [] {
      var before, a := actions[..|actions| - 1], actions[|actions| - 1];
      var now := Run(c, w, before);
      OtherNeverLooks(c, w, before);
      RunKeepsKnows(c, w, before);
      if a.Call? && now.control.At? {
        OtherCallDoesNotLook(c, Seen(c, now.episode), now.control.point, now.control.locals);
      }
    }
  }

  /** In every run: a reconcile that is about to delete the ManagedOCS has made the check exactly if the deployment
      type is one of the three; and if it has not, its strategy was "none". */
  lemma CheckedIff(c: Config, w: World, actions: seq<Action>)
    requires Initial(w) && Deleting(c, Run(c, w, actions))
    ensures var now := Run(c, w, actions);
            && (Checked(Seen(c, now.episode)) <==> !c.deployment.Other?)
            && (c.deployment.Other? ==> now.control.locals.strategy.Untouched?)
  {
    var now := Run(c, w, actions);
    UninstallOnlyWhenSafe(c, w, actions);
    if c.deployment.Other? {
      OtherNeverLooks(c, w, actions);
      NotLookedNotChecked(c, now.episode);
      SettledNeedsAKnownType(c, now.episode, now.control.locals);
    }
  }

  lemma SettledNeedsAKnownType(c: Config, episode: seq<Exchange>, l: Locals)
    requires c.deployment.Other? && StorageClusterSettled(l.strategy, l.params, l.managedOCS.uid) in Seen(c, episode)
    ensures l.strategy.Untouched?
  {
    var f := StorageClusterSettled(l.strategy, l.params, l.managedOCS.uid);
    var i :| 0 <= i < |episode| && Shows(c, episode[i], f);
  }

  // ---- a run for every configuration ----

  const USED := "used"

  /** Everything is ready and the delete label is on. With an unrecognised deployment type, a volume is in use. */
  function ReadyServer(c: Config): Server {
    EDITED_SERVER.(clock := 6,
                   storageCluster := Some(CREATED_CLUSTER.(version := 5, phase := "Ready")),
                   addonLabels := Some({c.deleteLabelKey}),
                   prometheus := Some(None), prometheusSet := Some(1),
                   alertmanager := Some(None), alertmanagerSet := Some(1),
                   storageClasses := [StorageClass(USED, c.namespace)],
                   volumes := if c.deployment.Other? then [USED] else [])
  }

  /** The StorageCluster is created, the pod restarts, the components come up, and the add-on is to be removed. */
  lemma ReadyServerIsReached(c: Config) returns (actions: seq<Action>)
    ensures Leads(c, BEGINNING, actions, ReadyServer(c), Idle(Completed))
  {
    var w, l := BEGINNING, NO_LOCALS;
    actions, l := AboutToCreate(c);
    var s := EDITED_SERVER.(clock := 4, storageCluster := Some(CREATED_CLUSTER));
    actions := CallLeads(c, w, actions, EDITED_SERVER, At(WriteStorageCluster(true), l));
    RunExtends(c, w, actions, Crash);
    actions := actions + [Crash];
    actions := CallLeads(c, w, actions, s, Starting);
    actions := InterfereLeads(c, w, actions, s, Idle(Completed), ReadyServer(c));
  }

  lemma ReadyStorageCluster(c: Config, w: World, actions: seq<Action>, s: Server, l: Locals)
    returns (longer: seq<Action>, l': Locals)
    requires Leads(c, w, actions, s, At(StatusOfStorageCluster, l))
    requires s.storageCluster.Some? && s.storageCluster.value.phase == "Ready"
    ensures Leads(c, w, longer, s, At(StatusOfPrometheus, l'))
    ensures l' == WithStatus(l, l.managedOCS.status.(storageCluster := Ready))
               .(storageCluster := s.storageCluster.value)
  {
    longer := CallLeads(c, w, actions, s, At(StatusOfStorageCluster, l));
    l' := StatusAfter(l, StatusOfStorageCluster, FoundStorageCluster(s.storageCluster.value));
  }

  lemma FoundPrometheus(c: Config, w: World, actions: seq<Action>, s: Server, l: Locals) returns (longer: seq<Action>)
    requires Leads(c, w, actions, s, At(StatusOfPrometheus, l)) && s.prometheus == Some(None)
    ensures Leads(c, w, longer, s, At(StatusOfPrometheusSet(1), l))
  {
    longer := CallLeads(c, w, actions, s, At(StatusOfPrometheus, l));
  }

  lemma ReadyPrometheus(c: Config, w: World, actions: seq<Action>, s: Server, l: Locals)
    returns (longer: seq<Action>, l': Locals)
    requires Leads(c, w, actions, s, At(StatusOfPrometheus, l))
    requires s.prometheus == Some(None) && s.prometheusSet == Some(1)
    ensures Leads(c, w, longer, s, At(StatusOfAlertmanager, l'))
    ensures l' == WithStatus(l, l.managedOCS.status.(prometheus := Ready))
  {
    longer := FoundPrometheus(c, w, actions, s, l);
    longer := CallLeads(c, w, longer, s, At(StatusOfPrometheusSet(1), l));
    l' := StatusAfter(l, StatusOfPrometheusSet(1), FoundReady(1));
  }

  lemma FoundAlertmanager(c: Config, w: World, actions: seq<Action>, s: Server, l: Locals) returns (longer: seq<Action>)
    requires Leads(c, w, actions, s, At(StatusOfAlertmanager, l)) && s.alertmanager == Some(None)
    ensures Leads(c, w, longer, s, At(StatusOfAlertmanagerSet(1), l))
  {
    longer := CallLeads(c, w, actions, s, At(StatusOfAlertmanager, l));
  }

  lemma ReadyAlertmanager(c: Config, w: World, actions: seq<Action>, s: Server, l: Locals)
    returns (longer: seq<Action>, l': Locals)
    requires Leads(c, w, actions, s, At(StatusOfAlertmanager, l))
    requires s.alertmanager == Some(None) && s.alertmanagerSet == Some(1)
    ensures Leads(c, w, longer, s, Branch(l'))
    ensures l' == WithStatus(l, l.managedOCS.status.(alertmanager := Ready))
  {
    longer := FoundAlertmanager(c, w, actions, s, l);
    longer := CallLeads(c, w, longer, s, At(StatusOfAlertmanagerSet(1), l));
    l' := StatusAfter(l, StatusOfAlertmanagerSet(1), FoundReady(1));
  }

  lemma {:induction false} PhasesLead(c: Config, w: World, actions: seq<Action>, s: Server, l: Locals,
                                      first: nat, end: nat)
    returns (longer: seq<Action>)
    requires first <= end <= PHASE_COUNT && !(first <= STORAGE_CLUSTER_PHASE < end)
    requires Leads(c, w, actions, s, EnterPhase(c, l, first))
    ensures Leads(c, w, longer, s, EnterPhase(c, l, end))
    decreases end - first
  {
    longer := actions;
    if first < end {
      longer := CallLeads(c, w, actions, s, At(Resources(first), l));
      longer := PhasesLead(c, w, longer, s, l, first + 1, end);
    }
  }

  /** The StorageCluster stays as it is with the strategy "none". */
  lemma StorageClusterStays(c: Config, w: World, actions: seq<Action>, s: Server, l: Locals)
    returns (longer: seq<Action>)
    requires Leads(c, w, actions, s, At(LoadStorageCluster, l)) && l.strategy.Untouched?
    requires s.storageCluster == Some(l.storageCluster) && l.storageCluster.owner == l.managedOCS.uid
    ensures Leads(c, w, longer, s, EnterPhase(c, l, STORAGE_CLUSTER_PHASE + 1))
  {
    longer := CallLeads(c, w, actions, s, At(LoadStorageCluster, l));
    assert l.(storageCluster := s.storageCluster.value) == l;
  }

  /** From the parameters to the decision. */
  lemma AllPhasesLead(c: Config, w: World, actions: seq<Action>, s: Server, l: Locals)
    returns (longer: seq<Action>, l': Locals)
    requires Leads(c, w, actions, s, At(LoadParams, l))
    requires s.addonParams.Some? && EffectiveStrategy(l.managedOCS).Untouched?
    requires s.storageCluster == Some(l.storageCluster) && l.storageCluster.owner == l.managedOCS.uid
    ensures Leads(c, w, longer, s, AfterPhases(c, l'))
    ensures l' == l.(strategy := Untouched, params := EffectiveParams(c, s.addonParams.value))
  {
    l' := l.(strategy := Untouched, params := EffectiveParams(c, s.addonParams.value));
    longer := CallLeads(c, w, actions, s, At(LoadParams, l));
    longer := PhasesLead(c, w, longer, s, l', 0, STORAGE_CLUSTER_PHASE);
    longer := StorageClusterStays(c, w, longer, s, l');
    longer := PhasesLead(c, w, longer, s, l', STORAGE_CLUSTER_PHASE + 1, PHASE_COUNT);
  }

  lemma VolumesLead(c: Config, w: World, actions: seq<Action>, s: Server, l: Locals) returns (longer: seq<Action>)
    requires Leads(c, w, actions, s, At(ListPVs, l)) && s.volumes == []
    ensures Leads(c, w, longer, s, At(RemoveManagedOCS, l))
  {
    longer := CallLeads(c, w, actions, s, At(ListPVs, l));
  }

  lemma ClassesLead(c: Config, w: World, actions: seq<Action>, s: Server, l: Locals)
    returns (longer: seq<Action>, l': Locals)
    requires Leads(c, w, actions, s, At(ListClasses, l)) && s.volumes == []
    ensures Leads(c, w, longer, s, At(RemoveManagedOCS, l'))
  {
    l' := l.(ocsClasses := OCSClasses(c.namespace, s.storageClasses));
    longer := CallLeads(c, w, actions, s, At(ListClasses, l));
    longer := VolumesLead(c, w, longer, s, l');
  }

  /** The decision, with nothing in use, or with a type for which nobody looks. */
  lemma DecisionLeads(c: Config, w: World, actions: seq<Action>, s: Server, l: Locals)
    returns (longer: seq<Action>, l': Locals)
    requires Leads(c, w, actions, s, AfterPhases(c, l)) && l.uninstall && ReadyForUninstall(l.managedOCS)
    requires !c.deployment.Other? ==> s.volumes == [] && s.consumers == []
    ensures Leads(c, w, longer, s, At(RemoveManagedOCS, l'))
  {
    l' := WithStatus(l, l.managedOCS.status.(strategy := Some(l.strategy)));
    longer := actions;
    match c.deployment {
      case Converged => longer, l' := ClassesLead(c, w, actions, s, l');
      case Consumer => longer, l' := ClassesLead(c, w, actions, s, l');
      case Provider => longer := CallLeads(c, w, actions, s, At(ListStorageConsumers, l'));
      case Other(_) =>
    }
  }

  lemma ReadyStatus(c: Config, actions: seq<Action>, s: Server) returns (longer: seq<Action>, l: Locals)
    requires s == ReadyServer(c) && Leads(c, BEGINNING, actions, s, At(LoadManagedOCS, NO_LOCALS))
    ensures Leads(c, BEGINNING, longer, s, Branch(l)) && l.uninstall && ReadyForUninstall(l.managedOCS)
    ensures l.managedOCS == EDITED.(status := l.managedOCS.status) && l.storageCluster == s.storageCluster.value
  {
    longer, l := LoadLeads(c, BEGINNING, actions, s, EDITED);
    longer, l := ReadyStorageCluster(c, BEGINNING, longer, s, l);
    longer, l := ReadyPrometheus(c, BEGINNING, longer, s, l);
    longer, l := ReadyAlertmanager(c, BEGINNING, longer, s, l);
  }

  /** For every configuration there is a run in which the ManagedOCS is about to be deleted: with one of the three
      deployment types the guard has let it through, and with any other one a volume still uses the storage. */
  lemma GuardLetsThrough(c: Config) returns (actions: seq<Action>)
    ensures Initial(BEGINNING)
    ensures var now := Run(c, BEGINNING, actions);
            && Deleting(c, now)
            && (c.deployment.Other? ==>
                  exists v :: v in now.server.volumes && v in OCSClasses(c.namespace, now.server.storageClasses))
  {
    var w, s, l := BEGINNING, ReadyServer(c), NO_LOCALS;
    actions := ReadyServerIsReached(c);
    actions := TriggerLeads(c, w, actions, s, Idle(Completed));
    actions, l := ReadyStatus(c, actions, s);
    assert Branch(l) == At(LoadParams, l);
    actions, l := AllPhasesLead(c, w, actions, s, l);
    actions, l := DecisionLeads(c, w, actions, s, l);
    UsedClass(c);
  }

  lemma UsedClass(c: Config)
    ensures c.deployment.Other? ==>
      exists v :: v in ReadyServer(c).volumes && v in OCSClasses(c.namespace, ReadyServer(c).storageClasses)
  {
    var s := ReadyServer(c);
    if c.deployment.Other? {
      assert s.volumes[0] == USED && s.storageClasses[0].name == USED && s.storageClasses[0] in s.storageClasses;
      assert USED in s.volumes && USED in OCSClasses(c.namespace, s.storageClasses);
    }
  }

  /** The check is always made exactly if the deployment type is recognised. */
  lemma AlwaysCheckedIff(c: Config)
    ensures AlwaysChecked(c) <==> !c.deployment.Other?
  {
    if c.deployment.Other? {
      var actions := GuardLetsThrough(c);
      CheckedIff(c, BEGINNING, actions);
    } else {
      forall w, actions | Initial(w) && Deleting(c, Run(c, w, actions))
        ensures Checked(Seen(c, Run(c, w, actions).episode))
      {
        CheckedIff(c, w, actions);
      }
    }
  }
}
