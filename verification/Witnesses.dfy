/** Concrete runs from the very beginning: two in which an uninstallation is set back, and one that has to wait. */
module Witnesses {
  import opened Prelude
  import opened StorageClusters
  import opened Server
  import opened Controller
  import opened Progress
  import opened Safety
  import opened Uninstallation
  import Slices

  /** Nothing is there but the secret with the add-on parameters. */
  const EMPTY_SERVER :=
    Server(1, None, None, [], [], None, Some(map[]), None, None, None, None, [], [], [])

  const BEGINNING := World(EMPTY_SERVER, Starting, [])

  /** The run so far has led to this server and this control. */
  predicate Leads(c: Config, w: World, actions: seq<Action>, s: Server, control: Control) {
    Run(c, w, actions).server == s && Run(c, w, actions).control == control
  }

  /** One more call, which is delivered. */
  lemma CallLeads(c: Config, w: World, actions: seq<Action>, s: Server, control: Control)
    returns (longer: seq<Action>)
    requires Leads(c, w, actions, s, control) && !control.Idle?
    ensures longer == actions + [Call(Deliver)]
    ensures var (t, r) := Serve(s, NextRequest(c, control)); Leads(c, w, longer, t, Advance(c, control, r))
  {
    longer := actions + [Call(Deliver)];
    RunExtends(c, w, actions, Call(Deliver));
  }

  lemma InterfereLeads(c: Config, w: World, actions: seq<Action>, s: Server, control: Control, t: Server)
    returns (longer: seq<Action>)
    requires Leads(c, w, actions, s, control) && Interference(s, t)
    ensures longer == actions + [Interfere(t)] && Leads(c, w, longer, t, control)
  {
    longer := actions + [Interfere(t)];
    RunExtends(c, w, actions, Interfere(t));
  }

  lemma TriggerLeads(c: Config, w: World, actions: seq<Action>, s: Server, control: Control)
    returns (longer: seq<Action>)
    requires Leads(c, w, actions, s, control) && control.Idle?
    ensures longer == actions + [Trigger] && Leads(c, w, longer, s, At(LoadManagedOCS, NO_LOCALS))
  {
    longer := actions + [Trigger];
    RunExtends(c, w, actions, Trigger);
  }

  const CREATED := ManagedOCS(1, 1, false, [FINALIZER], "", NO_STATUS)

  /** The pod starts and makes the ManagedOCS. */
  lemma Startup(c: Config) returns (actions: seq<Action>)
    ensures Leads(c, BEGINNING, actions, EMPTY_SERVER.(clock := 2, managedOCS := Some(CREATED)), Idle(Completed))
    ensures actions == [Call(Deliver)]
  {
    var w := BEGINNING;
    assert Run(c, BEGINNING, []) == BEGINNING;
    actions := CallLeads(c, w, [], EMPTY_SERVER, Starting);
  }

  predicate LabelIsOn(c: Config, s: Server) {
    s.addonLabels.Some? && c.deleteLabelKey in s.addonLabels.value
  }

  lemma LoadLeads(c: Config, w: World, actions: seq<Action>, s: Server, m: ManagedOCS)
    returns (longer: seq<Action>, l: Locals)
    requires Leads(c, w, actions, s, At(LoadManagedOCS, NO_LOCALS)) && s.managedOCS == Some(m)
    ensures actions <= longer && Leads(c, w, longer, s, At(StatusOfStorageCluster, l))
    ensures l == NO_LOCALS.(managedOCS := m, uninstall := LabelIsOn(c, s))
  {
    var l1 := NO_LOCALS.(managedOCS := m);
    longer := CallLeads(c, w, actions, s, At(LoadManagedOCS, NO_LOCALS));
    longer := CallLeads(c, w, longer, s, At(CheckDeleteLabel, l1));
    l := l1.(uninstall := LabelIsOn(c, s));
  }

  lemma NoStorageCluster(c: Config, w: World, actions: seq<Action>, s: Server, l: Locals)
    returns (longer: seq<Action>, l': Locals)
    requires Leads(c, w, actions, s, At(StatusOfStorageCluster, l)) && s.storageCluster.None?
    ensures longer == actions + [Call(Deliver)] && Leads(c, w, longer, s, At(StatusOfPrometheus, l'))
    ensures l' == WithStatus(l, l.managedOCS.status.(storageCluster := NotFound))
  {
    longer := CallLeads(c, w, actions, s, At(StatusOfStorageCluster, l));
    l' := StatusAfter(l, StatusOfStorageCluster, Missing);
  }

  lemma NoPrometheus(c: Config, w: World, actions: seq<Action>, s: Server, l: Locals)
    returns (longer: seq<Action>, l': Locals)
    requires Leads(c, w, actions, s, At(StatusOfPrometheus, l)) && s.prometheus.None?
    ensures longer == actions + [Call(Deliver)] && Leads(c, w, longer, s, At(StatusOfAlertmanager, l'))
    ensures l' == WithStatus(l, l.managedOCS.status.(prometheus := NotFound))
  {
    longer := CallLeads(c, w, actions, s, At(StatusOfPrometheus, l));
    l' := StatusAfter(l, StatusOfPrometheus, Missing);
  }

  lemma NoAlertmanager(c: Config, w: World, actions: seq<Action>, s: Server, l: Locals)
    returns (longer: seq<Action>, l': Locals)
    requires Leads(c, w, actions, s, At(StatusOfAlertmanager, l)) && s.alertmanager.None?
    ensures longer == actions + [Call(Deliver)] && Leads(c, w, longer, s, Branch(l'))
    ensures l' == WithStatus(l, l.managedOCS.status.(alertmanager := NotFound))
  {
    longer := CallLeads(c, w, actions, s, At(StatusOfAlertmanager, l));
    l' := StatusAfter(l, StatusOfAlertmanager, Missing);
  }

  lemma StatusLeads(c: Config, w: World, actions: seq<Action>, s: Server, l: Locals)
    returns (longer: seq<Action>, l': Locals)
    requires Leads(c, w, actions, s, At(StatusOfStorageCluster, l))
    requires s.storageCluster.None? && s.prometheus.None? && s.alertmanager.None?
    ensures actions <= longer && Leads(c, w, longer, s, Branch(l'))
    ensures l' == WithStatus(l, Status(l.managedOCS.status.strategy, NotFound, NotFound, NotFound))
  {
    longer, l' := NoStorageCluster(c, w, actions, s, l);
    longer, l' := NoPrometheus(c, w, longer, s, l');
    longer, l' := NoAlertmanager(c, w, longer, s, l');
  }

  /** A reconcile finds the ManagedOCS `m`, no component, and the delete label if it is there. */
  lemma LoadAndStatus(c: Config, w: World, actions: seq<Action>, s: Server, m: ManagedOCS)
    returns (longer: seq<Action>, l: Locals)
    requires Leads(c, w, actions, s, At(LoadManagedOCS, NO_LOCALS)) && s.managedOCS == Some(m)
    requires s.storageCluster.None? && s.prometheus.None? && s.alertmanager.None?
    ensures actions <= longer && Leads(c, w, longer, s, Branch(l))
    ensures l == NO_LOCALS.(managedOCS := m.(status := Status(m.status.strategy, NotFound, NotFound, NotFound)),
                            uninstall := LabelIsOn(c, s))
  {
    var l1;
    longer, l1 := LoadLeads(c, w, actions, s, m);
    longer, l := StatusLeads(c, w, longer, s, l1);
  }

  // ---- a deletion between two calls of a reconcile that installs ----

  /** From the parameters to the write of the StorageCluster, with the strategy that asks for no spec. */
  lemma UpToTheWrite(c: Config, w: World, actions: seq<Action>, s: Server, l: Locals)
    returns (longer: seq<Action>, l': Locals)
    requires Leads(c, w, actions, s, At(LoadParams, l))
    requires s.storageCluster.None? && s.addonParams.Some? && EffectiveStrategy(l.managedOCS).Untouched?
    requires l.storageCluster == NO_STORAGE_CLUSTER
    ensures actions <= longer && Leads(c, w, longer, s, At(WriteStorageCluster(true), l'))
    ensures l'.storageCluster == NO_STORAGE_CLUSTER.(owner := l.managedOCS.uid)
  {
    var l1 := l.(strategy := Untouched, params := EffectiveParams(c, s.addonParams.value));
    longer := CallLeads(c, w, actions, s, At(LoadParams, l));
    longer := CallLeads(c, w, longer, s, At(Resources(0), l1));
    longer := CallLeads(c, w, longer, s, At(Resources(1), l1));
    longer := CallLeads(c, w, longer, s, At(Resources(2), l1));
    longer := CallLeads(c, w, longer, s, At(LoadStorageCluster, l1));
    l' := l1.(storageCluster := l1.storageCluster.(owner := l1.managedOCS.uid));
    assert Resume(c, LoadStorageCluster, l1, Missing) == At(WriteStorageCluster(true), l');
  }

  const EDITED := CREATED.(version := 2, strategy := "none")
  const EDITED_SERVER := EMPTY_SERVER.(clock := 3, managedOCS := Some(EDITED))

  /** The user chooses the strategy "none", and a reconcile is about to create the StorageCluster. */
  lemma AboutToCreate(c: Config) returns (actions: seq<Action>, l: Locals)
    ensures Leads(c, BEGINNING, actions, EDITED_SERVER, At(WriteStorageCluster(true), l))
    ensures l.storageCluster == NO_STORAGE_CLUSTER.(owner := 1)
  {
    var w, s0 := BEGINNING, EMPTY_SERVER.(clock := 2, managedOCS := Some(CREATED));
    actions := Startup(c);
    actions := InterfereLeads(c, w, actions, s0, Idle(Completed), EDITED_SERVER);
    actions := TriggerLeads(c, w, actions, EDITED_SERVER, Idle(Completed));
    actions, l := LoadAndStatus(c, w, actions, EDITED_SERVER, EDITED);
    assert Branch(l) == At(LoadParams, l);
    actions, l := UpToTheWrite(c, w, actions, EDITED_SERVER, l);
  }

  /** For every configuration there is a run, without failures or restarts, in which a call raises the rank of an
      uninstallation: the user deletes the ManagedOCS while a reconcile is about to create the StorageCluster. */
  lemma InFlightInstallRaisesRank(c: Config) returns (actions: seq<Action>)
    ensures Initial(BEGINNING)
    ensures var now := Run(c, BEGINNING, actions);
            && Uninstalling(c, now.server) && now.server.managedOCS.Some?
            && Rank(Step(c, now, Call(Deliver)).server) == Rank(now.server) + 1
  {
    var l;
    actions, l := AboutToCreate(c);
    var t := EDITED_SERVER.(clock := 4, managedOCS := Some(EDITED.(version := 3, deleting := true)),
                            addonLabels := Some({c.deleteLabelKey}));
    actions := InterfereLeads(c, BEGINNING, actions, EDITED_SERVER, At(WriteStorageCluster(true), l), t);
    WriteRaisesRankIff(c, t, l, true);
  }

  // ---- a restart after the ManagedOCS has gone ----

  lemma NoOperator(c: Config, w: World, actions: seq<Action>, s: Server, l: Locals) returns (longer: seq<Action>)
    requires Leads(c, w, actions, s, At(ListOperators, l)) && s.csvs == []
    ensures longer == actions + [Call(Deliver)] && Leads(c, w, longer, s, RemovingFinalizer(l))
  {
    longer := CallLeads(c, w, actions, s, At(ListOperators, l));
  }

  lemma NoFinalizerLeft(l: Locals)
    requires l.managedOCS.finalizers == [FINALIZER]
    ensures RemovingFinalizer(l) == At(RemoveFinalizer, WithFinalizers(l, []))
  {
    assert Slices.Without(l.managedOCS.finalizers[1..], FINALIZER) == [];
  }

  lemma NothingToSave(c: Config, w: World, actions: seq<Action>, s: Server, l: Locals) returns (longer: seq<Action>)
    requires Leads(c, w, actions, s, At(SaveStatus(Completed), l)) && s.managedOCS.None?
    ensures longer == actions + [Call(Deliver)] && Leads(c, w, longer, s, Idle(Error))
  {
    longer := CallLeads(c, w, actions, s, At(SaveStatus(Completed), l));
  }

  /** Taking off the last finalizer removes a ManagedOCS that is being deleted. */
  lemma LastFinalizerLeads(c: Config, w: World, actions: seq<Action>, s: Server, l: Locals)
    returns (longer: seq<Action>, l': Locals)
    requires Leads(c, w, actions, s, At(RemoveFinalizer, l))
    requires s.managedOCS.Some? && s.managedOCS.value.deleting && SameManagedOCS(s, l.managedOCS)
    requires l.managedOCS.uid != 0 && l.managedOCS.finalizers == []
    ensures longer == actions + [Call(Deliver)] && l'.managedOCS.uid != 0
    ensures Leads(c, w, longer, s.(clock := s.clock + 1, managedOCS := None), At(SaveStatus(Completed), l'))
  {
    longer := CallLeads(c, w, actions, s, At(RemoveFinalizer, l));
    l' := SavedManagedOCS(l, s.managedOCS.value.(finalizers := [], version := s.clock));
  }

  /** A reconcile takes the finalizer off a ManagedOCS that is being deleted; it goes, and so the last call of the
      reconcile, which saves its status, finds nothing. */
  lemma RemovalLeads(c: Config, w: World, actions: seq<Action>, s: Server, l: Locals) returns (longer: seq<Action>)
    requires Leads(c, w, actions, s, At(ListOperators, l))
    requires s.csvs == [] && s.managedOCS.Some? && s.managedOCS.value.deleting && SameManagedOCS(s, l.managedOCS)
    requires l.managedOCS.uid != 0 && l.managedOCS.finalizers == [FINALIZER]
    ensures actions <= longer && Leads(c, w, longer, s.(clock := s.clock + 1, managedOCS := None), Idle(Error))
  {
    var l';
    longer := NoOperator(c, w, actions, s, l);
    NoFinalizerLeft(l);
    longer, l' := LastFinalizerLeads(c, w, longer, s, WithFinalizers(l, []));
    longer := NothingToSave(c, w, longer, s.(clock := s.clock + 1, managedOCS := None), l');
  }

  /** For every configuration there is a run in which the ManagedOCS was made, deleted and removed, and then the pod
      restarts and makes a new one. */
  lemma RestartRaisesRank(c: Config) returns (actions: seq<Action>, made: nat)
    ensures Initial(BEGINNING)
    ensures made < |actions| && Run(c, BEGINNING, actions[..made]).server.managedOCS.Some?
    ensures actions[|actions| - 1] == Crash
    ensures var now := Run(c, BEGINNING, actions);
            && Uninstalling(c, now.server) && Gone(now.server)
            && Rank(Step(c, now, Call(Deliver)).server) == Rank(now.server) + 2
  {
    var w := BEGINNING;
    var first := Startup(c);
    made := 1;
    var s0 := EMPTY_SERVER.(clock := 2, managedOCS := Some(CREATED));
    var deleted := CREATED.(version := 2, deleting := true);
    var s := s0.(clock := 3, managedOCS := Some(deleted), addonLabels := Some({c.deleteLabelKey}));
    actions := InterfereLeads(c, w, first, s0, Idle(Completed), s);
    actions := TriggerLeads(c, w, actions, s, Idle(Completed));
    var l;
    actions, l := LoadAndStatus(c, w, actions, s, deleted);
    assert Branch(l) == At(ListOperators, l);
    actions := RemovalLeads(c, w, actions, s, l);
    RunExtends(c, w, actions, Crash);
    actions := actions + [Crash];
    assert actions[..made] == first;
  }

  // ---- a round that has to wait ----

  const OTHERS := "others"
  const CREATED_CLUSTER := StorageCluster(3, 3, false, [], 1, "", BLANK)

  /** The ManagedOCS is being deleted, and its StorageCluster has a finalizer of the ocs-operator. */
  function WaitingServer(c: Config): Server {
    EDITED_SERVER.(clock := 6,
                   managedOCS := Some(EDITED.(version := 4, deleting := true)),
                   storageCluster := Some(CREATED_CLUSTER.(version := 5, finalizers := [OTHERS])),
                   addonLabels := Some({c.deleteLabelKey}))
  }

  /** The StorageCluster is created, the pod restarts, the ocs-operator finds the StorageCluster, and the user
      uninstalls. */
  lemma WaitingServerIsReached(c: Config) returns (actions: seq<Action>)
    ensures Leads(c, BEGINNING, actions, WaitingServer(c), Idle(Completed))
  {
    var w, l := BEGINNING, NO_LOCALS;
    actions, l := AboutToCreate(c);
    var s := EDITED_SERVER.(clock := 4, storageCluster := Some(CREATED_CLUSTER));
    actions := CallLeads(c, w, actions, EDITED_SERVER, At(WriteStorageCluster(true), l));
    RunExtends(c, w, actions, Crash);
    actions := actions + [Crash];
    actions := CallLeads(c, w, actions, s, Starting);
    actions := InterfereLeads(c, w, actions, s, Idle(Completed), WaitingServer(c));
  }

  /** A run in which no call has failed and the ManagedOCS has kept its finalizer. */
  ghost predicate Calm(c: Config, w: World, actions: seq<Action>, s: Server, control: Control) {
    && Leads(c, w, actions, s, control) && SmoothRun(c, w, actions)
    && forall k: nat :: k <= |actions| ==> Carries(ServerAt(c, w, actions, k))
  }

  lemma CalmExtends(c: Config, w: World, actions: seq<Action>, s: Server, control: Control, longer: seq<Action>,
                    a: Action, t: Server, next: Control)
    requires Calm(c, w, actions, s, control) && longer == actions + [a] && Leads(c, w, longer, t, next)
    requires Smooth(c, Run(c, w, actions), a) && Carries(t)
    ensures Calm(c, w, longer, t, next)
  {
    assert longer[..|actions|] == actions && longer[..|longer|] == longer;
    forall k: nat | k <= |longer|
      ensures Carries(ServerAt(c, w, longer, k))
    {
      if k < |longer| {
        assert longer[..k] == actions[..k];
        assert Carries(ServerAt(c, w, actions, k));
      } else {
        assert ServerAt(c, w, longer, k) == t;
      }
    }
  }

  lemma CalmCall(c: Config, w: World, actions: seq<Action>, s: Server, point: Point, l: Locals)
    returns (longer: seq<Action>)
    requires Calm(c, w, actions, s, At(point, l)) && !Serve(s, RequestAt(c, point, l)).1.Failed?
    requires Carries(Serve(s, RequestAt(c, point, l)).0)
    ensures longer == actions + [Call(Deliver)]
    ensures var (t, r) := Serve(s, RequestAt(c, point, l)); Calm(c, w, longer, t, Resume(c, point, l, r))
  {
    var (t, r) := Serve(s, RequestAt(c, point, l));
    longer := CallLeads(c, w, actions, s, At(point, l));
    CalmExtends(c, w, actions, s, At(point, l), longer, Call(Deliver), t, Resume(c, point, l, r));
  }

  lemma CalmLoad(c: Config, w: World, s: Server) returns (actions: seq<Action>, l: Locals)
    requires Carries(s) && w.server == s && w.control == At(LoadManagedOCS, NO_LOCALS)
    ensures Calm(c, w, actions, s, At(StatusOfStorageCluster, l))
    ensures l.managedOCS == s.managedOCS.value
  {
    assert Run(c, w, []) == w;
    var l1 := NO_LOCALS.(managedOCS := s.managedOCS.value);
    actions := CalmCall(c, w, [], s, LoadManagedOCS, NO_LOCALS);
    actions := CalmCall(c, w, actions, s, CheckDeleteLabel, l1);
    l := l1.(uninstall := LabelIsOn(c, s));
  }

  lemma CalmFound(c: Config, w: World, actions: seq<Action>, s: Server, l: Locals)
    returns (longer: seq<Action>, l': Locals)
    requires Calm(c, w, actions, s, At(StatusOfStorageCluster, l)) && s.storageCluster.Some? && Carries(s)
    ensures actions <= longer && Calm(c, w, longer, s, At(StatusOfPrometheus, l'))
    ensures l'.managedOCS == l.managedOCS.(status := l'.managedOCS.status)
    ensures !l'.managedOCS.status.storageCluster.NotFound?
  {
    longer := CalmCall(c, w, actions, s, StatusOfStorageCluster, l);
    l' := StatusAfter(l, StatusOfStorageCluster, FoundStorageCluster(s.storageCluster.value));
  }

  lemma CalmPrometheus(c: Config, w: World, actions: seq<Action>, s: Server, l: Locals)
    returns (longer: seq<Action>, l': Locals)
    requires Calm(c, w, actions, s, At(StatusOfPrometheus, l)) && s.prometheus.None? && Carries(s)
    ensures actions <= longer && Calm(c, w, longer, s, At(StatusOfAlertmanager, l'))
    ensures l' == WithStatus(l, l.managedOCS.status.(prometheus := NotFound))
  {
    longer, l' := NoPrometheus(c, w, actions, s, l);
    CalmExtends(c, w, actions, s, At(StatusOfPrometheus, l), longer, Call(Deliver), s, At(StatusOfAlertmanager, l'));
  }

  lemma CalmAlertmanager(c: Config, w: World, actions: seq<Action>, s: Server, l: Locals)
    returns (longer: seq<Action>, l': Locals)
    requires Calm(c, w, actions, s, At(StatusOfAlertmanager, l)) && s.alertmanager.None? && Carries(s)
    ensures actions <= longer && Calm(c, w, longer, s, Branch(l'))
    ensures l' == WithStatus(l, l.managedOCS.status.(alertmanager := NotFound))
  {
    longer, l' := NoAlertmanager(c, w, actions, s, l);
    CalmExtends(c, w, actions, s, At(StatusOfAlertmanager, l), longer, Call(Deliver), s, Branch(l'));
  }

  /** The reconcile finds the StorageCluster and decides to have it removed. */
  lemma CalmStatus(c: Config, w: World, s: Server) returns (actions: seq<Action>, l: Locals)
    requires Carries(s) && w.server == s && w.control == At(LoadManagedOCS, NO_LOCALS)
    requires s.managedOCS.value.deleting && s.storageCluster.Some? && s.prometheus.None? && s.alertmanager.None?
    ensures Calm(c, w, actions, s, At(RemoveStorageCluster, l))
    ensures l.managedOCS == s.managedOCS.value.(status := l.managedOCS.status)
  {
    actions, l := CalmLoad(c, w, s);
    actions, l := CalmFound(c, w, actions, s, l);
    actions, l := CalmPrometheus(c, w, actions, s, l);
    actions, l := CalmAlertmanager(c, w, actions, s, l);
  }

  lemma CalmMark(c: Config, w: World, actions: seq<Action>, s: Server, l: Locals)
    returns (longer: seq<Action>, t: Server)
    requires Calm(c, w, actions, s, At(RemoveStorageCluster, l)) && Carries(s) && s.storageCluster.Some?
    ensures actions <= longer && Calm(c, w, longer, t, At(ListSystems, l))
    ensures t.managedOCS == s.managedOCS && t.storageSystems == s.storageSystems
    ensures t.addonLabels == s.addonLabels && t.csvs == s.csvs && s.clock <= t.clock
  {
    longer := CalmCall(c, w, actions, s, RemoveStorageCluster, l);
    t := DeletedStorageCluster(s);
  }

  lemma CalmSystems(c: Config, w: World, actions: seq<Action>, s: Server, l: Locals) returns (longer: seq<Action>)
    requires Calm(c, w, actions, s, At(ListSystems, l)) && Carries(s) && s.storageSystems == []
    requires l.managedOCS.uid != 0
    ensures actions <= longer && Calm(c, w, longer, s, At(SaveStatus(Completed), l))
  {
    longer := CalmCall(c, w, actions, s, ListSystems, l);
  }

  lemma CalmSave(c: Config, w: World, actions: seq<Action>, s: Server, l: Locals)
    returns (longer: seq<Action>, t: Server)
    requires Calm(c, w, actions, s, At(SaveStatus(Completed), l)) && Carries(s) && SameManagedOCS(s, l.managedOCS)
    ensures actions <= longer && Calm(c, w, longer, t, Idle(Completed))
    ensures Carries(t) && t.managedOCS.value == s.managedOCS.value.(status := l.managedOCS.status, version := s.clock)
    ensures t == s.(managedOCS := t.managedOCS, clock := s.clock + 1)
  {
    longer := CalmCall(c, w, actions, s, SaveStatus(Completed), l);
    t := Serve(s, UpdateManagedOCSStatus(l.managedOCS)).0;
  }

  /** Then the ocs-operator lets the StorageCluster go. */
  lemma CalmRelease(c: Config, w: World, actions: seq<Action>, s: Server, control: Control)
    returns (longer: seq<Action>)
    requires Calm(c, w, actions, s, control) && Carries(s) && Uninstalling(c, s)
    requires s.managedOCS.value.uid < s.clock && s.managedOCS.value.version < s.clock
    ensures actions <= longer && Calm(c, w, longer, s.(storageCluster := None), control)
  {
    var t := s.(storageCluster := None);
    assert Interference(s, t);
    longer := InterfereLeads(c, w, actions, s, control, t);
    CalmExtends(c, w, actions, s, control, longer, Interfere(t), t, control);
  }

  /** The reconcile marks the StorageCluster and saves its status, and the StorageCluster goes. */
  lemma CalmRemoval(c: Config, w: World, actions: seq<Action>, s: Server, l: Locals)
    returns (longer: seq<Action>, t: Server)
    requires Calm(c, w, actions, s, At(RemoveStorageCluster, l)) && s.storageCluster.Some? && s.storageSystems == []
    requires Carries(s) && Uninstalling(c, s) && SameManagedOCS(s, l.managedOCS)
    requires 0 < s.managedOCS.value.uid < s.clock
    ensures actions <= longer && Calm(c, w, longer, t, Idle(Completed)) && t.storageCluster.None?
  {
    longer, t := CalmMark(c, w, actions, s, l);
    longer := CalmSystems(c, w, longer, t, l);
    longer, t := CalmSave(c, w, longer, t, l);
    longer := CalmRelease(c, w, longer, t, Idle(Completed));
    t := t.(storageCluster := None);
  }

  /** For every configuration there is a run into an uninstallation, and a round of it that has to wait for the
      ocs-operator and is served. */
  lemma SomeRoundWaits(c: Config) returns (actions: seq<Action>, round: seq<Action>)
    ensures Initial(BEGINNING)
    ensures var w := Run(c, BEGINNING, actions);
            && Resting(c, w) && IsRound(c, w, round) && Served(c, w, round)
            && EverWaits(c, Step(c, w, Trigger), round)
  {
    actions := WaitingServerIsReached(c);
    RunKeepsInv(c, BEGINNING, actions);
    var w := Run(c, BEGINNING, actions);
    var start := Step(c, w, Trigger);
    StepKeepsInv(c, w, Trigger);
    var l, t;
    var s := WaitingServer(c);
    assert s.managedOCS.value.finalizers[0] == FINALIZER;
    round, l := CalmStatus(c, start, s);
    round, t := CalmRemoval(c, start, round, s, l);
    SmoothIsUndisturbed(c, start, round);
    assert round[..0] == [];
    assert ServerAt(c, start, round, 0) == WaitingServer(c);
  }
}
