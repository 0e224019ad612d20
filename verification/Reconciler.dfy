/** The reconciler in the form of its source: an object whose fields every reconcile resets and updates,
    talking to an API server that others use too. Every call it makes is proved to be the next request
    of the protocol machine, and every answer to lead where the machine goes, so that all that holds of
    the machine's runs holds of this code. */
module Reconcilers {
  import opened Prelude
  import opened StorageClusters
  import opened Phases
  import opened Server
  import opened Controller
  import Safety
  import Slices

  class ApiServer {
    const config: Config
    var server: Server
    ghost const start: World
    ghost var actions: seq<Action>   // everything that has happened
    ghost var world: World           // what the protocol machine makes of it

    ghost predicate Valid()
      reads this
    {
      Initial(start) && world == Run(config, start, actions) && world.server == server
    }

    constructor (config: Config, server: Server)
      requires server.clock > 0 && server.managedOCS.None? && server.storageCluster.None?
      ensures Valid() && world.control.Starting? && this.config == config && this.server == server
    {
      this.config := config;
      this.server := server;
      start := World(server, Starting, []);
      actions := [];
      world := World(server, Starting, []);
    }

    /** Others act, in any way they may. */
    method BeInterfered()
      requires Valid()
      modifies this
      ensures Valid() && old(actions) <= actions && world.control == old(world.control)
    {
      var t: Server := *;
      if Interference(server, t) {
        RunExtends(config, start, actions, Interfere(t));
        world := Step(config, world, Interfere(t));
        actions := actions + [Interfere(t)];
        server := t;
      }
    }

    /** The manager starts a reconcile. */
    ghost method Begin()
      requires Valid() && world.control.Idle?
      modifies `actions, `world
      ensures Valid() && old(actions) <= actions && world.control == At(LoadManagedOCS, NO_LOCALS)
    {
      RunExtends(config, start, actions, Trigger);
      world := Step(config, world, Trigger);
      actions := actions + [Trigger];
    }

    /** A call: others may act before it, the server may refuse it, the answer may get lost. */
    method Send(q: Request) returns (r: Response)
      requires Valid() && !world.control.Idle? && q == NextRequest(config, world.control)
      modifies this
      ensures Valid() && old(actions) < actions
      ensures world.control == Advance(config, old(world.control), r)
      ensures r.FoundManagedOCS? ==> r.managedOCS.uid != 0
      ensures r.Failed? || exists s :: Serve(s, q) == (server, r)
    {
      BeInterfered();
      assert Serve(server, q).1.FoundManagedOCS? ==> Serve(server, q).1.managedOCS.uid != 0 by {
        Safety.RunKeepsInv(config, start, actions);
        Safety.FoundManagedOCSHasUid(server, q);
      }
      var delivered: bool, carriedOut: bool := *, *;
      var (t, answer) := Serve(server, q);
      ghost var delivery := if delivered then Deliver else if carriedOut then LoseReply else Refuse;
      RunExtends(config, start, actions, Call(delivery));
      world := Step(config, world, Call(delivery));
      actions := actions + [Call(delivery)];
      if delivered || carriedOut {
        server := t;
      }
      r := if delivered then answer else Failed;
    }
  }

  /** ensureManagedOCS of main.go, at the start of the process. */
  method EnsureManagedOCS(api: ApiServer) returns (ok: bool)
    requires api.Valid() && api.world.control.Starting?
    modifies api
    ensures api.Valid() && old(api.actions) <= api.actions
    ensures ok ==> api.world.control == Idle(Completed)
    ensures !ok ==> api.world.control.Starting?
  {
    var r := api.Send(CreateManagedOCS);
    if r.Done? {
      return true;
    } else if r.AlreadyExists? {
      return true;
    } else {
      return false;
    }
  }

  method FindCSVByPrefix(names: seq<string>, prefix: string) returns (found: Option<string>)
    ensures found == FirstWithPrefix(names, prefix)
    ensures found.None? ==> forall i :: 0 <= i < |names| ==> !HasPrefix(names[i], prefix)
    ensures found.Some? ==>
      exists i :: 0 <= i < |names| && found.value == names[i] && HasPrefix(names[i], prefix)
                  && forall j :: 0 <= j < i ==> !HasPrefix(names[j], prefix)
  {
    for i := 0 to |names|
      invariant FirstWithPrefix(names, prefix) == FirstWithPrefix(names[i..], prefix)
      invariant forall j :: 0 <= j < i ==> !HasPrefix(names[j], prefix)
    {
      assert names[i..][1..] == names[i + 1..];
      if HasPrefix(names[i], prefix) {
        return Some(names[i]);
      }
    }
    return None;
  }

  class Reconciler {
    const api: ApiServer
    var managedOCS: ManagedOCS
    var storageCluster: StorageCluster
    var reconcileStrategy: Strategy
    var addonParams: Params

    ghost function Memory(uninstall: bool, ocsClasses: set<string>): Locals
      reads this
    {
      Locals(managedOCS, storageCluster, uninstall, reconcileStrategy, addonParams, ocsClasses)
    }

    /** The machine is where this code is, and remembers what it remembers. */
    ghost predicate Follows(control: Control)
      reads this, api
    {
      api.Valid() && api.world.control == control
    }

    /** The reconcile is over but for saving the status. */
    ghost predicate Finished(outcome: Outcome)
      reads this, api
    {
      && api.Valid()
      && (managedOCS.uid == 0 ==> api.world.control == Idle(outcome))
      && (managedOCS.uid != 0 ==>
            && api.world.control.At?
            && api.world.control.point == SaveStatus(outcome)
            && api.world.control.locals.managedOCS == managedOCS)
    }

    constructor (api: ApiServer)
      ensures this.api == api
    {
      this.api := api;
      managedOCS := NO_MANAGED_OCS;
      storageCluster := NO_STORAGE_CLUSTER;
      reconcileStrategy := Strict;
      addonParams := map[];
    }

    /** Runs one reconcile, from Idle to Idle, as a continuation of the run so far. Wherever it ends, a
        StorageCluster is still guarded by the finalizer of its owner. */
    method Reconcile() returns (outcome: Outcome)
      requires api.Valid() && api.world.control.Idle?
      modifies this, api
      ensures old(api.actions) <= api.actions
      ensures Follows(Idle(outcome))
      ensures Safety.ServerInv(api.server)
    {
      InitReconciler();
      api.Begin();
      outcome := LoadAndRun();
      Safety.RunKeepsInv(api.config, api.start, api.actions);
    }

    method LoadAndRun() returns (outcome: Outcome)
      requires Follows(At(LoadManagedOCS, Memory(false, {}))) && Memory(false, {}) == NO_LOCALS
      modifies this, api
      ensures old(api.actions) <= api.actions
      ensures Follows(Idle(outcome))
    {
      var loaded := api.Send(GetManagedOCS);
      if loaded.FoundManagedOCS? {
        managedOCS := loaded.managedOCS;
      } else if !loaded.Missing? {
        return Error;
      }
      outcome := ReconcilePhases();
      outcome := SaveTheStatus(outcome);
    }

    /** An error of the phases has priority over one of the status update. */
    method SaveTheStatus(outcome: Outcome) returns (result: Outcome)
      requires Finished(outcome)
      modifies api
      ensures old(api.actions) <= api.actions
      ensures Follows(Idle(result)) && (outcome.Error? ==> result.Error?)
    {
      result := outcome;
      if managedOCS.uid != 0 {
        var saved := api.Send(UpdateManagedOCSStatus(managedOCS));
        if !outcome.Error? && !saved.FoundManagedOCS? {
          result := Error;
        }
      }
    }

    /** Every field is reset. (The source leaves reconcileStrategy, which is set before it is read.) */
    method InitReconciler()
      modifies this
      ensures Memory(false, {}) == NO_LOCALS
    {
      addonParams := map[];
      managedOCS := NO_MANAGED_OCS;
      storageCluster := NO_STORAGE_CLUSTER;
      reconcileStrategy := Strict;
    }

    method ReconcilePhases() returns (outcome: Outcome)
      requires Follows(At(CheckDeleteLabel, Memory(false, {})))
      modifies this, api
      ensures old(api.actions) <= api.actions
      ensures Finished(outcome)
    {
      var initiateUninstall := CheckUninstallCondition();
      UpdateComponentStatus(initiateUninstall);
      if managedOCS.deleting {
        Safety.RunKeepsInv(api.config, api.start, api.actions);
        var absent := VerifyComponentsDoNotExist(initiateUninstall);
        if absent {
          outcome := RemoveTheFinalizer(initiateUninstall);
        } else {
          outcome := RemoveTheStorageCluster(initiateUninstall);
        }
      } else if managedOCS.uid != 0 {
        outcome := Install(initiateUninstall);
      } else if initiateUninstall {
        outcome := RemoveOLMComponents();
      } else {
        outcome := Completed;
      }
    }

    method CheckUninstallCondition() returns (initiate: bool)
      requires Follows(At(CheckDeleteLabel, Memory(false, {})))
      modifies api
      ensures old(api.actions) <= api.actions
      ensures Follows(At(StatusOfStorageCluster, Memory(initiate, {})))
    {
      var configMap := api.Send(GetAddonConfigMap);
      if !configMap.FoundLabels? {
        return false;
      }
      return api.config.deleteLabelKey in configMap.keys;
    }

    method UpdateComponentStatus(ghost uninstall: bool)
      requires Follows(At(StatusOfStorageCluster, Memory(uninstall, {})))
      modifies this, api
      ensures old(api.actions) <= api.actions
      ensures Follows(Branch(Memory(uninstall, {})))
    {
      var r := api.Send(GetStorageCluster);
      if r.FoundStorageCluster? {
        storageCluster := r.storageCluster;
        managedOCS := managedOCS.(status := managedOCS.status.(storageCluster :=
          if storageCluster.phase == "Ready" then Ready else Pending));
      } else if r.Missing? {
        managedOCS := managedOCS.(status := managedOCS.status.(storageCluster := NotFound));
      } else {
        managedOCS := managedOCS.(status := managedOCS.status.(storageCluster := Unknown));
      }

      UpdatePrometheusStatus(uninstall);
      UpdateAlertmanagerStatus(uninstall);
    }

    method UpdatePrometheusStatus(ghost uninstall: bool)
      requires Follows(At(StatusOfPrometheus, Memory(uninstall, {})))
      modifies this, api
      ensures old(api.actions) <= api.actions
      ensures Follows(At(StatusOfAlertmanager, Memory(uninstall, {})))
    {
      var r := api.Send(GetPrometheus);
      if r.FoundReplicas? {
        var desiredReplicas := 1;
        if r.replicas.Some? {
          desiredReplicas := r.replicas.value;
        }
        r := api.Send(GetPrometheusSet);
        if r.FoundReady? && r.ready == desiredReplicas {
          managedOCS := managedOCS.(status := managedOCS.status.(prometheus := Ready));
        } else {
          managedOCS := managedOCS.(status := managedOCS.status.(prometheus := Pending));
        }
      } else if r.Missing? {
        managedOCS := managedOCS.(status := managedOCS.status.(prometheus := NotFound));
      } else {
        managedOCS := managedOCS.(status := managedOCS.status.(prometheus := Unknown));
      }
    }

    method UpdateAlertmanagerStatus(ghost uninstall: bool)
      requires Follows(At(StatusOfAlertmanager, Memory(uninstall, {})))
      modifies this, api
      ensures old(api.actions) <= api.actions
      ensures Follows(Branch(Memory(uninstall, {})))
    {
      var r := api.Send(GetAlertmanager);
      if r.FoundReplicas? {
        var desiredReplicas := 1;
        if r.replicas.Some? {
          desiredReplicas := r.replicas.value;
        }
        r := api.Send(GetAlertmanagerSet);
        if r.FoundReady? && r.ready == desiredReplicas {
          managedOCS := managedOCS.(status := managedOCS.status.(alertmanager := Ready));
        } else {
          managedOCS := managedOCS.(status := managedOCS.status.(alertmanager := Pending));
        }
      } else if r.Missing? {
        managedOCS := managedOCS.(status := managedOCS.status.(alertmanager := NotFound));
      } else {
        managedOCS := managedOCS.(status := managedOCS.status.(alertmanager := Unknown));
      }
    }

    /** The status in memory may be old, but once the ManagedOCS is being deleted nobody makes a StorageCluster. */
    method VerifyComponentsDoNotExist(ghost uninstall: bool) returns (absent: bool)
      requires Follows(Branch(Memory(uninstall, {}))) && managedOCS.deleting
      ensures absent ==> api.server.storageCluster.None?
      ensures Follows(At(if absent then ListOperators else RemoveStorageCluster, Memory(uninstall, {})))
    {
      Safety.RunKeepsInv(api.config, api.start, api.actions);
      return managedOCS.status.storageCluster == NotFound;
    }

    /** Lists the CSVs and deletes the first with the prefix: of the OCS operator, or of the deployer. */
    method DeleteCSVByPrefix(prefix: string, ghost operator: bool, ghost l: Locals) returns (ok: bool)
      requires prefix == if operator then OCS_OPERATOR else DEPLOYER
      requires Follows(At(if operator then ListOperators else ListDeployers, l))
      modifies api
      ensures old(api.actions) <= api.actions
      ensures ok ==> Follows(if operator then RemovingFinalizer(l) else Finish(l, Completed))
      ensures !ok ==> Follows(Finish(l, Error))
    {
      var csvs := api.Send(ListCSVs);
      if !csvs.FoundNames? {
        return false;
      }
      var csv := FindCSVByPrefix(csvs.names, prefix);
      if csv.None? {
        return true;
      }
      ok := DeleteCSVNamed(csv.value, operator, l);
    }

    method DeleteCSVNamed(name: string, ghost operator: bool, ghost l: Locals) returns (ok: bool)
      requires Follows(At(if operator then RemoveOperator(name) else RemoveDeployer(name), l))
      modifies api
      ensures old(api.actions) <= api.actions
      ensures ok ==> Follows(if operator then RemovingFinalizer(l) else Finish(l, Completed))
      ensures !ok ==> Follows(Finish(l, Error))
    {
      var r := api.Send(DeleteCSV(name));
      return r.Done? || r.Missing?;
    }

    method RemoveTheFinalizer(ghost uninstall: bool) returns (outcome: Outcome)
      requires Follows(At(ListOperators, Memory(uninstall, {}))) && managedOCS.uid != 0
      modifies this, api
      ensures old(api.actions) <= api.actions
      ensures Finished(outcome)
    {
      var ok := DeleteCSVByPrefix(OCS_OPERATOR, true, Memory(uninstall, {}));
      if !ok {
        return Error;
      }
      var finalizers := Slices.Remove(managedOCS.finalizers, FINALIZER);
      managedOCS := managedOCS.(finalizers := finalizers);
      ok := UpdateManagedOCSObject(RemoveFinalizer, uninstall);
      return if ok then Completed else Error;
    }

    /** r.Client.Update: the answer replaces the object in memory. */
    method UpdateManagedOCSObject(ghost point: Point, ghost uninstall: bool) returns (ok: bool)
      requires point.AddFinalizer? || point.RemoveFinalizer?
      requires Follows(At(point, Memory(uninstall, {}))) && managedOCS.uid != 0
      modifies `managedOCS, api
      ensures old(api.actions) <= api.actions
      ensures managedOCS.uid != 0
      ensures ok ==> Follows(if point.AddFinalizer? then At(LoadParams, Memory(uninstall, {}))
                             else Finish(Memory(uninstall, {}), Completed))
      ensures !ok ==> Follows(Finish(Memory(uninstall, {}), Error))
    {
      var r := api.Send(UpdateManagedOCS(managedOCS));
      if !r.FoundManagedOCS? {
        return false;
      }
      managedOCS := if r.managedOCS.status == NO_STATUS
        then r.managedOCS.(status := managedOCS.status) else r.managedOCS;
      return true;
    }

    method RemoveTheStorageCluster(ghost uninstall: bool) returns (outcome: Outcome)
      requires Follows(At(RemoveStorageCluster, Memory(uninstall, {}))) && managedOCS.uid != 0
      modifies api
      ensures old(api.actions) <= api.actions
      ensures Finished(outcome)
    {
      var r := api.Send(DeleteStorageCluster);
      if !(r.Done? || r.Missing?) {
        return Error;
      }
      r := api.Send(ListStorageSystems);
      if !r.FoundNames? {
        return Error;
      }
      outcome := DeleteStorageSystems(r.names, uninstall);
    }

    method DeleteStorageSystems(systems: seq<string>, ghost uninstall: bool) returns (outcome: Outcome)
      requires Follows(RemovingSystems(Memory(uninstall, {}), systems)) && managedOCS.uid != 0
      modifies api
      ensures old(api.actions) <= api.actions
      ensures Finished(outcome)
    {
      for i := 0 to |systems|
        invariant old(api.actions) <= api.actions
        invariant Follows(RemovingSystems(Memory(uninstall, {}), systems[i..]))
      {
        assert systems[i..][1..] == systems[i + 1..];
        var r := api.Send(DeleteStorageSystem(systems[i]));
        if !(r.Done? || r.Missing?) {
          return Error;
        }
      }
      return Completed;
    }

    method RemoveOLMComponents() returns (outcome: Outcome)
      requires Follows(At(ListDeployers, Memory(true, {}))) && managedOCS.uid == 0
      modifies api
      ensures old(api.actions) <= api.actions
      ensures Finished(outcome)
    {
      var ok := DeleteCSVByPrefix(DEPLOYER, false, Memory(true, {}));
      return if ok then Completed else Error;
    }

    /** The live branch of reconcilePhases. */
    method Install(initiateUninstall: bool) returns (outcome: Outcome)
      requires Follows(Branch(Memory(initiateUninstall, {}))) && managedOCS.uid != 0 && !managedOCS.deleting
      modifies this, api
      ensures old(api.actions) <= api.actions
      ensures Finished(outcome)
    {
      var held := Slices.Contains(managedOCS.finalizers, FINALIZER);
      if !held {
        managedOCS := managedOCS.(finalizers := managedOCS.finalizers + [FINALIZER]);
        var ok := UpdateManagedOCSObject(AddFinalizer, initiateUninstall);
        if !ok {
          return Error;
        }
      }
      outcome := InstallHeld(initiateUninstall);
    }

    method InstallHeld(initiateUninstall: bool) returns (outcome: Outcome)
      requires Follows(At(LoadParams, Memory(initiateUninstall, {}))) && managedOCS.uid != 0
      modifies this, api
      ensures old(api.actions) <= api.actions
      ensures Finished(outcome)
    {
      var secret := api.Send(GetAddonParams);
      if !secret.FoundParams? {
        return Error;
      }
      reconcileStrategy := Strict;
      if EqualFold(managedOCS.strategy, "none") {
        reconcileStrategy := Untouched;
      }
      addonParams := secret.params;
      if api.config.deployment.Consumer? {
        addonParams := addonParams[SIZE_KEY := "1024"];
        addonParams := addonParams[UNIT_KEY := "Ti"];
      }
      outcome := InstallResources(initiateUninstall);
    }

    /** The phases, and the decision to uninstall after them. */
    method InstallResources(initiateUninstall: bool) returns (outcome: Outcome)
      requires Follows(EnterPhase(api.config, Memory(initiateUninstall, {}), 0)) && managedOCS.uid != 0
      modifies this, api
      ensures old(api.actions) <= api.actions
      ensures Finished(outcome)
    {
      var ok := ReconcileResources(initiateUninstall);
      if !ok {
        return Error;
      }
      managedOCS := managedOCS.(status := managedOCS.status.(strategy := Some(reconcileStrategy)));
      var ready := AreComponentsReadyForUninstall();
      if initiateUninstall && ready {
        outcome := Uninstall();
      } else {
        outcome := Completed;
      }
    }

    /** The resource phases one after the other; the first failure ends the reconcile. */
    method ReconcileResources(ghost uninstall: bool) returns (ok: bool)
      requires Follows(EnterPhase(api.config, Memory(uninstall, {}), 0)) && managedOCS.uid != 0
      modifies `storageCluster, api
      ensures old(api.actions) <= api.actions
      ensures ok ==> Follows(AfterPhases(api.config, Memory(uninstall, {})))
      ensures !ok ==> Follows(Finish(Memory(uninstall, {}), Error))
    {
      for k := 0 to PHASE_COUNT
        invariant old(api.actions) <= api.actions
        invariant Follows(EnterPhase(api.config, Memory(uninstall, {}), k))
      {
        if k == STORAGE_CLUSTER_PHASE {
          ok := ReconcileStorageCluster(uninstall);
        } else {
          var r := api.Send(ReconcilePhase(k));
          ok := r.Done?;
        }
        if !ok {
          return;
        }
      }
      ok := true;
    }

    /** The spec a strict reconcile wants, by deployment type. */
    method GetDesiredStorageCluster() returns (desired: Result<StorageClusterSpec, SpecError>)
      ensures desired == DesiredSpec(api.config.deployment, addonParams, storageCluster.spec)
    {
      match api.config.deployment {
        case Converged => desired := GetDesiredSizedStorageCluster(Converged, addonParams, storageCluster.spec);
        case Consumer => desired := GetDesiredConsumerStorageCluster(addonParams, storageCluster.spec);
        case Provider => desired := GetDesiredSizedStorageCluster(Provider, addonParams, storageCluster.spec);
        case Other(_) => desired := Err(InvalidDeploymentType);
      }
    }

    /** ctrl.CreateOrUpdate with the mutation of the spec. */
    method ReconcileStorageCluster(ghost uninstall: bool) returns (ok: bool)
      requires Follows(At(LoadStorageCluster, Memory(uninstall, {}))) && managedOCS.uid != 0
      modifies `storageCluster, api
      ensures old(api.actions) <= api.actions
      ensures ok ==> Follows(EnterPhase(api.config, Memory(uninstall, {}), STORAGE_CLUSTER_PHASE + 1))
      ensures !ok ==> Follows(Finish(Memory(uninstall, {}), Error))
    {
      var r := api.Send(GetStorageCluster);
      if r.FoundStorageCluster? {
        storageCluster := r.storageCluster;
      } else if !r.Missing? {
        return false;
      }
      var existed := r.FoundStorageCluster?;
      var spec := storageCluster.spec;
      if reconcileStrategy.Strict? {
        var desired := GetDesiredStorageCluster();
        if desired.Err? {
          return false;
        }
        spec := desired.value;
      }
      ok := WriteBack(uninstall, existed, spec);
    }

    /** Create, update, or nothing if the object is as wanted. */
    method WriteBack(ghost uninstall: bool, existed: bool, spec: StorageClusterSpec) returns (ok: bool)
      requires Mutated(api.config.deployment, reconcileStrategy, addonParams, storageCluster.spec) == Ok(spec)
      requires Follows(StorageClusterRead(api.config, Memory(uninstall, {}), existed)) && managedOCS.uid != 0
      modifies `storageCluster, api
      ensures old(api.actions) <= api.actions
      ensures ok ==> Follows(EnterPhase(api.config, Memory(uninstall, {}), STORAGE_CLUSTER_PHASE + 1))
      ensures !ok ==> Follows(Finish(Memory(uninstall, {}), Error))
    {
      var existing := storageCluster;
      storageCluster := storageCluster.(owner := managedOCS.uid, spec := spec);
      var r: Response;
      if !existed {
        r := api.Send(CreateStorageCluster(storageCluster));
      } else if existing == storageCluster {
        return true;
      } else {
        r := api.Send(UpdateStorageCluster(storageCluster));
      }
      if !r.FoundStorageCluster? {
        return false;
      }
      storageCluster := r.storageCluster;
      return true;
    }

    method AreComponentsReadyForUninstall() returns (ready: bool)
      ensures ready <==> ReadyForUninstall(managedOCS)
    {
      return managedOCS.status.storageCluster == Ready
        && managedOCS.status.prometheus == Ready
        && managedOCS.status.alertmanager == Ready;
    }

    /** What is left once the reconcile decided to uninstall if nothing uses the storage. */
    ghost predicate Deciding()
      reads this, api
    {
      Follows(match api.config.deployment
              case Converged => At(ListClasses, Memory(true, {}))
              case Consumer => At(ListClasses, Memory(true, {}))
              case Provider => At(ListStorageConsumers, Memory(true, {}))
              case Other(_) => At(RemoveManagedOCS, Memory(true, {})))
    }

    method Uninstall() returns (outcome: Outcome)
      requires Deciding() && managedOCS.uid != 0
      modifies this, api
      ensures old(api.actions) <= api.actions
      ensures Finished(outcome)
    {
      ghost var ocsClasses: set<string> := {};
      var found, ok := false, true;
      match api.config.deployment {
        case Converged => found, ok, ocsClasses := HasOCSVolumes();
        case Consumer => found, ok, ocsClasses := HasOCSVolumes();
        case Provider => found, ok := HasOCSStorageConsumers();
        case Other(_) =>
      }
      if !ok {
        return Error;
      }
      if found {
        return Requeue;
      }
      outcome := DeleteAndReload(ocsClasses);
    }

    method DeleteAndReload(ghost ocsClasses: set<string>) returns (outcome: Outcome)
      requires Follows(At(RemoveManagedOCS, Memory(true, ocsClasses))) && managedOCS.uid != 0
      modifies this, api
      ensures old(api.actions) <= api.actions
      ensures Finished(outcome)
    {
      var r := api.Send(DeleteManagedOCS);
      if !(r.Done? || r.Missing?) {
        return Error;
      }
      r := api.Send(GetManagedOCS);
      if r.FoundManagedOCS? {
        managedOCS := r.managedOCS;
      } else if !r.Missing? {
        return Error;
      }
      return Completed;
    }

    /** Some persistent volume uses a storage class of an OCS provisioner. */
    method HasOCSVolumes() returns (found: bool, ok: bool, ghost ocsClasses: set<string>)
      requires Follows(At(ListClasses, Memory(true, {}))) && managedOCS.uid != 0
      modifies api
      ensures old(api.actions) <= api.actions
      ensures !ok ==> Finished(Error)
      ensures ok && found ==> Finished(Requeue)
      ensures ok && !found ==> Follows(At(RemoveManagedOCS, Memory(true, ocsClasses)))
    {
      var r := api.Send(ListStorageClasses);
      if !r.FoundClasses? {
        return false, false, {};
      }
      var classes := CollectOCSClasses(api.config.namespace, r.classes);
      ocsClasses := classes;
      r := api.Send(ListVolumes);
      if !r.FoundNames? {
        return false, false, ocsClasses;
      }
      var used := AnyIn(r.names, classes);
      return used, true, ocsClasses;
    }

    method HasOCSStorageConsumers() returns (found: bool, ok: bool)
      requires Follows(At(ListStorageConsumers, Memory(true, {}))) && managedOCS.uid != 0
      modifies api
      ensures old(api.actions) <= api.actions
      ensures !ok ==> Finished(Error)
      ensures ok && found ==> Finished(Requeue)
      ensures ok && !found ==> Follows(At(RemoveManagedOCS, Memory(true, {})))
    {
      var r := api.Send(ListConsumers);
      if !r.FoundNames? {
        return false, false;
      }
      return |r.names| > 0, true;
    }
  }

  /** The names of the classes whose provisioner starts with the namespace. */
  method CollectOCSClasses(namespace: string, classes: seq<StorageClass>) returns (ocsClasses: set<string>)
    ensures ocsClasses == OCSClasses(namespace, classes)
  {
    ocsClasses := {};
    for i := 0 to |classes|
      invariant ocsClasses == OCSClasses(namespace, classes[..i])
    {
      assert classes[..i + 1] == classes[..i] + [classes[i]];
      if HasPrefix(classes[i].provisioner, namespace) {
        ocsClasses := ocsClasses + {classes[i].name};
      }
    }
    assert classes[..|classes|] == classes;
  }

  method AnyIn(names: seq<string>, wanted: set<string>) returns (found: bool)
    ensures found <==> exists n :: n in names && n in wanted
  {
    for i := 0 to |names|
      invariant forall n :: n in names[..i] ==> n !in wanted
    {
      if names[i] in wanted {
        return true;
      }
    }
    return false;
  }

  /** The set the loop builds does its job: a volume is found in use exactly if some volume and some
      class share a name and the class's provisioner starts with the namespace. */
  lemma VolumesInUseIff(namespace: string, classes: seq<StorageClass>, volumes: seq<string>)
    ensures (exists v :: v in volumes && v in OCSClasses(namespace, classes)) <==>
            (exists i, j :: 0 <= i < |volumes| && 0 <= j < |classes|
                            && volumes[i] == classes[j].name && HasPrefix(classes[j].provisioner, namespace))
  {
    if exists v :: v in volumes && v in OCSClasses(namespace, classes) {
      var v :| v in volumes && v in OCSClasses(namespace, classes);
      var i :| 0 <= i < |volumes| && volumes[i] == v;
      var k :| k in classes && HasPrefix(k.provisioner, namespace) && k.name == v;
      var j :| 0 <= j < |classes| && classes[j] == k;
      assert volumes[i] == classes[j].name && HasPrefix(classes[j].provisioner, namespace);
    }
    if exists i, j :: 0 <= i < |volumes| && 0 <= j < |classes|
                      && volumes[i] == classes[j].name && HasPrefix(classes[j].provisioner, namespace) {
      var i, j :| 0 <= i < |volumes| && 0 <= j < |classes|
                  && volumes[i] == classes[j].name && HasPrefix(classes[j].provisioner, namespace);
      assert volumes[i] in volumes && classes[j] in classes && volumes[i] in OCSClasses(namespace, classes);
    }
  }
}
