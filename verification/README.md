# The ocs-osd-deployer, modelled and proved in Dafny

The deployer is a Kubernetes operator. It installs OpenShift Data Foundation for one `ManagedOCS` resource, keeps
some twenty objects in the shape it wants, and takes everything down again when the add-on is removed. This project
models what it does and proves what its users rely on.

`dafny verify dfyconfig.toml` checks the project.

## What is modelled

**The protocol.** `Server.dfy` is the API server: the objects of the namespace, the requests the controller sends, how
the server carries them out, and what others may do in between (`Interference`). An update must carry the uid and the
resource version of the stored object and is refused otherwise, a delete of an object with finalizers only marks it,
and a marked object disappears with its last finalizer. `Controller.dfy` is one reconcile as a machine that sends a
request, hears an answer and goes on. A run is any sequence of four actions: the manager triggers a reconcile; the
pending call is delivered, or refused, or carried out with its answer lost; others act; the process dies and starts
again with `ensureManagedOCS`. `Reconciler.dfy` is the same reconciler in the form of its source, a class whose fields
each reconcile resets and updates. Each of its methods is proved to send exactly the machine's next request and to end
where the machine ends, so what holds of all runs holds of it. `Safety.dfy` proves the invariant of all reachable
states, `History.dfy` what a reconcile must have seen before an irrevocable step, and `Progress.dfy` that every
reconcile ends and what can set an uninstallation back. `Episodes.dfy`, `Updates.dfy`, `PhaseOrder.dfy`,
`ComponentStatus.dfy` and `Outcomes.dfy` look at the calls of one reconcile as a whole, in every run: what it deletes
and writes, in which order it calls the phases, what its status says and what it reports. `Uninstallation.dfy` proves
that uninstalling gets somewhere and ends, `Installation.dfy` that installing succeeds, and `Removal.dfy` that the
delete label leads to an uninstallation, all with others at work between the calls. `Guard.dfy` says exactly when the
check for volumes and consumers in use is made before. `Witnesses.dfy` has concrete runs from the very beginning.

**The pipeline.** `Convergence.dfy` proves, for any list of idempotent steps, how many passes it takes to come to rest
when some steps give others work. `Pipeline.dfy` has the 22 resource phases as steps on a cluster, and
`Stabilisation.dfy` applies the general result to their order. `PassResult.dfy` says what a successful pass makes of a
cluster: the wanted state, and nothing else. `OperatorConfig.dfy` and `Monitoring.dfy` have the loops that edit other
operators' objects in place.

**Sizes.** `Float64.dfy` models the conversion of a 64-bit integer to a float64 with roundTiesToEven (section 4.3.1 of
IEEE 754-2008), and `StorageClusters.dfy` the spec that is built from the add-on parameters.

**Texts and lists.** `Egress.dfy`, with `CidrBlocks.dfy` (section 3.1 of RFC 4632) and `CidrPipeline.dfy`, has the two
egress rule lists and what they let through. `Regex.dfy` has a parser and the meaning of the regular expressions that
`Alerting.dfy` prints and `Routing.dfy` routes by. `Notification.dfy`, `DataGather.dfy` and `PodNames.dfy` have the
smaller algorithms.

## What is assumed

- One reconcile runs at a time, which is how the controller is set up (`controllers/managedocs_controller.go:193`), and
  reads are fresh.
- Only this controller touches its own finalizer, creates the StorageCluster and writes the status of the ManagedOCS.
  Others may create, edit and delete the ManagedOCS, give it finalizers of their own, edit, finalise and remove the
  StorageCluster, and change every other object in any way.
- Calls may fail at any time, with NotFound only if the object is not there.
- `SetControllerReference` fails only for an object that somebody else controls. The pipeline models that. In the
  protocol it cannot happen to the StorageCluster: in the states the invariant allows, it is controlled by the
  ManagedOCS in hand.
- Prometheus and Alertmanager match a regular expression against the whole string.

## What turned out differently than expected

- One reconcile does not settle the cluster when the dead man's snitch rule did not exist: the rules are labelled
  before it is created, and its own phase adds no label. `OnePassSettlesIff` is the exact condition,
  `OnePassIsNotEnough` a fresh namespace where it fails, `TwoPassesSettle` what is true always.
- The rank of an uninstallation can rise, in two ways only (`CallRaisesRankIff`): a pod restart after the ManagedOCS
  has gone makes a new one, and a reconcile that had loaded the ManagedOCS before its deletion still creates the
  StorageCluster. `RestartRaisesRank` and `InFlightInstallRaisesRank` are runs from the beginning where it happens, for
  every configuration.
- The check for volumes and consumers in use can be missed: with the strategy "none" and a deployment type that is none
  of the three, no branch looks. `AlwaysCheckedIff` says that this is the only way, and `GuardLetsThrough` has a run in
  which the ManagedOCS is about to be deleted while a volume is in use.
- A noobaa-operator deployment with a negative replica count keeps it (`NegativeReplicasStay`).
- Above 2^53 the provider may provision less than was asked for. `CapacityIsEnoughIff` says for which sizes.
- With an empty list the printed regular expressions still match something: an empty alert list matches the empty
  name. The meaning lemmas cover that case.
- The comment on `subPredicate` (`controllers/managedocs_controller.go:273-283`) says the opposite of its code; it is
  left out.
- The log message at `controllers/managedocs_controller.go:2101` suggests that the gateway cannot be disabled again. A
  strict reconcile starts from the template, so it turns to "manage" exactly when the parameter is true.

## Model

| member | source | states |
|---|---|---|
| Safety.StorageClusterIsAlwaysGuarded | controllers/managedocs_controller.go:492-545 | In every state of every run, with failing calls, lost answers, deletions by users and restarts at any moment: whenever there is a StorageCluster, the ManagedOCS that owns it exists and carries the finalizer. |
| Safety.NothingIsRemovedUnderAStorageCluster | controllers/managedocs_controller.go:499-513 | Whenever the finalizer or an operator CSV is about to be removed, there is no StorageCluster on the server at that moment. |
| Safety.NoDownscaleInAnyRun | controllers/managedocs_controller.go:761-802 | No step of the controller, at any moment of any run, shrinks the default device set of an existing StorageCluster or replaces the object by another. |
| Safety.RunKeepsInv | controllers/managedocs_controller.go:359-395 | The inductive invariant holds after every run from the initial states: server objects, what the controller remembers, and what it knows at each point of the code. |
| Safety.InterferenceKeepsControlInv | controllers/managedocs_controller.go:492-684 | Whatever others do between two calls, what the controller relies on at that point stays true. |
| Safety.CallKeepsControlInv | controllers/managedocs_controller.go:492-684 | Every call, delivered, refused or with its answer lost, leads to a point whose assumptions hold. |
| History.UninstallOnlyWhenSafe | controllers/managedocs_controller.go:643-668 | A delete of the ManagedOCS is sent only in a reconcile that saw the delete label, saw all three components ready, had every phase succeed and, for the three known deployment types, saw no volume or consumer using the storage. A failed call shows nothing. |
| Guard.CheckedIff | controllers/managedocs_controller.go:643-668 | In every run, a reconcile that is about to delete the ManagedOCS has seen that nothing uses the storage exactly if the deployment type is one of the three; if it has not, its strategy is "none". |
| Guard.AlwaysCheckedIff | controllers/managedocs_controller.go:645-663 | The check is made in every run exactly if the deployment type is one of the three. |
| Guard.GuardLetsThrough | controllers/managedocs_controller.go:643-668 | For every configuration, a run up to the deletion of the ManagedOCS: with the three types the guard has let it through, and with any other one a volume still uses the storage. |
| Removal.RemovalBegins | controllers/managedocs_controller.go:643-668 | With the delete label on, the components ready, readable parameters and nothing in use, a reconcile in which no call fails ends with the ManagedOCS marked or gone, whatever others do between its calls that leaves this so or deletes the ManagedOCS too. |
| Removal.RemovalEnds | controllers/managedocs_controller.go:499-535 | From there, after as many served rounds as there are things left, everything is gone: the whole way from the label to the end. |
| Removal.ReadyIsReached | controllers/managedocs_controller.go:643-668 | For every configuration, a run to a state in which the removal can begin. |
| History.FinalizerIsRemovedLast | controllers/managedocs_controller.go:500-513 | An update without the finalizer is sent only after the same reconcile got NotFound for the StorageCluster and, later, found the OCS operator CSV gone or had it deleted. |
| History.OperatorsAreDeletedInOrder | controllers/managedocs_controller.go:2020-2083 | A deployer CSV is deleted only after the label was seen and the ManagedOCS was not found; any other deleted CSV is an OCS operator and the StorageCluster was not found. |
| Server.PrefixesAreDisjoint | controllers/managedocs_controller.go:88-89 | No CSV name has both prefixes. |
| Progress.EveryReconcileEnds | controllers/managedocs_controller.go:492-684 | Whatever a call answers, the reconcile is strictly closer to its end. |
| Progress.CleanReconcileIsARun | controllers/managedocs_controller.go:359-395 | The reconcile in which no call fails is one of the runs and ends idle. |
| Progress.CallNeverRaisesRank | controllers/managedocs_controller.go:499-535 | During an uninstallation no call of a reconcile that found the ManagedOCS deleted or gone adds to what is left, succeeding or failing. |
| Progress.RankNeverRises | controllers/managedocs_controller.go:499-535 | The same over whole runs without a restart. |
| Progress.CallRaisesRankIff | controllers/managedocs_controller.go:536-545 | A call raises the rank exactly if it creates the ManagedOCS at startup, or the StorageCluster in a reconcile that still installs, and reaches the server. |
| Witnesses.RestartRaisesRank | main.go:203-210 | For every configuration, a run in which the ManagedOCS was made, deleted and removed, and a restart brings it back. |
| Witnesses.InFlightInstallRaisesRank | controllers/managedocs_controller.go:583-585 | For every configuration, a run without failures or restarts in which a reconcile in flight creates the StorageCluster of a ManagedOCS that is being deleted. |
| Uninstallation.SmoothReconcileMakesProgress | controllers/managedocs_controller.go:499-535 | A reconcile in which no call fails lowers the rank, whatever others do between its calls as long as they let the uninstallation be, unless nothing is left or at some moment only others could go on; and whatever is left of the StorageCluster is marked for deletion. |
| Progress.CleanReconcileMakesProgress | controllers/managedocs_controller.go:499-535 | When nobody acts between its calls, such a reconcile lowers the rank exactly unless nothing is left or only others can go on. |
| Uninstallation.ServedRoundsLowerRank | controllers/managedocs_controller.go:499-535 | Over any reconciles in a row, with failing calls and with waiting, the rank falls by at least the number of those in which no call failed and others did in time what had to be waited for, until nothing is left. |
| Uninstallation.FreeIsServed | controllers/managedocs_controller.go:499-535 | A round in which no call failed and there was nothing to wait for is one of these. |
| Uninstallation.UninstallEnds | controllers/managedocs_controller.go:499-535 | Once there were as many such reconciles as things left, the StorageCluster, the ManagedOCS and all deployer CSVs are gone. |
| Witnesses.SomeRoundWaits | controllers/managedocs_controller.go:515-535 | For every configuration, a run into an uninstallation and a round of it that waits for the ocs-operator and is served. |
| Progress.GoneIsRankZero | controllers/managedocs_controller.go:679-680 | Rank 0 means exactly that nothing is left. |
| Episodes.EverySystemIsDeleted | controllers/managedocs_controller.go:520-534 | In every run, a reconcile that listed the StorageSystems and completes has, for each listed name, a later delete request that was answered with success or NotFound. |
| Episodes.TeardownIsInOrder | controllers/managedocs_controller.go:515-534 | In every run, the StorageCluster is deleted only by a reconcile that saw the ManagedOCS going, and a StorageSystem only if it was listed after that deletion had succeeded. |
| Progress.CleanReconcileTearsDown | controllers/managedocs_controller.go:515-534 | An undisturbed reconcile of a ManagedOCS that is going leaves no StorageSystem, and a StorageCluster only if it has finalizers, and then marked. |
| Episodes.TheStatusIsSaved | controllers/managedocs_controller.go:379-387 | In every run, the last call of a reconcile that found the ManagedOCS is to save its status, whatever failed before. |
| Updates.OthersFinalizersAreKept | controllers/managedocs_controller.go:508-545 | In every run, an update carries the ManagedOCS as it was loaded, with the operator's finalizer put behind the others when it is alive and did not have it, and with all finalizers but the operator's when it is being deleted. |
| Updates.ReloadedBeforeSaving | controllers/managedocs_controller.go:664-676 | In every run, once the ManagedOCS has been deleted it is read again, and what is saved next is the status of what was read. |
| ComponentStatus.SavedStatusMeaning | controllers/managedocs_controller.go:686-753 | In every run, the saved state of each component is what the calls of the same reconcile answered: Ready, Pending, NotFound or Unknown, each in its case; unless the object was read again after an update or a deletion. |
| PhaseOrder.PhasesAreCalledInOrder | controllers/managedocs_controller.go:572-639 | In every run, no phase is called before an earlier one or twice, each only after all before it have succeeded, and a reconcile that read the parameters and reports no error has called all 22. |
| Outcomes.OutcomeMeaning | controllers/managedocs_controller.go:373-394 | In every run, a reconcile reports an error exactly if a call went wrong that must not, or the strategy was strict and the parameters could not be read; otherwise it asks for another try exactly if it saw a volume or consumer using the storage. |
| Installation.SteadyReconcileInstalls | controllers/managedocs_controller.go:537-641 | A reconcile in which no call fails, of a live ManagedOCS with readable parameters and no delete label, ends with success, the finalizer on and a StorageCluster with the wanted owner and spec, whatever others do between its calls to anything but what was asked for and the StorageCluster's existence and spec. |
| Installation.SettledIsNotWritten | controllers/managedocs_controller.go:761-802 | If the StorageCluster is as wanted already, such a reconcile sends no request that writes it. |
| Installation.InstalledIsSettled | controllers/managedocs_controller.go:761-802 | What a reconcile installed is as wanted for the next one. |
| Installation.StrategyMeaning | controllers/managedocs_controller.go:547-551 | The strategy is "none" for that word in any mix of cases, and strict for all else. |
| Installation.EffectiveParamsMeaning | controllers/managedocs_controller.go:553-570 | A consumer asks for 1024Ti whatever its parameters say; all other parameters, and those of the other types, are as given. |
| Installation.WantedSpecMeaning | controllers/managedocs_controller.go:547-802 | What is wanted, in terms of the parameters as given: the untouched spec, or the layout of the deployment type with count, gateway, ticket, endpoint and capacity; an error exactly if one of those needed is unreadable. |
| Installation.InstalledMeaning | controllers/managedocs_controller.go:761-802 | The same of the StorageCluster that such a reconcile leaves. |
| Reconcilers.EnsureManagedOCS | main.go:203-223 | Startup succeeds if the resource was created or was there, and is the machine's first step. |
| Reconcilers.ApiServer.Send | controllers/managedocs_controller.go:2031-2050 | A call is a step of the run, whatever others do before it and whether it is refused or its answer lost; an answer that is not a failure is the true one. |
| Reconcilers.Reconciler.Reconcile | controllers/managedocs_controller.go:359-395 | One reconcile extends the run from idle to idle and leaves the server invariant intact, whichever calls fail. |
| Reconcilers.Reconciler.InitReconciler | controllers/managedocs_controller.go:397-490 | Nothing of an earlier reconcile is left in the fields. |
| Reconcilers.Reconciler.ReconcilePhases | controllers/managedocs_controller.go:492-684 | The phases follow the machine from the label check to the point where only the status is left to save. |
| Reconcilers.Reconciler.CheckUninstallCondition | controllers/managedocs_controller.go:1873-1887 | True exactly if the config map was read and has the label; a failed read is no. |
| Reconcilers.Reconciler.UpdateComponentStatus | controllers/managedocs_controller.go:686-753 | The status in memory is the one the machine has, with Unknown for every error but NotFound, and the branch follows from it. |
| Reconcilers.Reconciler.VerifyComponentsDoNotExist | controllers/managedocs_controller.go:755-759 | If it says so, there is no StorageCluster on the server, although what is in memory may be old. |
| Reconcilers.Reconciler.RemoveTheFinalizer | controllers/managedocs_controller.go:500-513 | The operator CSV goes before the finalizer, and an error stops the sequence. |
| Reconcilers.Reconciler.RemoveTheStorageCluster | controllers/managedocs_controller.go:515-535 | StorageCluster first, then every listed StorageSystem. |
| Reconcilers.Reconciler.RemoveOLMComponents | controllers/managedocs_controller.go:2020-2029 | One deployer CSV is deleted, if there is one. |
| Reconcilers.Reconciler.DeleteCSVByPrefix | controllers/managedocs_controller.go:2060-2068 | Nothing to delete and already deleted both count as success. |
| Reconcilers.FindCSVByPrefix | controllers/managedocs_controller.go:2070-2083 | The first listed CSV with the prefix, none exactly if no name has it. |
| Prelude.FirstWithPrefixIsFirst | controllers/managedocs_controller.go:2070-2083 | No name listed before it has the prefix. |
| Reconcilers.Reconciler.Install | controllers/managedocs_controller.go:537-545 | The finalizer is on before anything is installed. |
| Reconcilers.Reconciler.InstallHeld | controllers/managedocs_controller.go:547-570 | Strategy and parameters are those of this reconcile. |
| Reconcilers.Reconciler.InstallResources | controllers/managedocs_controller.go:572-677 | All phases ran, and the decision to uninstall follows. |
| Reconcilers.Reconciler.SaveTheStatus | controllers/managedocs_controller.go:379-394 | The status is saved even after an error, which has priority. |
| Reconcilers.Reconciler.ReconcileResources | controllers/managedocs_controller.go:573-639 | The 22 phases in order, the first failure ends the reconcile. |
| Reconcilers.Reconciler.ReconcileStorageCluster | controllers/managedocs_controller.go:761-802 | Get, change, and create or update only if something differs. |
| Reconcilers.Reconciler.HasOCSVolumes | controllers/managedocs_controller.go:1896-1927 | A failed listing is an error, never a no. |
| Reconcilers.Reconciler.HasOCSStorageConsumers | controllers/managedocs_controller.go:1929-1935 | A failed listing is an error, never a no. |
| Reconcilers.Reconciler.DeleteAndReload | controllers/managedocs_controller.go:664-676 | The object in memory is the reloaded one, so that the status can be saved. |
| Reconcilers.CollectOCSClasses | controllers/managedocs_controller.go:1903-1911 | The names of the classes whose provisioner starts with the namespace. |
| Reconcilers.AnyIn | controllers/managedocs_controller.go:1919-1925 | True exactly if some volume's class is in the set. |
| Reconcilers.VolumesInUseIff | controllers/managedocs_controller.go:1896-1927 | The set the loop builds finds a volume in use exactly if a volume and a class share a name and the class's provisioner starts with the namespace, duplicates and unknown names included. |
| StorageClusters.FindStorageDeviceSet | controllers/managedocs_controller.go:2085-2093 | The first device set with the name. |
| StorageClusters.SetDeviceSetCount | controllers/managedocs_controller.go:2106-2114 | The larger of current and desired count is written, all else stays. |
| StorageClusters.GetDesiredSizedStorageCluster | controllers/managedocs_controller.go:804-890 | The template with the size, never below the current one, and the gateway setting; the first unreadable parameter is the error. |
| StorageClusters.GetDesiredConsumerStorageCluster | controllers/managedocs_controller.go:892-930 | The consumer's template with ticket, endpoint, capacity and gateway setting, or the error of an unreadable gateway parameter. |
| StorageClusters.SizedSpecMeaning | controllers/managedocs_controller.go:804-890 | Converged and provider: succeeds exactly if size and gateway parameter are readable; the whole spec in terms of the parameters and the current count. |
| StorageClusters.ConsumerSpecMeaning | controllers/managedocs_controller.go:892-930 | Consumer: succeeds exactly if the gateway parameter is readable; ticket and endpoint are the ones given, each in its place, and nothing depends on the current spec. |
| StorageClusters.DeviceCountMeaning | controllers/managedocs_controller.go:2085-2093 | The current count is that of the first device set with the name, and 0 if there is none. |
| StorageClusters.AtoiOfPrinted | controllers/managedocs_controller.go:814-818 | Every number below 2^63 is read as it is printed, with either sign. |
| StorageClusters.StrictReconcileMeaning | controllers/managedocs_controller.go:814-844 | Succeeds exactly if size and gateway parameter are readable; the count is the maximum of the current and the requested one; "manage" exactly if the parameter is true, whatever it was before. |
| StorageClusters.MutatedIsIdempotent | controllers/managedocs_controller.go:761-796 | Reconciling the result again changes nothing. |
| StorageClusters.RoundsReachTheMaximum | controllers/managedocs_controller.go:2106-2114 | After any sequence of strict, none and failing reconciles the count is the maximum of the initial one and all strictly requested ones. |
| StorageClusters.CountNeverNegative | controllers/managedocs_controller.go:819-833 | A new cluster never gets a negative count, even if negative sizes are asked for. |
| Float64.ExactBelow53 | controllers/managedocs_controller.go:861-862 | The conversion is exact up to 2^53. |
| Float64.CountIsLeast | controllers/managedocs_controller.go:861-862 | Up to 2^53 the count is the least that holds the size. |
| Float64.CountMonotone | controllers/managedocs_controller.go:861-862 | Asking for more never provisions less, over all sizes. |
| Float64.CapacityIsEnoughIff | controllers/managedocs_controller.go:861-862 | The capacity covers the request exactly if the conversion does not round it down, over all sizes. |
| Float64.UnderProvisionedAbove53 | controllers/managedocs_controller.go:861-862 | 2^53 + 1 is provisioned one TiB short, so the bound is tight. |
| Float64.CountFitsInt64 | controllers/managedocs_controller.go:862 | The conversion back to an integer cannot overflow. |
| Float64.NearestEven | controllers/managedocs_controller.go:861-862 | The conversion gives a nearest multiple of the distance between neighbours, and of two nearest ones the one with the even significand. |
| Convergence.LayeredStepsConverge | controllers/managedocs_controller.go:573-639 | Idempotent steps in n levels, each disturbed only from lower levels, are at rest after n successful passes, from any state. |
| Convergence.AttemptsConverge | controllers/managedocs_controller.go:573-639 | The same with any number of passes that fail, between two steps or in the middle of one, before, between and after them. |
| Convergence.PassSucceedsIff | controllers/managedocs_controller.go:573-639 | When no step can make another fail or keep it from failing, a pass succeeds exactly if each step would at its start. |
| Pipeline.PhaseIsIdempotent | controllers/managedocs_controller.go:573-639 | Every phase leaves itself nothing to do. |
| Stabilisation.PhaseRespects | controllers/managedocs_controller.go:573-639 | Only the phase that labels monitors can be given work by another phase. |
| Stabilisation.TwoPassesSettle | controllers/managedocs_controller.go:572-639 | After two successful reconciles a third changes nothing, and every monitor and rule carries the label, the dead man's snitch rule included. |
| Stabilisation.InterruptedPassesSettle | controllers/managedocs_controller.go:572-639 | The same after any sequence of reconciles with two successful ones among them, where the others may fail between two phases, or between two updates of one. |
| Stabilisation.TornStepsAreHarmless | controllers/managedocs_controller.go:1395-1435 | Labels or CSVs of which only some were updated give no other phase work, but for the labelling one. |
| Stabilisation.ReconcileSucceedsIff | controllers/managedocs_controller.go:573-639 | The phases succeed together exactly if each of them would succeed at the start, and one success is followed by another. |
| Stabilisation.OnePassSettlesIff | controllers/managedocs_controller.go:1193-1222 | One reconcile is enough exactly if the dead man's snitch rule was there before it. |
| Stabilisation.OnePassIsNotEnough | controllers/managedocs_controller.go:1193-1222 | In a fresh namespace a first reconcile succeeds, and the second still changes something. |
| PassResult.PassGivesTheWantedState | controllers/managedocs_controller.go:573-639 | After one successful pass each phase has done its part, in terms of the inputs and the cluster before: owner, spec, labels and annotations of every object, channel, Rook keys, StorageCluster, operators and tools; what is for another deployment type or a missing kind is untouched. |
| PassResult.SettledIsWanted | controllers/managedocs_controller.go:572-639 | So it is after any attempts with two successful passes among them. |
| PassResult.PassLabelsTheMonitors | controllers/managedocs_controller.go:1374-1435 | After one successful pass every monitor and rule that was there has the label and keeps its others, and the operator's own two have owner and spec; only a new dead man's snitch rule has no label. |
| PassResult.PassSucceedsIffReady | controllers/managedocs_controller.go:573-639 | A pass succeeds exactly if nobody else controls an object it owns and what each phase reads is there, as one condition for each phase on the cluster before the pass. |
| Monitoring.AddLabel | utils/utils.go:53-60 | The label is set and every other label kept. |
| Monitoring.LabelListed | controllers/managedocs_controller.go:1398-1408 | Succeeds exactly if no update is refused, and then every object is labelled; after a failure each object is as before or labelled. |
| Monitoring.Namespace.ReconcileMonitoringResources | controllers/managedocs_controller.go:1395-1435 | The same for the three kinds in order. |
| Monitoring.RetryFinishes | controllers/managedocs_controller.go:1395-1435 | A later successful attempt gives the same result wherever an earlier one stopped. |
| OperatorConfig.ClusterServiceVersion.UpdateOCSCSV | controllers/managedocs_controller.go:1960-1996 | Every container is configured, and an update is due exactly if something differed. |
| OperatorConfig.ClusterServiceVersion.UpdateContainers | controllers/managedocs_controller.go:1963-1989 | The inner loop, for one deployment; the others are untouched. |
| OperatorConfig.ClusterServiceVersion.UpdateMCGCSV | controllers/managedocs_controller.go:1998-2018 | Every noobaa-operator deployment without a count, or with a positive one, is scaled down, and an update is due exactly if something differed. |
| OperatorConfig.OCSConfiguredMeaning | controllers/managedocs_controller.go:1963-1989 | Recognised containers have the required resources, and everything else is as it was. |
| OperatorConfig.MCGConfiguredMeaning | controllers/managedocs_controller.go:2001-2011 | A noobaa-operator deployment ends without replicas exactly if its count was not negative, and everything else is as it was. |
| OperatorConfig.NegativeReplicasStay | controllers/managedocs_controller.go:2005-2006 | The case in which it does not. |
| OperatorConfig.ReconcileCSVs | controllers/managedocs_controller.go:1937-1958 | Succeeds exactly if no update that is due is refused, and then every CSV is configured; after a failure each CSV is as before or configured. |
| OperatorConfig.ConfiguredCSVMeaning | controllers/managedocs_controller.go:1947-1956 | The containers of an ocs-operator CSV get their resources, the noobaa-operator deployments of an mcg-operator CSV are scaled down, and any other CSV is untouched. |
| OperatorConfig.ConfiguredTwiceIsConfiguredOnce | controllers/managedocs_controller.go:1960-2018 | A second pass finds nothing to change. |
| OperatorConfig.ConfiguringKeepsTheDeployer | controllers/managedocs_controller.go:1937-1958 | Configuring the operators leaves the deployer CSV, and with it the proxy image, as it was. |
| OperatorConfig.ProxyImageMeaning | controllers/managedocs_controller.go:1104-1128 | The proxy image is that of the last kube-rbac-proxy container of the last controller-manager deployment of the first deployer CSV. |
| OperatorConfig.RookSettingsMeaning | controllers/managedocs_controller.go:1438-1549 | Which keys are set for which deployment type, each to its value, and that all others are kept. |
| OperatorConfig.ConfigMap.ReconcileRook | controllers/managedocs_controller.go:1438-1549 | The settings of the deployment type are there, other keys are as they were, and an update is due exactly if something differed. |
| Egress.EgressFirewall.VPCRules | controllers/managedocs_controller.go:1704-1718 | One allow rule for each non-empty part, in order. |
| Egress.EgressFirewall.Reconcile | controllers/managedocs_controller.go:1678-1805 | The rule list the inputs call for, or the first missing input as error and no change; nothing if the kind is not installed. |
| Egress.EgressNetworkPolicy.VPCRules | controllers/managedocs_controller.go:1576-1590 | The same loop for the other kind. |
| Egress.EgressNetworkPolicy.Reconcile | controllers/managedocs_controller.go:1551-1676 | The same list, built a second time. |
| Egress.ReconcileEgress | controllers/managedocs_controller.go:625-630 | Both builders fail for the same reason or leave lists that decide alike about every destination. |
| Egress.ReadHosts | controllers/managedocs_controller.go:1600-1642 | The checks of secrets and URLs in their order, with the first failing one as error. |
| Egress.HostsMeaning | controllers/managedocs_controller.go:1600-1642 | They pass exactly if both secrets were read and all four entries name a host, and these are the hosts. |
| Egress.EgressMeaning | shim/crds/egressfirewall.k8s.ovn.org.yaml:24 | Under first match the list allows exactly the listed names and blocks and denies the rest, whatever rules follow it. |
| Egress.AllowOrderIsIrrelevant | controllers/managedocs_controller.go:1720-1727 | Permuting the allow rules changes no decision. |
| Egress.GatheredBlocksPass | controllers/managedocs_controller.go:1690-1727 | From the metadata reply to the decision: an address without a listed name passes exactly if it is in one of the VPC's blocks or in 100.64.0.0/16. |
| Egress.ConvergedMeaning | controllers/managedocs_controller.go:1687-1727 | On a converged cluster an address without a listed name passes exactly if it is in 100.64.0.0/16, whatever the metadata says. |
| Egress.FirstProblemIsReported | controllers/managedocs_controller.go:1687-1790 | Of several missing inputs the first is reported, as an exact condition for each error. |
| CidrBlocks.BlockIsARange | templates/egressfirewall.go:35-42 | Membership by prefix (section 3.1 of RFC 4632) is membership in one run of addresses. |
| CidrBlocks.SizeDoubles | templates/egressfirewall.go:35-42 | A full-length block is one address, and each prefix bit less doubles it. |
| CidrBlocks.ParsePrintedBlock | templates/egressfirewall.go:35-42 | Every block has a text that means it. |
| CidrPipeline.CidrsRoundTrip | utils/imds.go:33 | The blocks listed by the metadata service, with or without a newline at the end, are the blocks the rules are built from, in order. |
| Alerting.RelabelRegexMeaning | templates/prometheus.go:164-173 | The printed expression parses, and keeps a series exactly if it is the state of a listed alert, or a listed metric without an alert name. |
| Alerting.RegexMatcherMeaning | templates/alertmanagerconfig.go:138-140 | The printed expression parses and matches exactly the listed names. |
| Alerting.MatcherIsJoinOfAnchored | templates/alertmanagerconfig.go:138-140 | The separator anchors every name on both sides. |
| Routing.RoutesMeaning | templates/alertmanagerconfig.go:75-105 | The receiver of every alert, for any lists, overlapping ones included. |
| Routing.EachReceiverGetsItsList | templates/alertmanagerconfig.go:38-105 | With the lists of the template each alert has one receiver and each receiver exactly its list. |
| Routing.RemoteWriteKeepsThePagedAlerts | templates/prometheus.go:56-72 | An alert's state leaves the cluster exactly if the alert pages somebody. |
| Notification.AlertingAddresses | controllers/managedocs_controller.go:1296-1310 | The loop without a bound ends, with the non-empty addresses of the longest gap-free run, in order. |
| Notification.Run | controllers/managedocs_controller.go:1298-1309 | The run ends at the first missing key, and is no longer than the number of parameters. |
| Notification.AddressIsMailedIff | controllers/managedocs_controller.go:1296-1310 | An address is mailed to exactly if it is the non-empty value of a key all of whose predecessors exist. |
| Notification.OnlyTheRunMatters | controllers/managedocs_controller.go:1296-1310 | Nothing else among the parameters changes the list. |
| Notification.NextAddressIsAppended | controllers/managedocs_controller.go:1296-1310 | The list is empty without the first key, and the value of the next key comes at its end unless it is empty, repeated or not. |
| DataGather.GatherAndSave | cmd/awsDataGather/main.go:103-142 | The config map holds the encoded reply, or is untouched after an error. |
| DataGather.GatherLoop | cmd/awsDataGather/main.go:81-100 | Every sleep of every history has the closed form, and the config map holds the last reply that was fetched and saved. |
| DataGather.LastFetchedIsLast | cmd/awsDataGather/main.go:81-100 | Whatever came before it, the last successful reply is the one that is kept, however many failures follow. |
| DataGather.SleepAfterFailures | cmd/awsDataGather/main.go:90-97 | After a start or a success, the k-th failure in a row is followed by min(2^(k-1), 300) seconds of sleep. |
| DataGather.SleepAfter | cmd/awsDataGather/main.go:83-97 | Every sleep lies between 1 and 300 seconds. |
| DataGather.SleepAfterSuccess | cmd/awsDataGather/main.go:85-89 | A success is followed by 300 seconds of sleep. |
| DataGather.CeilingAfterTenFailures | cmd/awsDataGather/main.go:92-96 | The ceiling is reached exactly from the tenth failure on. |
| PodNames.DeploymentNameFromPodName | utils/utils.go:106-118 | Refused exactly if there are fewer than two dashes; otherwise the input is the name of a pod of the result and of no other deployment. |
| PodNames.PodLeadsToDeployment | utils/utils.go:106-118 | Parsing a composed pod name gives the deployment back, whatever dashes it has. |
| PodNames.RefusedIffTooFewDashes | utils/utils.go:106-118 | An error exactly if there are fewer than two dashes. |
| PodNames.AcceptedIsAPod | utils/utils.go:106-118 | Every success can be put together again to the input. |
| Slices.Contains | utils/utils.go:32-39 | True exactly if the item is there. |
| Slices.Remove | utils/utils.go:42-50 | The list without the item, in order. |
| Slices.WithoutKeepsTheRest | utils/utils.go:42-50 | Every other item keeps its number of occurrences. |
| Slices.WithoutUndoesAppend | controllers/managedocs_controller.go:508-540 | Adding the finalizer and removing it again gives back the list of the others. |
| Slices.MapItems | utils/utils.go:71-77 | Each item transformed, in place in a new array. |

## Left out

- Manager setup, schemes, permissions, watches and predicates: wiring of a library. One predicate does the opposite of
  its comment.
- HTTP, files, environment variables, the readiness server and logging: what is fetched or read is an input.
- `url.Parse`, `resource.ParseQuantity`, YAML and JSON: a parse result is an input or an option value. The consumer's
  capacity is the constant 1024Ti by the time it is parsed, so that check always passes.
- Constant template content (labels, ports, placements, quantities, network policies): opaque texts.
- In the protocol machine each resource phase other than the StorageCluster is one call that succeeds or fails. Its
  effect is the subject of `Pipeline.dfy`, where the content of the egress objects is opaque again, and where the
  ManagedOCS with its finalizer and status is not a part of the cluster.
- What a phase reads from secrets, files and the cluster version is an input of `Pipeline.dfy`: the stabilisation
  results are for unchanged inputs, and others who edit the objects between two reconciles are not in them.
- When the deployer CSV has no controller-manager deployment the source dereferences nil; the model lets the phase fail.
- In the class of `Reconciler.dfy` the process does not die in the middle of a reconcile; in the protocol machine it may.
- The 22 phases are one loop in the class, because each is called in the same way.
- The loop over subscriptions is a function on lists in `Pipeline.dfy`; aliasing of list items is not modelled.
- `deleteCSVByPrefix` deletes the first match only; several deployer CSVs take several reconciles, which is how
  `UninstallEnds` counts them.
- Progress.CleanReconcileMakesProgress: is only about a reconcile that nobody disturbs, because there the condition can
  be exact; the general statement is `SmoothReconcileMakesProgress`.
- Regular expressions: only literals, groups, alternatives and anchors; the parser refuses everything else.
- IPv6 blocks and port lists of egress rules; a block that does not parse matches nothing.
- Stale caches, API-server defaulting and admission.
