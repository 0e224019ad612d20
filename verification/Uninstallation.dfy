/** Uninstallation with everybody else at work between the calls of a reconcile: what one reconcile achieves,
    and that the whole comes to its end. */
module Uninstallation {
  import opened Prelude
  import opened Server
  import opened Controller
  import opened Safety
  import opened Progress

  // ---- what is left only shrinks ----

  predicate Carries(s: Server) {
    s.managedOCS.Some? && FINALIZER in s.managedOCS.value.finalizers
  }

  /** Of the things the rank counts, `t` has none that `s` has not. */
  predicate Shrinks(s: Server, t: Server) {
    && (t.storageCluster.Some? ==> s.storageCluster.Some?)
    && (t.managedOCS.Some? ==> s.managedOCS.Some?)
    && (Carries(t) ==> Carries(s))
    && CountDeployers(t.csvs) <= CountDeployers(s.csvs)
  }

  predicate SameLeft(s: Server, t: Server) {
    && (t.storageCluster.Some? <==> s.storageCluster.Some?)
    && (t.managedOCS.Some? <==> s.managedOCS.Some?)
    && (Carries(t) <==> Carries(s))
    && CountDeployers(t.csvs) == CountDeployers(s.csvs)
  }

  lemma ShrinkingLowersRank(s: Server, t: Server)
    requires Shrinks(s, t)
    ensures Rank(t) <= Rank(s)
    ensures Rank(t) == Rank(s) <==> SameLeft(s, t)
  {
  }

  /** Others let the uninstallation be: they keep the label, bring back neither the ManagedOCS nor a deployer,
      and replace no deployer by another. */
  predicate LetsBe(c: Config, s: Server, t: Server) {
    && Interference(s, t) && Uninstalling(c, t)
    && CountDeployers(t.csvs) <= CountDeployers(s.csvs)
    && (CountDeployers(t.csvs) == CountDeployers(s.csvs) ==>
          forall n :: n in s.csvs && HasPrefix(n, DEPLOYER) ==> n in t.csvs)
  }

  lemma LettingBeShrinks(c: Config, s: Server, t: Server)
    requires LetsBe(c, s, t) && Uninstalling(c, s)
    ensures Shrinks(s, t)
  {
  }

  lemma CallShrinks(c: Config, s: Server, point: Point, l: Locals)
    requires ServerInv(s) && ControlInv(c, s, At(point, l)) && Uninstalling(c, s) && !Installing(At(point, l))
    ensures Shrinks(s, Serve(s, RequestAt(c, point, l)).0)
  {
    var q := RequestAt(c, point, l);
    if q.DeleteCSV? && q.name in s.csvs {
      RemovingLowersTheCount(s.csvs, q.name);
    }
  }

  // ---- reconciles in which no call fails ----

  /** The pending call is answered, or others act. */
  predicate Smooth(c: Config, w: World, a: Action) {
    match a
    case Call(delivery) => Answered(c, w, delivery)
    case Interfere(server) => LetsBe(c, w.server, server)
    case _ => false
  }

  predicate SmoothRun(c: Config, w: World, actions: seq<Action>)
    decreases |actions|
  {
    actions == [] ||
    ( && SmoothRun(c, w, actions[..|actions| - 1])
      && Smooth(c, Run(c, w, actions[..|actions| - 1]), actions[|actions| - 1]))
  }

  /** The servers along a run. */
  function ServerAt(c: Config, w: World, actions: seq<Action>, k: nat): Server
    requires k <= |actions|
  {
    Run(c, w, actions[..k]).server
  }

  predicate EverWaits(c: Config, w: World, actions: seq<Action>) {
    exists k :: 0 <= k <= |actions| && Waiting(ServerAt(c, w, actions, k))
  }

  // ---- what the reconcile saw is still so ----

  /** As long as the rank has not fallen, the reconcile is on the branch that lowers it. */
  predicate OnTrack(s: Server, point: Point, l: Locals) {
    if point.LoadManagedOCS? then l == NO_LOCALS
    else if BeforeBranch(point) then
      && (l.managedOCS.uid != 0 <==> s.managedOCS.Some?)
      && (s.managedOCS.Some? ==> l.managedOCS.deleting)
      && (!point.CheckDeleteLabel? ==> l.uninstall)
      && (StatusRead(point) ==> (l.managedOCS.status.storageCluster.NotFound? <==> s.storageCluster.None?))
    else if FinalizerPoint(point) then s.storageCluster.None? && s.managedOCS.Some?
    else if point.RemoveStorageCluster? then s.storageCluster.Some?
    else if point.ListDeployers? then s.storageCluster.None? && s.managedOCS.None? && l.managedOCS.uid == 0
    else point.RemoveDeployer? && HasPrefix(point.name, DEPLOYER) && point.name in s.csvs && l.managedOCS.uid == 0
  }

  predicate Tracks(s: Server, control: Control) {
    match control
    case Starting => false
    case Idle(_) => Rank(s) == 0
    case At(point, l) => OnTrack(s, point, l)
  }

  lemma OthersKeepTrack(c: Config, s: Server, t: Server, control: Control)
    requires Uninstalling(c, s) && LetsBe(c, s, t) && SameLeft(s, t) && Tracks(s, control)
    ensures Tracks(t, control)
  {
    ShrinkingLowersRank(s, t);
  }

  /** One call from `s`: it lowers the rank or stays on track. */
  predicate CallTracks(c: Config, s: Server, point: Point, l: Locals) {
    var (t, r) := Serve(s, RequestAt(c, point, l));
    Rank(t) < Rank(s) || Tracks(t, Resume(c, point, l, r))
  }

  lemma LoadTracks(c: Config, s: Server, point: Point, l: Locals)
    requires ServerInv(s) && ControlInv(c, s, At(point, l)) && Uninstalling(c, s) && OnTrack(s, point, l)
    requires point.LoadManagedOCS? || point.CheckDeleteLabel? || point.StatusOfStorageCluster?
    ensures CallTracks(c, s, point, l)
  {
  }

  lemma BranchTracks(s: Server, l: Locals)
    requires OnTrack(s, StatusOfAlertmanager, l)
    requires l.managedOCS.uid == 0 ==> !l.managedOCS.deleting
    requires s.storageCluster.Some? ==> s.managedOCS.Some?
    ensures Tracks(s, Branch(l))
  {
  }

  lemma StatusTracks(c: Config, s: Server, point: Point, l: Locals)
    requires ServerInv(s) && ControlInv(c, s, At(point, l)) && Uninstalling(c, s) && OnTrack(s, point, l)
    requires StatusRead(point)
    ensures CallTracks(c, s, point, l)
  {
    var (t, r) := Serve(s, RequestAt(c, point, l));
    if !r.FoundReplicas? && !point.StatusOfPrometheus? && !point.StatusOfPrometheusSet? {
      BranchTracks(s, StatusAfter(l, point, r));
    }
  }

  /** With no finalizer of others in the way, deleting the StorageCluster removes it. */
  lemma RemoveStorageClusterTracks(c: Config, s: Server, l: Locals)
    requires !Waiting(s) && OnTrack(s, RemoveStorageCluster, l)
    ensures CallTracks(c, s, RemoveStorageCluster, l)
  {
  }

  lemma OperatorTracks(c: Config, s: Server, point: Point, l: Locals)
    requires ServerInv(s) && ControlInv(c, s, At(point, l)) && OnTrack(s, point, l)
    requires point.ListOperators? || point.RemoveOperator?
    ensures CallTracks(c, s, point, l)
  {
    if point.RemoveOperator? && point.name in s.csvs {
      RemovingLowersTheCount(s.csvs, point.name);
    }
  }

  /** An update that is not refused takes the finalizer off. */
  lemma RemoveFinalizerTracks(c: Config, s: Server, l: Locals)
    requires ControlInv(c, s, At(RemoveFinalizer, l)) && !Waiting(s) && OnTrack(s, RemoveFinalizer, l)
    requires !Serve(s, RequestAt(c, RemoveFinalizer, l)).1.Failed?
    ensures CallTracks(c, s, RemoveFinalizer, l)
  {
  }

  lemma ListDeployersTracks(c: Config, s: Server, l: Locals)
    requires OnTrack(s, ListDeployers, l)
    ensures CallTracks(c, s, ListDeployers, l)
  {
    CountIsZeroIff(s.csvs);
    if FirstWithPrefix(s.csvs, DEPLOYER).None? {
      assert Resume(c, ListDeployers, l, FoundNames(s.csvs)) == Idle(Completed);
    }
  }

  lemma RemoveDeployerTracks(c: Config, s: Server, name: string, l: Locals)
    requires OnTrack(s, RemoveDeployer(name), l)
    ensures CallTracks(c, s, RemoveDeployer(name), l)
  {
    RemovingLowersTheCount(s.csvs, name);
  }

  lemma CallKeepsTrack(c: Config, s: Server, point: Point, l: Locals)
    requires ServerInv(s) && ControlInv(c, s, At(point, l)) && Uninstalling(c, s)
    requires !Waiting(s) && OnTrack(s, point, l)
    requires !Serve(s, RequestAt(c, point, l)).1.Failed?
    ensures CallTracks(c, s, point, l)
  {
    if StatusRead(point) {
      StatusTracks(c, s, point, l);
    } else if point.RemoveStorageCluster? {
      RemoveStorageClusterTracks(c, s, l);
    } else if point.ListOperators? || point.RemoveOperator? {
      OperatorTracks(c, s, point, l);
    } else if point.RemoveFinalizer? {
      RemoveFinalizerTracks(c, s, l);
    } else if point.ListDeployers? {
      ListDeployersTracks(c, s, l);
    } else if point.RemoveDeployer? {
      RemoveDeployerTracks(c, s, point.name, l);
    } else {
      LoadTracks(c, s, point, l);
    }
  }

  // ---- the deletion is asked for ----

  /** Past the branch, a StorageCluster that is still there is marked for deletion. */
  predicate Asked(s: Server, control: Control) {
    control.Idle?
    || (control.At? && (control.point.ListSystems? || control.point.RemoveSystems? || control.point.SaveStatus?))
    ==> (s.storageCluster.Some? ==> s.storageCluster.value.deleting)
  }

  lemma OthersKeepAsked(s: Server, t: Server, control: Control)
    requires Interference(s, t) && Asked(s, control)
    ensures Asked(t, control)
  {
  }

  /** Without a StorageCluster there is nothing to ask for, and the controller makes none. */
  lemma CallKeepsNone(c: Config, s: Server, point: Point, l: Locals)
    requires s.storageCluster.None? && !point.WriteStorageCluster?
    ensures Serve(s, RequestAt(c, point, l)).0.storageCluster.None?
  {
  }

  lemma CallKeepsAsked(c: Config, s: Server, point: Point, l: Locals)
    requires ServerInv(s) && ControlInv(c, s, At(point, l)) && Uninstalling(c, s) && !Installing(At(point, l))
    requires Asked(s, At(point, l)) && !Serve(s, RequestAt(c, point, l)).1.Failed?
    requires s.storageCluster.Some?
    ensures var (t, r) := Serve(s, RequestAt(c, point, l)); Asked(t, Resume(c, point, l, r))
  {
  }

  // ---- one reconcile ----

  /** What is known along a reconcile that began in a server state `first`. */
  predicate Underway(c: Config, first: Server, now: World) {
    && Inv(c, now) && Uninstalling(c, now.server) && !now.control.Starting? && !Installing(now.control)
    && Shrinks(first, now.server) && Asked(now.server, now.control)
  }

  lemma SmoothStep(c: Config, first: Server, w: World, a: Action)
    requires Underway(c, first, w) && Smooth(c, w, a)
    ensures Underway(c, first, Step(c, w, a))
    ensures Shrinks(w.server, Step(c, w, a).server)
  {
    StepKeepsInv(c, w, a);
    match a
    case Interfere(server) =>
      LettingBeShrinks(c, w.server, server);
      OthersKeepAsked(w.server, server, w.control);
    case Call(delivery) =>
      var point, l := w.control.point, w.control.locals;
      CallNeverRaisesRank(c, w, delivery);
      CallShrinks(c, w.server, point, l);
      if w.server.storageCluster.Some? {
        CallKeepsAsked(c, w.server, point, l);
      } else {
        CallKeepsNone(c, w.server, point, l);
      }
  }

  lemma SmoothStepTracks(c: Config, first: Server, w: World, a: Action)
    requires Underway(c, first, w) && Smooth(c, w, a)
    requires Tracks(w.server, w.control) && !Waiting(w.server)
    ensures var next := Step(c, w, a); Rank(next.server) < Rank(w.server) || Tracks(next.server, next.control)
  {
    match a
    case Interfere(server) =>
      LettingBeShrinks(c, w.server, server);
      ShrinkingLowersRank(w.server, server);
      if SameLeft(w.server, server) {
        OthersKeepTrack(c, w.server, server, w.control);
      }
    case Call(_) => CallKeepsTrack(c, w.server, w.control.point, w.control.locals);
  }

  predicate Triggered(c: Config, w: World) {
    Inv(c, w) && Uninstalling(c, w.server) && w.control == At(LoadManagedOCS, NO_LOCALS)
  }

  lemma WaitsLonger(c: Config, w: World, before: seq<Action>, actions: seq<Action>)
    requires before <= actions && EverWaits(c, w, before)
    ensures EverWaits(c, w, actions)
  {
    var k :| 0 <= k <= |before| && Waiting(ServerAt(c, w, before, k));
    assert before[..k] == actions[..k];
    assert Waiting(ServerAt(c, w, actions, k));
  }

  lemma NeverWaitsAtTheEnd(c: Config, w: World, actions: seq<Action>)
    requires !EverWaits(c, w, actions)
    ensures !Waiting(Run(c, w, actions).server)
  {
    assert actions[..|actions|] == actions;
    assert !Waiting(ServerAt(c, w, actions, |actions|));
  }

  /** Either the rank has fallen, or the reconcile is on its way to lower it, or it had to wait. */
  predicate GoesOn(c: Config, w: World, actions: seq<Action>) {
    var now := Run(c, w, actions);
    Rank(now.server) < Rank(w.server) || Tracks(now.server, now.control) || EverWaits(c, w, actions)
  }

  lemma {:induction false} SmoothRunIsUnderway(c: Config, w: World, actions: seq<Action>)
    requires Triggered(c, w) && SmoothRun(c, w, actions)
    ensures Underway(c, w.server, Run(c, w, actions)) && GoesOn(c, w, actions)
    decreases |actions|
  {
    if actions != [] {
      var n := |actions| - 1;
      var before, a := actions[..n], actions[n];
      SmoothRunIsUnderway(c, w, before);
      var now := Run(c, w, before);
      SmoothStep(c, w.server, now, a);
      ShrinkingLowersRank(w.server, now.server);
      ShrinkingLowersRank(now.server, Step(c, now, a).server);
      if EverWaits(c, w, before) {
        WaitsLonger(c, w, before, actions);
      } else if Rank(now.server) == Rank(w.server) {
        NeverWaitsAtTheEnd(c, w, before);
        SmoothStepTracks(c, w.server, now, a);
      }
    }
  }

  /** A reconcile in which no call fails lowers the rank, whatever others do between its calls, unless nothing
      is left or at some moment only others could go on; and then at least the deletion of the StorageCluster
      has been asked for. */
  lemma SmoothReconcileMakesProgress(c: Config, w: World, actions: seq<Action>)
    requires Triggered(c, w) && SmoothRun(c, w, actions)
    requires Run(c, w, actions).control.Idle?
    ensures var t := Run(c, w, actions).server;
            && Rank(t) <= Rank(w.server)
            && (Rank(t) < Rank(w.server) || Rank(t) == 0 || EverWaits(c, w, actions))
            && (t.storageCluster.Some? ==> t.storageCluster.value.deleting)
  {
    SmoothRunIsUnderway(c, w, actions);
    ShrinkingLowersRank(w.server, Run(c, w, actions).server);
  }

  // ---- the whole uninstallation ----

  /** One round: a reconcile is triggered and runs to its end, others act meanwhile and afterwards, and calls may
      fail. Only a restart is not in it. */
  predicate IsRound(c: Config, w: World, actions: seq<Action>) {
    && w.control.Idle?
    && UndisturbedRun(c, Step(c, w, Trigger), actions)
    && AfterRound(c, w, actions).control.Idle?
  }

  function AfterRound(c: Config, w: World, actions: seq<Action>): World {
    Run(c, Step(c, w, Trigger), actions)
  }

  function AfterRounds(c: Config, w: World, rounds: seq<seq<Action>>): World
    decreases |rounds|
  {
    if rounds == [] then w
    else AfterRound(c, AfterRounds(c, w, rounds[..|rounds| - 1]), rounds[|rounds| - 1])
  }

  predicate AllRounds(c: Config, w: World, rounds: seq<seq<Action>>)
    decreases |rounds|
  {
    rounds == [] ||
    ( && AllRounds(c, w, rounds[..|rounds| - 1])
      && IsRound(c, AfterRounds(c, w, rounds[..|rounds| - 1]), rounds[|rounds| - 1]))
  }

  lemma {:induction false} SmoothIsUndisturbed(c: Config, w: World, actions: seq<Action>)
    requires Triggered(c, w) && SmoothRun(c, w, actions)
    ensures UndisturbedRun(c, w, actions)
    decreases |actions|
  {
    if actions != [] {
      var before, a := actions[..|actions| - 1], actions[|actions| - 1];
      SmoothIsUndisturbed(c, w, before);
      SmoothRunIsUnderway(c, w, before);
      var s := Run(c, w, before).server;
      if a.Interfere? {
        LettingBeShrinks(c, s, a.server);
        ShrinkingLowersRank(s, a.server);
      }
    }
  }

  predicate Resting(c: Config, w: World) {
    Inv(c, w) && Uninstalling(c, w.server) && w.control.Idle?
  }

  lemma RoundsRest(c: Config, w: World, actions: seq<Action>)
    requires Resting(c, w) && IsRound(c, w, actions)
    ensures var t := AfterRound(c, w, actions); Resting(c, t) && Rank(t.server) <= Rank(w.server)
  {
    StepKeepsInv(c, w, Trigger);
    RankNeverRises(c, Step(c, w, Trigger), actions);
  }

  /** What was waited for in `s` is gone in `t`. */
  predicate Relieved(s: Server, t: Server) {
    && (s.storageCluster.Some? && s.storageCluster.value.finalizers != [] ==> t.storageCluster.None?)
    && (s.storageCluster.None? && s.managedOCS.Some? && !Carries(s) ==> t.managedOCS.None?)
  }

  /** In this round no call failed, and before its end others did all that it had to wait for. */
  predicate Served(c: Config, w: World, actions: seq<Action>) {
    var start := Step(c, w, Trigger);
    && SmoothRun(c, start, actions)
    && forall k :: 0 <= k <= |actions| ==> Relieved(ServerAt(c, start, actions, k), AfterRound(c, w, actions).server)
  }

  lemma {:induction false} ServersShrink(c: Config, w: World, actions: seq<Action>, k: nat)
    requires Triggered(c, w) && SmoothRun(c, w, actions) && k <= |actions|
    ensures Shrinks(w.server, ServerAt(c, w, actions, k))
    ensures Shrinks(ServerAt(c, w, actions, k), Run(c, w, actions).server)
    decreases |actions|
  {
    var n := |actions| - 1;
    if k == |actions| {
      assert actions[..k] == actions;
      SmoothRunIsUnderway(c, w, actions);
    } else {
      var before := actions[..n];
      assert before[..k] == actions[..k];
      ServersShrink(c, w, before, k);
      SmoothRunIsUnderway(c, w, before);
      SmoothStep(c, w.server, Run(c, w, before), actions[n]);
    }
  }

  lemma ServedRoundLowersRank(c: Config, w: World, actions: seq<Action>)
    requires Resting(c, w) && IsRound(c, w, actions) && Served(c, w, actions)
    ensures var t := AfterRound(c, w, actions).server; Rank(t) < Rank(w.server) || Rank(t) == 0
  {
    var start, t := Step(c, w, Trigger), AfterRound(c, w, actions).server;
    StepKeepsInv(c, w, Trigger);
    SmoothReconcileMakesProgress(c, start, actions);
    if EverWaits(c, start, actions) {
      var k :| 0 <= k <= |actions| && Waiting(ServerAt(c, start, actions, k));
      var s := ServerAt(c, start, actions, k);
      ServersShrink(c, start, actions, k);
      ShrinkingLowersRank(w.server, s);
      ShrinkingLowersRank(s, t);
      assert Relieved(s, t);
    }
  }

  /** In particular it is served if no call failed and there was never anything to wait for. */
  lemma FreeIsServed(c: Config, w: World, actions: seq<Action>)
    requires SmoothRun(c, Step(c, w, Trigger), actions) && !EverWaits(c, Step(c, w, Trigger), actions)
    ensures Served(c, w, actions)
  {
    var start := Step(c, w, Trigger);
    forall k | 0 <= k <= |actions|
      ensures Relieved(ServerAt(c, start, actions, k), AfterRound(c, w, actions).server)
    {
      assert !Waiting(ServerAt(c, start, actions, k));
    }
  }

  function ServedRounds(c: Config, w: World, rounds: seq<seq<Action>>): nat
    decreases |rounds|
  {
    if rounds == [] then 0
    else
      var before := rounds[..|rounds| - 1];
      ServedRounds(c, w, before) + if Served(c, AfterRounds(c, w, before), rounds[|rounds| - 1]) then 1 else 0
  }

  /** Every served round takes something away, whatever the rounds in between were like, with failing calls and with
      waiting. */
  lemma {:induction false} ServedRoundsLowerRank(c: Config, w: World, rounds: seq<seq<Action>>)
    requires Resting(c, w) && AllRounds(c, w, rounds)
    ensures var last := AfterRounds(c, w, rounds);
            && Resting(c, last) && Rank(last.server) <= Rank(w.server)
            && (Rank(last.server) == 0 || Rank(last.server) + ServedRounds(c, w, rounds) <= Rank(w.server))
    decreases |rounds|
  {
    if rounds != [] {
      var before, round := rounds[..|rounds| - 1], rounds[|rounds| - 1];
      ServedRoundsLowerRank(c, w, before);
      RoundsRest(c, AfterRounds(c, w, before), round);
      if Served(c, AfterRounds(c, w, before), round) {
        ServedRoundLowersRank(c, AfterRounds(c, w, before), round);
      }
    }
  }

  /** The uninstallation ends: among any rounds, as many served ones as there are things left are enough. */
  lemma UninstallEnds(c: Config, w: World, rounds: seq<seq<Action>>)
    requires Resting(c, w) && AllRounds(c, w, rounds)
    requires Rank(w.server) <= ServedRounds(c, w, rounds)
    ensures Gone(AfterRounds(c, w, rounds).server)
  {
    ServedRoundsLowerRank(c, w, rounds);
    GoneIsRankZero(AfterRounds(c, w, rounds).server);
  }
}
