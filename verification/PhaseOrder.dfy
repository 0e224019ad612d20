/** In every run, the resource phases are called one after the other, each after the success of the one before it, and
    a reconcile that got to them and reports no error has called all of them. */
module PhaseOrder {
  import opened Phases
  import opened Server
  import opened Controller
  import opened Safety
  import History
  import opened Episodes

  /** The phase that call i begins, if it begins one. The phase of the StorageCluster begins with a look at it; the
      third call, for its status, is not meant. */
  function Begins(i: nat, x: Exchange): int {
    if x.request.ReconcilePhase? then x.request.index
    else if x.request.GetStorageCluster? && i != 2 then 3
    else -1
  }

  predicate Succeeds(x: Exchange) {
    x.response.Done? || x.response.FoundStorageCluster? || x.response.Missing?
  }

  predicate CalledIn(episode: seq<Exchange>, k: nat) {
    exists i :: 0 <= i < |episode| && Begins(i, episode[i]) == k && Succeeds(episode[i])
  }

  /** The phases before n were called with success, and no others were called. */
  predicate Called(episode: seq<Exchange>, n: nat) {
    && (forall k: nat :: k < n ==> CalledIn(episode, k))
    && (forall i :: 0 <= i < |episode| ==> Begins(i, episode[i]) < n)
  }

  /** No phase is called before an earlier one, or twice. */
  predicate InOrder(episode: seq<Exchange>) {
    forall i, j :: 0 <= i < j < |episode| && 0 <= Begins(i, episode[i]) && 0 <= Begins(j, episode[j]) ==>
      Begins(i, episode[i]) < Begins(j, episode[j])
  }

  predicate ParamsRead(episode: seq<Exchange>) {
    exists i :: 0 <= i < |episode| && episode[i].request.GetAddonParams? && episode[i].response.FoundParams?
  }

  predicate CalledAt(episode: seq<Exchange>, point: Point) {
    match point
    case SaveStatus(outcome) => outcome != Error && ParamsRead(episode) ==> Called(episode, PHASE_COUNT)
    case Resources(index) => 3 <= |episode| && index != 3 && index < PHASE_COUNT && Called(episode, index)
    case LoadStorageCluster => 3 <= |episode| && Called(episode, 3)
    case WriteStorageCluster(_) => 3 <= |episode| && Called(episode, 4)
    case StatusOfStorageCluster => |episode| == 2 && !ParamsRead(episode) && Called(episode, 0)
    case CheckDeleteLabel => |episode| == 1 && !ParamsRead(episode) && Called(episode, 0)
    case LoadManagedOCS => episode == []
    case _ =>
      && 3 <= |episode|
      && if InstallPoint(point) && !point.LoadParams? then Called(episode, PHASE_COUNT)
         else !ParamsRead(episode) && Called(episode, 0)
  }

  predicate PhaseInv(episode: seq<Exchange>, control: Control) {
    && InOrder(episode)
    && match control
       case Starting => forall i :: 0 <= i < |episode| ==> episode[i].request.CreateManagedOCS?
       case Idle(outcome) => outcome != Error && ParamsRead(episode) ==> Called(episode, PHASE_COUNT)
       case At(point, _) => CalledAt(episode, point)
  }

  // ---- one more call ----

  lemma CalledGrows(episode: seq<Exchange>, x: Exchange, k: nat)
    requires CalledIn(episode, k)
    ensures CalledIn(episode + [x], k)
  {
    var i :| 0 <= i < |episode| && Begins(i, episode[i]) == k && Succeeds(episode[i]);
    assert (episode + [x])[i] == episode[i];
  }

  lemma OthersBeginNothing(episode: seq<Exchange>, x: Exchange, n: nat)
    requires InOrder(episode) && Begins(|episode|, x) < 0
    ensures InOrder(episode + [x])
    ensures Called(episode, n) ==> Called(episode + [x], n)
  {
    var longer := episode + [x];
    assert longer[|episode|] == x && forall i :: 0 <= i < |episode| ==> longer[i] == episode[i];
    if Called(episode, n) {
      forall k: nat | k < n
        ensures CalledIn(longer, k)
      {
        CalledGrows(episode, x, k);
      }
    }
  }

  lemma NextBegins(episode: seq<Exchange>, x: Exchange, n: nat)
    requires InOrder(episode) && Called(episode, n) && Begins(|episode|, x) == n
    ensures InOrder(episode + [x])
    ensures Succeeds(x) ==> Called(episode + [x], n + 1)
  {
    var longer := episode + [x];
    assert longer[|episode|] == x && forall i :: 0 <= i < |episode| ==> longer[i] == episode[i];
    if Succeeds(x) {
      assert CalledIn(longer, n);
      forall k: nat | k < n
        ensures CalledIn(longer, k)
      {
        CalledGrows(episode, x, k);
      }
    }
  }

  lemma ParamsReadGrows(episode: seq<Exchange>, x: Exchange)
    ensures ParamsRead(episode + [x]) <==>
      ParamsRead(episode) || (x.request.GetAddonParams? && x.response.FoundParams?)
  {
    var longer := episode + [x];
    assert longer[|episode|] == x && forall i :: 0 <= i < |episode| ==> longer[i] == episode[i];
    if ParamsRead(episode) {
      var i :| 0 <= i < |episode| && episode[i].request.GetAddonParams? && episode[i].response.FoundParams?;
      assert longer[i] == episode[i];
    }
  }

  /** What may come when all phases have been called. */
  predicate AtTheGuard(control: Control) {
    match control
    case Starting => false
    case Idle(_) => true
    case At(point, _) => point.SaveStatus? || History.GuardPoint(point) || point.ReloadManagedOCS?
  }

  lemma AllCalled(episode: seq<Exchange>, control: Control)
    requires InOrder(episode) && 3 <= |episode| && Called(episode, PHASE_COUNT) && AtTheGuard(control)
    ensures PhaseInv(episode, control)
  {
  }

  lemma AfterPhasesGoesOn(c: Config, l: Locals)
    ensures AtTheGuard(AfterPhases(c, l))
  {
  }

  lemma EnterPhaseCalls(c: Config, episode: seq<Exchange>, l: Locals, index: nat)
    requires InOrder(episode) && 3 <= |episode| && index <= PHASE_COUNT && Called(episode, index)
    ensures PhaseInv(episode, EnterPhase(c, l, index))
  {
    if index == PHASE_COUNT {
      AfterPhasesGoesOn(c, l);
      AllCalled(episode, AfterPhases(c, l));
    }
  }

  lemma PhaseStep(c: Config, episode: seq<Exchange>, index: nat, l: Locals, x: Exchange)
    requires PhaseInv(episode, At(Resources(index), l)) && x.request == ReconcilePhase(index)
    ensures PhaseInv(episode + [x], Resume(c, Resources(index), l, x.response))
  {
    NextBegins(episode, x, index);
    if x.response.Done? {
      EnterPhaseCalls(c, episode + [x], l, index + 1);
    }
  }

  lemma StorageClusterReadCalls(c: Config, episode: seq<Exchange>, l: Locals, found: bool)
    requires InOrder(episode) && 3 <= |episode| && Called(episode, 4)
    ensures PhaseInv(episode, StorageClusterRead(c, l, found))
  {
    EnterPhaseCalls(c, episode, l, 4);
  }

  lemma LoadStorageClusterStep(c: Config, episode: seq<Exchange>, l: Locals, x: Exchange)
    requires PhaseInv(episode, At(LoadStorageCluster, l)) && x.request == GetStorageCluster
    ensures PhaseInv(episode + [x], Resume(c, LoadStorageCluster, l, x.response))
  {
    NextBegins(episode, x, 3);
    if x.response.FoundStorageCluster? {
      StorageClusterReadCalls(c, episode + [x], l.(storageCluster := x.response.storageCluster), true);
    } else if x.response.Missing? {
      StorageClusterReadCalls(c, episode + [x], l, false);
    }
  }

  lemma WriteStorageClusterStep(c: Config, episode: seq<Exchange>, create: bool, l: Locals, x: Exchange)
    requires PhaseInv(episode, At(WriteStorageCluster(create), l))
    requires x.request == RequestAt(c, WriteStorageCluster(create), l)
    ensures PhaseInv(episode + [x], Resume(c, WriteStorageCluster(create), l, x.response))
  {
    OthersBeginNothing(episode, x, 4);
    if x.response.FoundStorageCluster? {
      EnterPhaseCalls(c, episode + [x], l.(storageCluster := x.response.storageCluster), 4);
    }
  }

  lemma LoadParamsStep(c: Config, episode: seq<Exchange>, l: Locals, x: Exchange)
    requires PhaseInv(episode, At(LoadParams, l)) && x.request == GetAddonParams
    ensures PhaseInv(episode + [x], Resume(c, LoadParams, l, x.response))
  {
    OthersBeginNothing(episode, x, 0);
    if x.response.FoundParams? {
      EnterPhaseCalls(c, episode + [x], l.(strategy := EffectiveStrategy(l.managedOCS),
                                           params := EffectiveParams(c, x.response.params)), 0);
    }
  }

  /** The points of the branches that never get to the phases. */
  predicate Aside(point: Point) {
    !InstallPoint(point) && !point.SaveStatus?
  }

  lemma EarlyGoesOn(c: Config, point: Point, l: Locals, r: Response)
    requires EarlyPoint(point)
    ensures var next := Resume(c, point, l, r);
            && !next.Starting?
            && (next.At? ==>
                  && (Aside(next.point) || next.point.LoadParams? || next.point.SaveStatus?)
                  && !next.point.LoadManagedOCS?)
            && (next.At? && next.point.CheckDeleteLabel? ==> point.LoadManagedOCS?)
            && (next.At? && next.point.StatusOfStorageCluster? ==> point.CheckDeleteLabel?)
  {
  }

  lemma AsideGoesOn(c: Config, point: Point, l: Locals, r: Response)
    requires Aside(point) && !EarlyPoint(point)
    ensures var next := Resume(c, point, l, r);
            && !next.Starting?
            && (next.At? ==>
                  (Aside(next.point) || next.point.LoadParams? || next.point.SaveStatus?) && !EarlyPoint(next.point))
  {
  }

  lemma AsideStep(c: Config, episode: seq<Exchange>, point: Point, l: Locals, x: Exchange)
    requires PhaseInv(episode, At(point, l)) && x.request == RequestAt(c, point, l) && Aside(point)
    ensures PhaseInv(episode + [x], Resume(c, point, l, x.response))
  {
    NothingYet(episode, point);
    OthersBeginNothing(episode, x, 0);
    ParamsReadGrows(episode, x);
    if EarlyPoint(point) {
      EarlyGoesOn(c, point, l, x.response);
    } else {
      AsideGoesOn(c, point, l, x.response);
    }
  }

  lemma NothingYet(episode: seq<Exchange>, point: Point)
    requires CalledAt(episode, point) && Aside(point)
    ensures !ParamsRead(episode) && Called(episode, 0)
  {
  }

  lemma GuardGoesOn(c: Config, point: Point, l: Locals, r: Response)
    requires History.GuardPoint(point) || point.ReloadManagedOCS?
    ensures AtTheGuard(Resume(c, point, l, r))
    ensures !RequestAt(c, point, l).ReconcilePhase? && !RequestAt(c, point, l).GetStorageCluster?
  {
  }

  lemma GuardStep(c: Config, episode: seq<Exchange>, point: Point, l: Locals, x: Exchange)
    requires PhaseInv(episode, At(point, l)) && x.request == RequestAt(c, point, l)
    requires History.GuardPoint(point) || point.ReloadManagedOCS?
    ensures PhaseInv(episode + [x], Resume(c, point, l, x.response))
  {
    GuardGoesOn(c, point, l, x.response);
    OthersBeginNothing(episode, x, PHASE_COUNT);
    AllCalled(episode + [x], Resume(c, point, l, x.response));
  }

  lemma SaveStep(c: Config, episode: seq<Exchange>, outcome: Outcome, l: Locals, x: Exchange)
    requires PhaseInv(episode, At(SaveStatus(outcome), l)) && x.request.UpdateManagedOCSStatus?
    ensures PhaseInv(episode + [x], Resume(c, SaveStatus(outcome), l, x.response))
  {
    OthersBeginNothing(episode, x, PHASE_COUNT);
    ParamsReadGrows(episode, x);
  }

  lemma InstallStep(c: Config, episode: seq<Exchange>, point: Point, l: Locals, x: Exchange)
    requires PhaseInv(episode, At(point, l)) && x.request == RequestAt(c, point, l)
    requires point.LoadParams? || point.Resources? || point.LoadStorageCluster? || point.WriteStorageCluster?
    ensures PhaseInv(episode + [x], Resume(c, point, l, x.response))
  {
    if point.LoadParams? {
      LoadParamsStep(c, episode, l, x);
    } else if point.Resources? {
      PhaseStep(c, episode, point.index, l, x);
    } else if point.LoadStorageCluster? {
      LoadStorageClusterStep(c, episode, l, x);
    } else {
      WriteStorageClusterStep(c, episode, point.create, l, x);
    }
  }

  lemma CallStep(c: Config, episode: seq<Exchange>, point: Point, l: Locals, x: Exchange)
    requires PhaseInv(episode, At(point, l)) && x.request == RequestAt(c, point, l)
    ensures PhaseInv(episode + [x], Resume(c, point, l, x.response))
  {
    if Aside(point) {
      AsideStep(c, episode, point, l, x);
    } else if point.SaveStatus? {
      SaveStep(c, episode, point.outcome, l, x);
    } else if History.GuardPoint(point) || point.ReloadManagedOCS? {
      GuardStep(c, episode, point, l, x);
    } else {
      InstallStep(c, episode, point, l, x);
    }
  }

  lemma StartStep(c: Config, w: World, delivery: Delivery)
    requires PhaseInv(w.episode, w.control) && w.control.Starting?
    ensures var next := Step(c, w, Call(delivery)); PhaseInv(next.episode, next.control)
  {
    var next := Step(c, w, Call(delivery));
    assert forall i :: 0 <= i < |next.episode| ==> next.episode[i].request.CreateManagedOCS?;
    assert !ParamsRead(next.episode);
  }

  // ---- every run ----

  lemma {:induction false} RunKeepsPhaseInv(c: Config, w: World, actions: seq<Action>)
    requires Initial(w)
    ensures var now := Run(c, w, actions); PhaseInv(now.episode, now.control)
    decreases |actions|
  {
    if actions != [] {
      var before, a := actions[..|actions| - 1], actions[|actions| - 1];
      RunKeepsPhaseInv(c, w, before);
      var now := Run(c, w, before);
      if a.Call? && now.control.Starting? {
        StartStep(c, now, a.delivery);
      } else if a.Call? && now.control.At? {
        var q := RequestAt(c, now.control.point, now.control.locals);
        CallStep(c, now.episode, now.control.point, now.control.locals,
                 Exchange(now.server, q, Heard(now.server, q, a.delivery)));
      }
    }
  }

  /** In every run: no phase is called before an earlier one, or twice; a phase is called only after all before it
      have succeeded; and a reconcile that read the parameters and reports no error has called all 22. */
  lemma PhasesAreCalledInOrder(c: Config, w: World, actions: seq<Action>)
    requires Initial(w)
    ensures var now := Run(c, w, actions);
            && InOrder(now.episode)
            && (now.control.At? && NextRequest(c, now.control).ReconcilePhase? ==>
                  Called(now.episode, NextRequest(c, now.control).index))
            && (now.control.Idle? && now.control.last != Error && ParamsRead(now.episode) ==> Called(now.episode, 22))
  {
    RunKeepsPhaseInv(c, w, actions);
    var now := Run(c, w, actions);
    if now.control.At? && NextRequest(c, now.control).ReconcilePhase? {
      OnlyResourcesCall(c, now.control.point, now.control.locals);
    }
  }

  lemma OnlyResourcesCall(c: Config, point: Point, l: Locals)
    ensures RequestAt(c, point, l).ReconcilePhase? ==> point == Resources(RequestAt(c, point, l).index)
  {
  }
}
