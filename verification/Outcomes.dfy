/** What a reconcile reports, in every run: an error exactly if a call went wrong that must not, or the parameters were
    needed and could not be read; another try exactly if the storage was seen in use; and success otherwise. */
module Outcomes {
  import opened Prelude
  import opened StorageClusters
  import opened Phases
  import opened Server
  import opened Controller
  import opened Safety
  import opened History
  import opened Installation
  import opened Episodes
  import opened Guard

  // ---- what goes wrong ----

  /** The label check and the status of the components only look; at the StorageCluster, the third call does. */
  predicate OnlyLooks(i: nat, q: Request) {
    || q.GetAddonConfigMap? || q.GetPrometheus? || q.GetPrometheusSet? || q.GetAlertmanager? || q.GetAlertmanagerSet?
    || (q.GetStorageCluster? && i == 2)
    || q.CreateManagedOCS?
  }

  /** The call fails, or does not find what it needs, or finds what it is to create. */
  predicate Wrong(i: nat, x: Exchange) {
    var q, r := x.request, x.response;
    || (r.Failed? && !OnlyLooks(i, q))
    || (r.Missing? &&
        (q.GetAddonParams? || q.UpdateManagedOCS? || q.UpdateManagedOCSStatus? || q.UpdateStorageCluster?))
    || (r.AlreadyExists? && q.CreateStorageCluster?)
  }

  predicate AnyWrong(episode: seq<Exchange>) {
    exists i :: 0 <= i < |episode| && Wrong(i, episode[i])
  }

  predicate FindsParams(x: Exchange) {
    x.request.GetAddonParams? && x.response.FoundParams?
  }

  /** The last ManagedOCS that was read before call i has this strategy. */
  predicate StrategyBefore(episode: seq<Exchange>, i: nat, strategy: string) {
    exists j :: 0 <= j < i <= |episode|
      && episode[j].response.FoundManagedOCS? && episode[j].response.managedOCS.strategy == strategy
      && forall k :: j < k < i ==> !episode[k].response.FoundManagedOCS?
  }

  predicate StrictBefore(episode: seq<Exchange>, i: nat) {
    exists j :: 0 <= j < i <= |episode|
      && episode[j].response.FoundManagedOCS? && !AsksForNone(episode[j].response.managedOCS.strategy)
      && forall k :: j < k < i ==> !episode[k].response.FoundManagedOCS?
  }

  /** The parameters are needed, and something is the matter with them. */
  predicate Unreadable(c: Config, episode: seq<Exchange>, i: nat)
    requires i < |episode|
  {
    FindsParams(episode[i]) && !Readable(c.deployment, episode[i].response.params) && StrictBefore(episode, i)
  }

  predicate AnyUnreadable(c: Config, episode: seq<Exchange>) {
    exists i :: 0 <= i < |episode| && Unreadable(c, episode, i)
  }

  // ---- what is in use ----

  predicate ListsConsumers(x: Exchange) {
    x.request.ListConsumers? && x.response.FoundNames? && x.response.names != []
  }

  /** A volume has a class whose provisioner starts with the namespace. */
  predicate ListsVolumes(c: Config, x: Exchange, y: Exchange) {
    && x.request.ListStorageClasses? && x.response.FoundClasses? && y.request.ListVolumes? && y.response.FoundNames?
    && exists k :: k in x.response.classes && HasPrefix(k.provisioner, c.namespace) && k.name in y.response.names
  }

  predicate SawUse(c: Config, episode: seq<Exchange>) {
    || (exists i :: 0 <= i < |episode| && ListsConsumers(episode[i]))
    || (exists i, j :: 0 <= i < j < |episode| && ListsVolumes(c, episode[i], episode[j]))
  }

  // ---- the outcome ----

  predicate Tells(c: Config, episode: seq<Exchange>, outcome: Outcome) {
    match outcome
    case Error => AnyWrong(episode) || AnyUnreadable(c, episode)
    case Requeue => !AnyWrong(episode) && !AnyUnreadable(c, episode) && SawUse(c, episode)
    case Completed => !AnyWrong(episode) && !AnyUnreadable(c, episode) && !SawUse(c, episode)
  }

  predicate NoParams(episode: seq<Exchange>) {
    forall i :: 0 <= i < |episode| ==> !FindsParams(episode[i])
  }

  /** Strategy and parameters are those of call i. */
  predicate WorksWith(c: Config, episode: seq<Exchange>, l: Locals, i: nat)
    requires i < |episode|
  {
    && FindsParams(episode[i]) && l.params == EffectiveParams(c, episode[i].response.params)
    && (l.strategy.Strict? <==> StrictBefore(episode, i))
    && forall j :: 0 <= j < |episode| && j != i ==> !FindsParams(episode[j])
  }

  predicate Works(c: Config, episode: seq<Exchange>, l: Locals) {
    exists i :: 0 <= i < |episode| && WorksWith(c, episode, l, i)
  }

  predicate RemovalPoint(point: Point) {
    FinalizerPoint(point) || TeardownPoint(point) || DeployerPoint(point) || point.AddFinalizer?
  }

  /** What is known of the parameters: nothing yet, or how they were read, or that they make sense. */
  predicate ParamsAt(c: Config, episode: seq<Exchange>, point: Point, l: Locals) {
    if point.LoadParams? || point.AddFinalizer? then
      NoParams(episode) && StrategyBefore(episode, |episode|, l.managedOCS.strategy)
    else if EarlyPoint(point) then
      NoParams(episode) && (l.managedOCS.uid != 0 ==> StrategyBefore(episode, |episode|, l.managedOCS.strategy))
    else if RemovalPoint(point) then NoParams(episode)
    else if point.LoadStorageCluster? || (point.Resources? && point.index < 4) then Works(c, episode, l)
    else !AnyUnreadable(c, episode)
  }

  predicate ListsClasses(c: Config, x: Exchange, classes: set<string>) {
    x.request.ListStorageClasses? && x.response.FoundClasses? && OCSClasses(c.namespace, x.response.classes) == classes
  }

  /** The storage classes were listed, and nothing else that tells about their use. */
  predicate OnlyClassesListed(c: Config, episode: seq<Exchange>, classes: set<string>) {
    && (exists i :: 0 <= i < |episode| && ListsClasses(c, episode[i], classes))
    && (forall i :: 0 <= i < |episode| && Looks(episode[i].request) ==> ListsClasses(c, episode[i], classes))
  }

  predicate LookedAt(c: Config, episode: seq<Exchange>, point: Point, l: Locals) {
    if point.ListPVs? then OnlyClassesListed(c, episode, l.ocsClasses)
    else if point.RemoveManagedOCS? || point.ReloadManagedOCS? then !SawUse(c, episode)
    else NeverLooked(episode)
  }

  predicate CallsMade(episode: seq<Exchange>, point: Point) {
    match point
    case LoadManagedOCS => episode == []
    case CheckDeleteLabel => |episode| == 1
    case StatusOfStorageCluster => |episode| == 2
    case _ => 3 <= |episode|
  }

  predicate OnTheWay(c: Config, episode: seq<Exchange>, point: Point, l: Locals) {
    && !AnyWrong(episode) && CallsMade(episode, point) && LookedAt(c, episode, point, l)
    && ParamsAt(c, episode, point, l)
  }

  predicate OutcomeInv(c: Config, episode: seq<Exchange>, control: Control) {
    match control
    case Starting => forall i :: 0 <= i < |episode| ==> episode[i].request.CreateManagedOCS?
    case Idle(outcome) => Tells(c, episode, outcome)
    case At(point, l) =>
      if point.SaveStatus? then Tells(c, episode, point.outcome) else OnTheWay(c, episode, point, l)
  }

  // ---- one more call ----

  lemma WrongGrows(episode: seq<Exchange>, x: Exchange)
    ensures AnyWrong(episode + [x]) <==> AnyWrong(episode) || Wrong(|episode|, x)
  {
    var longer := episode + [x];
    assert longer[|episode|] == x && forall i :: 0 <= i < |episode| ==> longer[i] == episode[i];
    if AnyWrong(episode) {
      var i :| 0 <= i < |episode| && Wrong(i, episode[i]);
      assert Wrong(i, longer[i]);
    }
  }

  lemma StrictGrows(episode: seq<Exchange>, x: Exchange, i: nat)
    requires i <= |episode|
    ensures StrictBefore(episode + [x], i) <==> StrictBefore(episode, i)
  {
    var longer := episode + [x];
    assert forall j :: 0 <= j < |episode| ==> longer[j] == episode[j];
    if j :| 0 <= j < i
            && episode[j].response.FoundManagedOCS? && !AsksForNone(episode[j].response.managedOCS.strategy)
            && forall k :: j < k < i ==> !episode[k].response.FoundManagedOCS? {
      assert longer[j] == episode[j];
    }
  }

  /** Only reading the parameters can show that they cannot be read. */
  lemma UnreadableGrows(c: Config, episode: seq<Exchange>, x: Exchange)
    requires !FindsParams(x)
    ensures AnyUnreadable(c, episode + [x]) <==> AnyUnreadable(c, episode)
  {
    var longer := episode + [x];
    assert longer[|episode|] == x;
    forall i | 0 <= i < |episode|
      ensures Unreadable(c, longer, i) <==> Unreadable(c, episode, i)
    {
      StrictGrows(episode, x, i);
    }
    if i :| 0 <= i < |episode| && Unreadable(c, episode, i) {
      assert Unreadable(c, longer, i);
    }
  }

  lemma NoParamsGrow(c: Config, episode: seq<Exchange>, x: Exchange)
    requires NoParams(episode) && !FindsParams(x)
    ensures NoParams(episode + [x]) && !AnyUnreadable(c, episode + [x])
  {
    assert forall i :: 0 <= i < |episode| ==> (episode + [x])[i] == episode[i];
  }

  lemma StrategyGrows(episode: seq<Exchange>, x: Exchange, strategy: string)
    ensures !x.response.FoundManagedOCS? && StrategyBefore(episode, |episode|, strategy) ==>
              StrategyBefore(episode + [x], |episode| + 1, strategy)
    ensures x.response.FoundManagedOCS? ==>
              StrategyBefore(episode + [x], |episode| + 1, x.response.managedOCS.strategy)
  {
    var longer := episode + [x];
    assert longer[|episode|] == x && forall j :: 0 <= j < |episode| ==> longer[j] == episode[j];
    if StrategyBefore(episode, |episode|, strategy) {
      var j :| 0 <= j < |episode|
               && episode[j].response.FoundManagedOCS? && episode[j].response.managedOCS.strategy == strategy
               && forall k :: j < k < |episode| ==> !episode[k].response.FoundManagedOCS?;
      assert longer[j] == episode[j];
    }
  }

  lemma WorksGrows(c: Config, episode: seq<Exchange>, x: Exchange, l: Locals)
    requires Works(c, episode, l) && !FindsParams(x)
    ensures Works(c, episode + [x], l)
  {
    var longer := episode + [x];
    assert longer[|episode|] == x && forall j :: 0 <= j < |episode| ==> longer[j] == episode[j];
    var i :| 0 <= i < |episode| && WorksWith(c, episode, l, i);
    StrictGrows(episode, x, i);
    assert WorksWith(c, longer, l, i);
  }

  lemma StrictIff(episode: seq<Exchange>, i: nat, strategy: string)
    requires StrategyBefore(episode, i, strategy)
    ensures StrictBefore(episode, i) <==> !AsksForNone(strategy)
  {
    var j :| 0 <= j < i <= |episode|
             && episode[j].response.FoundManagedOCS? && episode[j].response.managedOCS.strategy == strategy
             && forall k :: j < k < i ==> !episode[k].response.FoundManagedOCS?;
    if StrictBefore(episode, i) {
      var h :| 0 <= h < i
               && episode[h].response.FoundManagedOCS? && !AsksForNone(episode[h].response.managedOCS.strategy)
               && forall k :: h < k < i ==> !episode[k].response.FoundManagedOCS?;
      assert h == j;
    }
  }

  lemma WorkBegins(c: Config, episode: seq<Exchange>, x: Exchange, l: Locals, l': Locals)
    requires NoParams(episode) && StrategyBefore(episode, |episode|, l.managedOCS.strategy) && FindsParams(x)
    requires l'.strategy == EffectiveStrategy(l.managedOCS) && l'.params == EffectiveParams(c, x.response.params)
    ensures Works(c, episode + [x], l')
  {
    var longer := episode + [x];
    assert longer[|episode|] == x && forall j :: 0 <= j < |episode| ==> longer[j] == episode[j];
    StrictIff(episode, |episode|, l.managedOCS.strategy);
    StrictGrows(episode, x, |episode|);
    StrategyMeaning(l.managedOCS);
    assert WorksWith(c, longer, l', |episode|);
  }

  /** The spec can be worked out exactly if the parameters are not needed or make sense. */
  lemma WorkIsReadable(c: Config, episode: seq<Exchange>, l: Locals)
    requires Works(c, episode, l)
    ensures Mutated(c.deployment, l.strategy, l.params, l.storageCluster.spec).Err? <==> AnyUnreadable(c, episode)
  {
    var i :| 0 <= i < |episode| && WorksWith(c, episode, l, i);
    StrictSpecMeaning(c, episode[i].response.params, l.storageCluster.spec);
    assert AnyUnreadable(c, episode) <==> Unreadable(c, episode, i);
  }

  lemma LooksGrow(episode: seq<Exchange>, x: Exchange)
    requires NeverLooked(episode) && !Looks(x.request)
    ensures NeverLooked(episode + [x])
  {
    assert forall i :: 0 <= i < |episode| ==> (episode + [x])[i] == episode[i];
  }

  /** A call that does not look tells nothing about the use. */
  lemma UseGrows(c: Config, episode: seq<Exchange>, x: Exchange)
    requires !Looks(x.request)
    ensures SawUse(c, episode + [x]) <==> SawUse(c, episode)
  {
    var longer := episode + [x];
    assert longer[|episode|] == x && forall i :: 0 <= i < |episode| ==> longer[i] == episode[i];
    if i :| 0 <= i < |episode| && ListsConsumers(episode[i]) {
      assert ListsConsumers(longer[i]);
    }
    if i, j :| 0 <= i < j < |episode| && ListsVolumes(c, episode[i], episode[j]) {
      assert ListsVolumes(c, longer[i], longer[j]);
    }
  }

  lemma NotLookedNotSeen(c: Config, episode: seq<Exchange>)
    requires NeverLooked(episode)
    ensures !SawUse(c, episode)
  {
  }

  // ---- where an answer leads ----

  predicate Ends(control: Control, outcome: Outcome) {
    control == Idle(outcome) || (control.At? && control.point == SaveStatus(outcome))
  }

  lemma EndTells(c: Config, episode: seq<Exchange>, control: Control, outcome: Outcome)
    requires Ends(control, outcome) && Tells(c, episode, outcome)
    ensures OutcomeInv(c, episode, control)
  {
  }

  lemma WrongEarly(c: Config, n: nat, point: Point, l: Locals, x: Exchange)
    requires EarlyPoint(point) && x.request == RequestAt(c, point, l) && Wrong(n, x)
    requires point.StatusOfStorageCluster? ==> n == 2
    ensures Ends(Resume(c, point, l, x.response), Error)
  {
  }

  lemma WrongLate(c: Config, n: nat, point: Point, l: Locals, x: Exchange)
    requires !EarlyPoint(point) && x.request == RequestAt(c, point, l) && Wrong(n, x)
    ensures Ends(Resume(c, point, l, x.response), Error)
  {
  }

  lemma WrongStep(c: Config, episode: seq<Exchange>, point: Point, l: Locals, x: Exchange)
    requires OutcomeInv(c, episode, At(point, l)) && x.request == RequestAt(c, point, l) && Wrong(|episode|, x)
    ensures OutcomeInv(c, episode + [x], Resume(c, point, l, x.response))
  {
    WrongGrows(episode, x);
    if EarlyPoint(point) {
      WrongEarly(c, |episode|, point, l, x);
    } else {
      WrongLate(c, |episode|, point, l, x);
    }
    EndTells(c, episode + [x], Resume(c, point, l, x.response), Error);
  }

  /** At most the branch has been taken, or the reconcile is on a branch that takes something down. */
  predicate Plain(point: Point) {
    && !point.SaveStatus? && !point.Resources? && !point.LoadStorageCluster? && !point.WriteStorageCluster?
    && !point.ListPVs? && !point.RemoveManagedOCS? && !point.ReloadManagedOCS?
  }

  lemma PlainTells(c: Config, episode: seq<Exchange>, point: Point, l: Locals, x: Exchange, next: Control)
    requires OnTheWay(c, episode, point, l) && Plain(point) && !Looks(x.request) && !Wrong(|episode|, x)
    requires NoParams(episode) && !FindsParams(x)
    requires
      || Ends(next, Completed)
      || (next.At? && Plain(next.point) && CallsMade(episode + [x], next.point)
          && (NoParams(episode + [x]) ==> ParamsAt(c, episode + [x], next.point, next.locals)))
    ensures OutcomeInv(c, episode + [x], next)
  {
    WrongGrows(episode, x);
    LooksGrow(episode, x);
    NotLookedNotSeen(c, episode + [x]);
    NoParamsGrow(c, episode, x);
  }

  /** The strategy in memory is the one that was read last. */
  lemma EarlyParams(c: Config, episode: seq<Exchange>, point: Point, l: Locals, x: Exchange)
    requires OnTheWay(c, episode, point, l) && EarlyPoint(point) && x.request == RequestAt(c, point, l) && Honest(x)
    requires NoParams(episode + [x])
    requires point.LoadManagedOCS? ==> l == NO_LOCALS
    ensures var next := Resume(c, point, l, x.response);
            next.At? && !next.point.SaveStatus? ==> ParamsAt(c, episode + [x], next.point, next.locals)
  {
    StrategyGrows(episode, x, l.managedOCS.strategy);
  }

  lemma EarlyRight(c: Config, episode: seq<Exchange>, point: Point, l: Locals, x: Exchange)
    requires OnTheWay(c, episode, point, l) && EarlyPoint(point) && (point.LoadManagedOCS? ==> l == NO_LOCALS)
    requires x.request == RequestAt(c, point, l) && Honest(x) && !Wrong(|episode|, x)
    ensures OutcomeInv(c, episode + [x], Resume(c, point, l, x.response))
  {
    NoParamsGrow(c, episode, x);
    EarlyParams(c, episode, point, l, x);
    EarlyNext(c, episode, point, l, x);
    PlainTells(c, episode, point, l, x, Resume(c, point, l, x.response));
  }

  lemma EarlyNext(c: Config, episode: seq<Exchange>, point: Point, l: Locals, x: Exchange)
    requires CallsMade(episode, point) && EarlyPoint(point)
    requires x.request == RequestAt(c, point, l) && Honest(x) && !Wrong(|episode|, x)
    ensures var next := Resume(c, point, l, x.response);
            Ends(next, Completed) || (next.At? && Plain(next.point) && CallsMade(episode + [x], next.point))
  {
  }

  lemma FinalizerAnswer(c: Config, n: nat, point: Point, l: Locals, x: Exchange)
    requires FinalizerPoint(point)
    requires x.request == RequestAt(c, point, l) && Honest(x) && !Wrong(n, x)
    ensures var next := Resume(c, point, l, x.response);
            Ends(next, Completed) || (next.At? && FinalizerPoint(next.point))
  {
  }

  lemma TakeDownAnswer(c: Config, n: nat, point: Point, l: Locals, x: Exchange)
    requires (TeardownPoint(point) || DeployerPoint(point)) && (point.RemoveSystems? ==> point.rest != [])
    requires x.request == RequestAt(c, point, l) && Honest(x) && !Wrong(n, x)
    ensures var next := Resume(c, point, l, x.response);
            Ends(next, Completed) || (next.At? && (TeardownPoint(next.point) || DeployerPoint(next.point)))
  {
  }

  lemma AddFinalizerRight(c: Config, episode: seq<Exchange>, l: Locals, x: Exchange)
    requires OnTheWay(c, episode, AddFinalizer, l)
    requires x.request == UpdateManagedOCS(l.managedOCS) && Honest(x) && !Wrong(|episode|, x)
    ensures OutcomeInv(c, episode + [x], Resume(c, AddFinalizer, l, x.response))
  {
    StrategyGrows(episode, x, l.managedOCS.strategy);
    PlainTells(c, episode, AddFinalizer, l, x, Resume(c, AddFinalizer, l, x.response));
  }

  lemma FinalizerRight(c: Config, episode: seq<Exchange>, point: Point, l: Locals, x: Exchange)
    requires OnTheWay(c, episode, point, l) && FinalizerPoint(point)
    requires x.request == RequestAt(c, point, l) && Honest(x) && !Wrong(|episode|, x)
    ensures OutcomeInv(c, episode + [x], Resume(c, point, l, x.response))
  {
    FinalizerAnswer(c, |episode|, point, l, x);
    PlainTells(c, episode, point, l, x, Resume(c, point, l, x.response));
  }

  lemma TakeDownRight(c: Config, episode: seq<Exchange>, point: Point, l: Locals, x: Exchange)
    requires OnTheWay(c, episode, point, l)
    requires (TeardownPoint(point) || DeployerPoint(point)) && (point.RemoveSystems? ==> point.rest != [])
    requires x.request == RequestAt(c, point, l) && Honest(x) && !Wrong(|episode|, x)
    ensures OutcomeInv(c, episode + [x], Resume(c, point, l, x.response))
  {
    TakeDownAnswer(c, |episode|, point, l, x);
    PlainTells(c, episode, point, l, x, Resume(c, point, l, x.response));
  }

  lemma RemovalRight(c: Config, episode: seq<Exchange>, point: Point, l: Locals, x: Exchange)
    requires OnTheWay(c, episode, point, l) && RemovalPoint(point) && (point.RemoveSystems? ==> point.rest != [])
    requires x.request == RequestAt(c, point, l) && Honest(x) && !Wrong(|episode|, x)
    ensures OutcomeInv(c, episode + [x], Resume(c, point, l, x.response))
  {
    if point.AddFinalizer? {
      AddFinalizerRight(c, episode, l, x);
    } else if FinalizerPoint(point) {
      FinalizerRight(c, episode, point, l, x);
    } else {
      TakeDownRight(c, episode, point, l, x);
    }
  }

  lemma EnterPhaseTells(c: Config, episode: seq<Exchange>, l: Locals, index: nat)
    requires !AnyWrong(episode) && NeverLooked(episode) && 3 <= |episode|
    requires if index < 4 then Works(c, episode, l) else !AnyUnreadable(c, episode)
    ensures OutcomeInv(c, episode, EnterPhase(c, l, index))
  {
    NotLookedNotSeen(c, episode);
  }

  lemma StorageClusterReadTells(c: Config, episode: seq<Exchange>, l: Locals, found: bool)
    requires !AnyWrong(episode) && NeverLooked(episode) && 3 <= |episode| && Works(c, episode, l)
    ensures OutcomeInv(c, episode, StorageClusterRead(c, l, found))
  {
    WorkIsReadable(c, episode, l);
    if !AnyUnreadable(c, episode) {
      EnterPhaseTells(c, episode, l, STORAGE_CLUSTER_PHASE + 1);
    }
  }

  lemma LoadParamsRight(c: Config, episode: seq<Exchange>, l: Locals, x: Exchange)
    requires OnTheWay(c, episode, LoadParams, l) && x.request == GetAddonParams && Honest(x) && !Wrong(|episode|, x)
    ensures OutcomeInv(c, episode + [x], Resume(c, LoadParams, l, x.response))
  {
    WrongGrows(episode, x);
    LooksGrow(episode, x);
    var l' := l.(strategy := EffectiveStrategy(l.managedOCS), params := EffectiveParams(c, x.response.params));
    WorkBegins(c, episode, x, l, l');
    EnterPhaseTells(c, episode + [x], l', 0);
  }

  lemma ResourcesRight(c: Config, episode: seq<Exchange>, index: nat, l: Locals, x: Exchange)
    requires OnTheWay(c, episode, Resources(index), l) && index != 3
    requires x.request == ReconcilePhase(index) && Honest(x) && !Wrong(|episode|, x)
    ensures OutcomeInv(c, episode + [x], Resume(c, Resources(index), l, x.response))
  {
    WrongGrows(episode, x);
    LooksGrow(episode, x);
    if index < 3 {
      WorksGrows(c, episode, x, l);
    } else {
      UnreadableGrows(c, episode, x);
    }
    EnterPhaseTells(c, episode + [x], l, index + 1);
  }

  lemma LoadStorageClusterRight(c: Config, episode: seq<Exchange>, l: Locals, x: Exchange)
    requires OnTheWay(c, episode, LoadStorageCluster, l)
    requires x.request == GetStorageCluster && Honest(x) && !Wrong(|episode|, x)
    ensures OutcomeInv(c, episode + [x], Resume(c, LoadStorageCluster, l, x.response))
  {
    var r := x.response;
    WrongGrows(episode, x);
    LooksGrow(episode, x);
    var l' := if r.FoundStorageCluster? then l.(storageCluster := r.storageCluster) else l;
    WorksGrows(c, episode, x, l);
    assert Works(c, episode + [x], l') by {
      var i :| 0 <= i < |episode + [x]| && WorksWith(c, episode + [x], l, i);
      assert WorksWith(c, episode + [x], l', i);
    }
    StorageClusterReadTells(c, episode + [x], l', r.FoundStorageCluster?);
  }

  lemma WriteStorageClusterRight(c: Config, episode: seq<Exchange>, create: bool, l: Locals, x: Exchange)
    requires OnTheWay(c, episode, WriteStorageCluster(create), l)
    requires x.request == RequestAt(c, WriteStorageCluster(create), l) && Honest(x) && !Wrong(|episode|, x)
    ensures OutcomeInv(c, episode + [x], Resume(c, WriteStorageCluster(create), l, x.response))
  {
    WrongGrows(episode, x);
    LooksGrow(episode, x);
    UnreadableGrows(c, episode, x);
    EnterPhaseTells(c, episode + [x], l.(storageCluster := x.response.storageCluster), STORAGE_CLUSTER_PHASE + 1);
  }

  // ---- the check for use ----

  lemma ClassesAreListed(c: Config, episode: seq<Exchange>, x: Exchange, classes: set<string>)
    requires NeverLooked(episode) && ListsClasses(c, x, classes)
    ensures OnlyClassesListed(c, episode + [x], classes)
  {
    var longer := episode + [x];
    assert longer[|episode|] == x && forall i :: 0 <= i < |episode| ==> longer[i] == episode[i];
  }

  lemma ListClassesRight(c: Config, episode: seq<Exchange>, l: Locals, x: Exchange)
    requires OnTheWay(c, episode, ListClasses, l)
    requires x.request == ListStorageClasses && Honest(x) && !Wrong(|episode|, x)
    ensures OutcomeInv(c, episode + [x], Resume(c, ListClasses, l, x.response))
  {
    WrongGrows(episode, x);
    UnreadableGrows(c, episode, x);
    ClassesAreListed(c, episode, x, OCSClasses(c.namespace, x.response.classes));
  }

  predicate VolumeIn(x: Exchange, classes: set<string>) {
    x.request.ListVolumes? && x.response.FoundNames? && exists v :: v in x.response.names && v in classes
  }

  lemma ListedTogether(c: Config, x: Exchange, y: Exchange, classes: set<string>)
    requires ListsClasses(c, x, classes)
    ensures ListsVolumes(c, x, y) <==> VolumeIn(y, classes)
  {
  }

  lemma VolumesSeen(c: Config, episode: seq<Exchange>, x: Exchange, classes: set<string>)
    requires OnlyClassesListed(c, episode, classes) && x.request.ListVolumes?
    ensures SawUse(c, episode + [x]) <==> VolumeIn(x, classes)
  {
    var longer := episode + [x];
    assert longer[|episode|] == x && forall i :: 0 <= i < |episode| ==> longer[i] == episode[i];
    if VolumeIn(x, classes) {
      var i :| 0 <= i < |episode| && ListsClasses(c, episode[i], classes);
      ListedTogether(c, episode[i], x, classes);
      assert ListsVolumes(c, longer[i], longer[|episode|]);
    }
    if i, j :| 0 <= i < j < |longer| && ListsVolumes(c, longer[i], longer[j]) {
      assert Looks(longer[i].request) && Looks(longer[j].request);
      ListedTogether(c, longer[i], longer[j], classes);
    }
  }

  lemma ListPVsRight(c: Config, episode: seq<Exchange>, l: Locals, x: Exchange)
    requires OnTheWay(c, episode, ListPVs, l)
    requires x.request == ListVolumes && Honest(x) && !Wrong(|episode|, x)
    ensures OutcomeInv(c, episode + [x], Resume(c, ListPVs, l, x.response))
  {
    WrongGrows(episode, x);
    UnreadableGrows(c, episode, x);
    VolumesSeen(c, episode, x, l.ocsClasses);
  }

  lemma ConsumersSeen(c: Config, episode: seq<Exchange>, x: Exchange)
    requires NeverLooked(episode) && x.request.ListConsumers?
    ensures SawUse(c, episode + [x]) <==> ListsConsumers(x)
  {
    var longer := episode + [x];
    assert longer[|episode|] == x && forall i :: 0 <= i < |episode| ==> longer[i] == episode[i];
  }

  lemma ListConsumersRight(c: Config, episode: seq<Exchange>, l: Locals, x: Exchange)
    requires OnTheWay(c, episode, ListStorageConsumers, l)
    requires x.request == ListConsumers && Honest(x) && !Wrong(|episode|, x)
    ensures OutcomeInv(c, episode + [x], Resume(c, ListStorageConsumers, l, x.response))
  {
    WrongGrows(episode, x);
    UnreadableGrows(c, episode, x);
    ConsumersSeen(c, episode, x);
  }

  lemma RemoveManagedOCSRight(c: Config, episode: seq<Exchange>, point: Point, l: Locals, x: Exchange)
    requires OnTheWay(c, episode, point, l) && (point.RemoveManagedOCS? || point.ReloadManagedOCS?)
    requires x.request == RequestAt(c, point, l) && Honest(x) && !Wrong(|episode|, x)
    ensures OutcomeInv(c, episode + [x], Resume(c, point, l, x.response))
  {
    WrongGrows(episode, x);
    UseGrows(c, episode, x);
    UnreadableGrows(c, episode, x);
  }

  lemma GuardRight(c: Config, episode: seq<Exchange>, point: Point, l: Locals, x: Exchange)
    requires OnTheWay(c, episode, point, l) && (GuardPoint(point) || point.ReloadManagedOCS?)
    requires x.request == RequestAt(c, point, l) && Honest(x) && !Wrong(|episode|, x)
    ensures OutcomeInv(c, episode + [x], Resume(c, point, l, x.response))
  {
    if point.ListClasses? {
      ListClassesRight(c, episode, l, x);
    } else if point.ListPVs? {
      ListPVsRight(c, episode, l, x);
    } else if point.ListStorageConsumers? {
      ListConsumersRight(c, episode, l, x);
    } else {
      RemoveManagedOCSRight(c, episode, point, l, x);
    }
  }

  lemma SaveRight(c: Config, episode: seq<Exchange>, l: Locals, outcome: Outcome, x: Exchange)
    requires Tells(c, episode, outcome)
    requires x.request == UpdateManagedOCSStatus(l.managedOCS) && Honest(x) && !Wrong(|episode|, x)
    ensures OutcomeInv(c, episode + [x], Resume(c, SaveStatus(outcome), l, x.response))
  {
    WrongGrows(episode, x);
    UseGrows(c, episode, x);
    UnreadableGrows(c, episode, x);
  }

  // ---- every run ----

  lemma InstallRight(c: Config, episode: seq<Exchange>, point: Point, l: Locals, x: Exchange)
    requires OnTheWay(c, episode, point, l) && (point.Resources? ==> point.index != 3)
    requires point.LoadParams? || point.Resources? || point.LoadStorageCluster? || point.WriteStorageCluster?
    requires x.request == RequestAt(c, point, l) && Honest(x) && !Wrong(|episode|, x)
    ensures OutcomeInv(c, episode + [x], Resume(c, point, l, x.response))
  {
    if point.LoadParams? {
      LoadParamsRight(c, episode, l, x);
    } else if point.Resources? {
      ResourcesRight(c, episode, point.index, l, x);
    } else if point.LoadStorageCluster? {
      LoadStorageClusterRight(c, episode, l, x);
    } else {
      WriteStorageClusterRight(c, episode, point.create, l, x);
    }
  }

  lemma OutcomeStep(c: Config, episode: seq<Exchange>, point: Point, l: Locals, x: Exchange)
    requires OutcomeInv(c, episode, At(point, l)) && (point.RemoveSystems? ==> point.rest != [])
    requires (point.Resources? ==> point.index != 3) && (point.LoadManagedOCS? ==> l == NO_LOCALS)
    requires x.request == RequestAt(c, point, l) && Honest(x)
    ensures OutcomeInv(c, episode + [x], Resume(c, point, l, x.response))
  {
    if Wrong(|episode|, x) {
      WrongStep(c, episode, point, l, x);
    } else if EarlyPoint(point) {
      EarlyRight(c, episode, point, l, x);
    } else if RemovalPoint(point) {
      RemovalRight(c, episode, point, l, x);
    } else if point.SaveStatus? {
      SaveRight(c, episode, l, point.outcome, x);
    } else if GuardPoint(point) || point.ReloadManagedOCS? {
      GuardRight(c, episode, point, l, x);
    } else {
      InstallRight(c, episode, point, l, x);
    }
  }

  lemma StartTells(c: Config, w: World, delivery: Delivery)
    requires OutcomeInv(c, w.episode, w.control) && w.control.Starting?
    ensures var next := Step(c, w, Call(delivery)); OutcomeInv(c, next.episode, next.control)
  {
    var next := Step(c, w, Call(delivery));
    assert forall i :: 0 <= i < |next.episode| ==> next.episode[i].request.CreateManagedOCS?;
    assert !AnyWrong(next.episode) && !SawUse(c, next.episode) && !AnyUnreadable(c, next.episode);
  }

  lemma {:induction false} RunKeepsOutcomeInv(c: Config, w: World, actions: seq<Action>)
    requires Initial(w)
    ensures var now := Run(c, w, actions); OutcomeInv(c, now.episode, now.control)
    decreases |actions|
  {
    if actions != [] {
      var before, a := actions[..|actions| - 1], actions[|actions| - 1];
      RunKeepsOutcomeInv(c, w, before);
      RunKeepsEpisodeInv(c, w, before);
      RunKeepsInv(c, w, before);
      var now := Run(c, w, before);
      if a.Call? && now.control.Starting? {
        StartTells(c, now, a.delivery);
      } else if a.Call? && now.control.At? {
        var q := RequestAt(c, now.control.point, now.control.locals);
        OutcomeStep(c, now.episode, now.control.point, now.control.locals,
                    Exchange(now.server, q, Heard(now.server, q, a.delivery)));
      }
    }
  }

  /** In every run, whatever a reconcile that is over met: it reports an error exactly if a call went wrong, or the
      strategy was strict and the parameters could not be read; and without an error it asks for another try exactly
      if it saw the storage in use. */
  lemma OutcomeMeaning(c: Config, w: World, actions: seq<Action>)
    requires Initial(w) && Run(c, w, actions).control.Idle?
    ensures var now := Run(c, w, actions);
            var e, outcome := now.episode, now.control.last;
            && (outcome == Error <==> AnyWrong(e) || AnyUnreadable(c, e))
            && (outcome != Error ==> (outcome == Requeue <==> SawUse(c, e)))
  {
    RunKeepsOutcomeInv(c, w, actions);
  }
}
