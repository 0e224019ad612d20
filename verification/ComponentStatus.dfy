/** What the status of the components says, in every run: what the calls of the same reconcile answered. */
module ComponentStatus {
  import opened Server
  import opened Controller
  import opened Safety
  import opened Episodes

  predicate Answers(episode: seq<Exchange>, k: nat, q: Request) {
    k < |episode| && episode[k].request == q
  }

  predicate StorageClusterTold(episode: seq<Exchange>, state: ComponentState) {
    && Answers(episode, 2, GetStorageCluster)
    && match episode[2].response
       case FoundStorageCluster(sc) => state == if sc.phase == "Ready" then Ready else Pending
       case Missing => state == NotFound
       case _ => state == Unknown
  }

  /** Call k found the component, and the next one its pods: ready are as many as it wants, or one if it does not
      say. Otherwise it was not there, or the call failed. */
  predicate Told(episode: seq<Exchange>, k: nat, state: ComponentState, pods: Request) {
    && k < |episode|
    && match episode[k].response
       case FoundReplicas(wanted) =>
         && Answers(episode, k + 1, pods)
         && state == if episode[k + 1].response == FoundReady(if wanted.Some? then wanted.value else 1) then Ready
                     else Pending
       case Missing => state == NotFound
       case _ => state == Unknown
  }

  /** The first call after those about Prometheus. */
  function AfterPrometheus(episode: seq<Exchange>): nat
    requires 3 < |episode|
  {
    if episode[3].response.FoundReplicas? then 5 else 4
  }

  predicate PrometheusTold(episode: seq<Exchange>, state: ComponentState) {
    Answers(episode, 3, GetPrometheus) && Told(episode, 3, state, GetPrometheusSet)
  }

  predicate AlertmanagerTold(episode: seq<Exchange>, state: ComponentState) {
    && 3 < |episode|
    && Answers(episode, AfterPrometheus(episode), GetAlertmanager)
    && Told(episode, AfterPrometheus(episode), state, GetAlertmanagerSet)
  }

  predicate AllTold(episode: seq<Exchange>, status: Status) {
    && StorageClusterTold(episode, status.storageCluster)
    && PrometheusTold(episode, status.prometheus)
    && AlertmanagerTold(episode, status.alertmanager)
  }

  /** After these calls the object in memory may be the stored one, with the status it had. */
  predicate Replaces(q: Request) {
    q.UpdateManagedOCS? || q.DeleteManagedOCS?
  }

  predicate Replaced(episode: seq<Exchange>) {
    exists i :: 0 <= i < |episode| && Replaces(episode[i].request)
  }

  predicate ToldAt(episode: seq<Exchange>, point: Point, l: Locals) {
    var status := l.managedOCS.status;
    match point
    case LoadManagedOCS => episode == []
    case CheckDeleteLabel => |episode| == 1
    case StatusOfStorageCluster => |episode| == 2
    case StatusOfPrometheus => |episode| == 3 && StorageClusterTold(episode, status.storageCluster)
    case StatusOfPrometheusSet(desired) =>
      && |episode| == 4 && StorageClusterTold(episode, status.storageCluster)
      && Answers(episode, 3, GetPrometheus) && Wants(episode[3].response, desired)
    case StatusOfAlertmanager =>
      && 3 < |episode| && StorageClusterTold(episode, status.storageCluster)
      && PrometheusTold(episode, status.prometheus) && |episode| == AfterPrometheus(episode)
    case StatusOfAlertmanagerSet(desired) =>
      && 3 < |episode| && StorageClusterTold(episode, status.storageCluster)
      && PrometheusTold(episode, status.prometheus) && |episode| == AfterPrometheus(episode) + 1
      && Answers(episode, |episode| - 1, GetAlertmanager) && Wants(episode[|episode| - 1].response, desired)
    case ReloadManagedOCS => Replaced(episode)
    case _ => !Replaced(episode) ==> AllTold(episode, status)
  }

  predicate Wants(r: Response, desired: int) {
    r.FoundReplicas? && desired == if r.replicas.Some? then r.replicas.value else 1
  }

  predicate ToldInv(episode: seq<Exchange>, control: Control) {
    control.At? ==> ToldAt(episode, control.point, control.locals)
  }

  // ---- one more call ----

  lemma ToldGrows(episode: seq<Exchange>, x: Exchange, status: Status)
    ensures StorageClusterTold(episode, status.storageCluster) ==>
              StorageClusterTold(episode + [x], status.storageCluster)
    ensures PrometheusTold(episode, status.prometheus) ==> PrometheusTold(episode + [x], status.prometheus)
    ensures AlertmanagerTold(episode, status.alertmanager) ==> AlertmanagerTold(episode + [x], status.alertmanager)
  {
  }

  lemma ReplacedGrows(episode: seq<Exchange>, x: Exchange)
    ensures Replaced(episode + [x]) <==> Replaced(episode) || Replaces(x.request)
  {
    var longer := episode + [x];
    assert longer[|episode|] == x && forall i :: 0 <= i < |episode| ==> longer[i] == episode[i];
    if Replaced(episode) {
      var i :| 0 <= i < |episode| && Replaces(episode[i].request);
      assert Replaces(longer[i].request);
    }
  }

  predicate SameStates(l: Locals, m: Locals) {
    var s, t := l.managedOCS.status, m.managedOCS.status;
    t.storageCluster == s.storageCluster && t.prometheus == s.prometheus && t.alertmanager == s.alertmanager
  }

  lemma BranchKeepsStates(l: Locals)
    ensures var next := Branch(l);
            next.At? ==> SameStates(l, next.locals) && !EarlyPoint(next.point) && !next.point.ReloadManagedOCS?
  {
  }

  lemma LoadTold(c: Config, episode: seq<Exchange>, point: Point, l: Locals, x: Exchange)
    requires ToldAt(episode, point, l) && x.request == RequestAt(c, point, l)
    requires point.LoadManagedOCS? || point.CheckDeleteLabel? || point.StatusOfStorageCluster?
    ensures ToldInv(episode + [x], Resume(c, point, l, x.response))
  {
    assert (episode + [x])[|episode|] == x;
  }

  lemma PrometheusIsTold(c: Config, episode: seq<Exchange>, l: Locals, x: Exchange)
    requires ToldAt(episode, StatusOfPrometheus, l) && x.request == GetPrometheus
    ensures ToldInv(episode + [x], Resume(c, StatusOfPrometheus, l, x.response))
  {
    ToldGrows(episode, x, l.managedOCS.status);
    assert (episode + [x])[|episode|] == x;
  }

  lemma PodsTell(episode: seq<Exchange>, x: Exchange, desired: int, state: ComponentState)
    requires episode != [] && Wants(episode[|episode| - 1].response, desired)
    requires state == if x.response.FoundReady? && x.response.ready == desired then Ready else Pending
    ensures Told(episode + [x], |episode| - 1, state, x.request)
  {
    assert (episode + [x])[|episode|] == x && (episode + [x])[|episode| - 1] == episode[|episode| - 1];
  }

  lemma PrometheusPodsAreTold(c: Config, episode: seq<Exchange>, desired: int, l: Locals, x: Exchange)
    requires ToldAt(episode, StatusOfPrometheusSet(desired), l) && x.request == GetPrometheusSet
    ensures ToldInv(episode + [x], Resume(c, StatusOfPrometheusSet(desired), l, x.response))
  {
    var l' := StatusAfter(l, StatusOfPrometheusSet(desired), x.response);
    ToldGrows(episode, x, l.managedOCS.status);
    PodsTell(episode, x, desired, l'.managedOCS.status.prometheus);
  }

  lemma BranchTold(episode: seq<Exchange>, l: Locals)
    requires AllTold(episode, l.managedOCS.status)
    ensures ToldInv(episode, Branch(l))
  {
    BranchKeepsStates(l);
  }

  lemma AlertmanagerIsTold(c: Config, episode: seq<Exchange>, l: Locals, x: Exchange)
    requires ToldAt(episode, StatusOfAlertmanager, l) && x.request == GetAlertmanager
    ensures ToldInv(episode + [x], Resume(c, StatusOfAlertmanager, l, x.response))
  {
    ToldGrows(episode, x, l.managedOCS.status);
    assert (episode + [x])[|episode|] == x;
    if !x.response.FoundReplicas? {
      BranchTold(episode + [x], StatusAfter(l, StatusOfAlertmanager, x.response));
    }
  }

  lemma AlertmanagerPodsAreTold(c: Config, episode: seq<Exchange>, desired: int, l: Locals, x: Exchange)
    requires ToldAt(episode, StatusOfAlertmanagerSet(desired), l) && x.request == GetAlertmanagerSet
    ensures ToldInv(episode + [x], Resume(c, StatusOfAlertmanagerSet(desired), l, x.response))
  {
    var l' := StatusAfter(l, StatusOfAlertmanagerSet(desired), x.response);
    ToldGrows(episode, x, l.managedOCS.status);
    PodsTell(episode, x, desired, l'.managedOCS.status.alertmanager);
    AlertmanagerFrom(episode, x, l'.managedOCS.status.alertmanager);
    BranchTold(episode + [x], l');
  }

  lemma AlertmanagerFrom(episode: seq<Exchange>, x: Exchange, state: ComponentState)
    requires 3 < |episode| == AfterPrometheus(episode) + 1
    requires Answers(episode, |episode| - 1, GetAlertmanager)
    requires Told(episode + [x], |episode| - 1, state, GetAlertmanagerSet)
    ensures AlertmanagerTold(episode + [x], state)
  {
  }

  lemma InstallStates(c: Config, point: Point, l: Locals, r: Response)
    requires InstallPoint(point) && !point.RemoveManagedOCS? && !point.ReloadManagedOCS?
    ensures var next := Resume(c, point, l, r);
            next.At? ==> SameStates(l, next.locals) && !EarlyPoint(next.point) && !next.point.ReloadManagedOCS?
  {
  }

  lemma LateStates(c: Config, point: Point, l: Locals, r: Response)
    requires !EarlyPoint(point) && !Replaces(RequestAt(c, point, l)) && !point.ReloadManagedOCS?
    ensures var next := Resume(c, point, l, r);
            next.At? ==> SameStates(l, next.locals) && !EarlyPoint(next.point) && !next.point.ReloadManagedOCS?
  {
    if InstallPoint(point) {
      InstallStates(c, point, l, r);
    }
  }

  lemma AfterReplacing(c: Config, point: Point, l: Locals, r: Response)
    requires Replaces(RequestAt(c, point, l)) || point.ReloadManagedOCS?
    ensures var next := Resume(c, point, l, r); next.At? ==> !EarlyPoint(next.point)
  {
  }

  lemma LateTold(c: Config, episode: seq<Exchange>, point: Point, l: Locals, x: Exchange)
    requires ToldAt(episode, point, l) && x.request == RequestAt(c, point, l) && !EarlyPoint(point)
    ensures ToldInv(episode + [x], Resume(c, point, l, x.response))
  {
    ReplacedGrows(episode, x);
    ToldGrows(episode, x, l.managedOCS.status);
    if Replaces(x.request) || point.ReloadManagedOCS? {
      AfterReplacing(c, point, l, x.response);
    } else {
      LateStates(c, point, l, x.response);
    }
  }

  lemma PrometheusStep(c: Config, episode: seq<Exchange>, point: Point, l: Locals, x: Exchange)
    requires ToldAt(episode, point, l) && x.request == RequestAt(c, point, l)
    requires point.StatusOfPrometheus? || point.StatusOfPrometheusSet?
    ensures ToldInv(episode + [x], Resume(c, point, l, x.response))
  {
    if point.StatusOfPrometheus? {
      PrometheusIsTold(c, episode, l, x);
    } else {
      PrometheusPodsAreTold(c, episode, point.desired, l, x);
    }
  }

  lemma AlertmanagerStep(c: Config, episode: seq<Exchange>, point: Point, l: Locals, x: Exchange)
    requires ToldAt(episode, point, l) && x.request == RequestAt(c, point, l)
    requires point.StatusOfAlertmanager? || point.StatusOfAlertmanagerSet?
    ensures ToldInv(episode + [x], Resume(c, point, l, x.response))
  {
    if point.StatusOfAlertmanager? {
      AlertmanagerIsTold(c, episode, l, x);
    } else {
      AlertmanagerPodsAreTold(c, episode, point.desired, l, x);
    }
  }

  lemma StatusStep(c: Config, episode: seq<Exchange>, point: Point, l: Locals, x: Exchange)
    requires ToldAt(episode, point, l) && x.request == RequestAt(c, point, l)
    requires StatusRead(point)
    ensures ToldInv(episode + [x], Resume(c, point, l, x.response))
  {
    if point.StatusOfPrometheus? || point.StatusOfPrometheusSet? {
      PrometheusStep(c, episode, point, l, x);
    } else {
      AlertmanagerStep(c, episode, point, l, x);
    }
  }

  lemma ToldStep(c: Config, episode: seq<Exchange>, point: Point, l: Locals, x: Exchange)
    requires ToldAt(episode, point, l) && x.request == RequestAt(c, point, l)
    ensures ToldInv(episode + [x], Resume(c, point, l, x.response))
  {
    if StatusRead(point) {
      StatusStep(c, episode, point, l, x);
    } else if EarlyPoint(point) {
      LoadTold(c, episode, point, l, x);
    } else {
      LateTold(c, episode, point, l, x);
    }
  }

  // ---- every run ----

  lemma {:induction false} RunKeepsToldInv(c: Config, w: World, actions: seq<Action>)
    requires Initial(w)
    ensures var now := Run(c, w, actions); ToldInv(now.episode, now.control)
    decreases |actions|
  {
    if actions != [] {
      var before, a := actions[..|actions| - 1], actions[|actions| - 1];
      RunKeepsToldInv(c, w, before);
      var now := Run(c, w, before);
      if a.Call? && now.control.At? {
        var q := RequestAt(c, now.control.point, now.control.locals);
        ToldStep(c, now.episode, now.control.point, now.control.locals,
                 Exchange(now.server, q, Heard(now.server, q, a.delivery)));
      }
    }
  }

  lemma SavingSaves(c: Config, episode: seq<Exchange>, point: Point, l: Locals)
    requires ToldAt(episode, point, l) && RequestAt(c, point, l).UpdateManagedOCSStatus? && !Replaced(episode)
    ensures AllTold(episode, RequestAt(c, point, l).managedOCS.status)
  {
  }

  /** In every run: the status a reconcile saves says of each component what its own calls answered, unless the
      ManagedOCS was read again after the reconcile had updated or deleted it. */
  lemma SavedStatusMeaning(c: Config, w: World, actions: seq<Action>)
    requires Initial(w)
    ensures var now := Run(c, w, actions);
            now.control.At? && NextRequest(c, now.control).UpdateManagedOCSStatus? && !Replaced(now.episode) ==>
              AllTold(now.episode, NextRequest(c, now.control).managedOCS.status)
  {
    RunKeepsToldInv(c, w, actions);
    var now := Run(c, w, actions);
    if now.control.At? && NextRequest(c, now.control).UpdateManagedOCSStatus? && !Replaced(now.episode) {
      SavingSaves(c, now.episode, now.control.point, now.control.locals);
    }
  }
}
