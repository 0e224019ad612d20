/** What a reconcile writes of the ManagedOCS, in every run: the finalizers of others are kept, and after the deletion
    the status is saved in the object as it is then. */
module Updates {
  import opened Server
  import opened Controller
  import opened Safety
  import opened Episodes
  import Slices

  // ---- the finalizers ----

  /** In memory is the object that was loaded first, but for its status. */
  predicate AsLoaded(episode: seq<Exchange>, m: ManagedOCS) {
    && episode != []
    && (FoundIt(episode) ==> m == episode[0].response.managedOCS.(status := m.status))
    && (!FoundIt(episode) ==> m.uid == 0)
  }

  /** The same, with other finalizers. */
  predicate LoadedWith(episode: seq<Exchange>, m: ManagedOCS, finalizers: seq<string>)
    requires FoundIt(episode)
  {
    m == episode[0].response.managedOCS.(status := m.status, finalizers := finalizers)
  }

  predicate FinalizersAt(episode: seq<Exchange>, point: Point, l: Locals) {
    var m := l.managedOCS;
    match point
    case LoadManagedOCS => episode == []
    case AddFinalizer =>
      && FoundIt(episode)
      && var was := episode[0].response.managedOCS;
      && FINALIZER !in was.finalizers && !was.deleting
      && LoadedWith(episode, m, was.finalizers + [FINALIZER])
    case RemoveFinalizer =>
      && FoundIt(episode)
      && LoadedWith(episode, m, Slices.Without(episode[0].response.managedOCS.finalizers, FINALIZER))
    case _ => BeforeBranch(point) || FinalizerPoint(point) ==> AsLoaded(episode, m)
  }

  predicate FinalizersInv(episode: seq<Exchange>, control: Control) {
    control.At? ==> FinalizersAt(episode, control.point, control.locals)
  }

  lemma LoadedStays(episode: seq<Exchange>, x: Exchange)
    requires episode != []
    ensures (episode + [x])[0] == episode[0] && (FoundIt(episode + [x]) <==> FoundIt(episode))
  {
  }

  lemma BranchFinalizers(episode: seq<Exchange>, l: Locals)
    requires AsLoaded(episode, l.managedOCS)
    ensures FinalizersInv(episode, Branch(l))
  {
  }

  lemma EarlyFinalizers(c: Config, episode: seq<Exchange>, point: Point, l: Locals, x: Exchange)
    requires FinalizersAt(episode, point, l) && x.request == RequestAt(c, point, l) && BeforeBranch(point)
    ensures FinalizersInv(episode + [x], Resume(c, point, l, x.response))
  {
    LoadedStays(episode, x);
    if point.StatusOfAlertmanagerSet? || (point.StatusOfAlertmanager? && !x.response.FoundReplicas?) {
      BranchFinalizers(episode + [x], StatusAfter(l, point, x.response));
    }
  }

  lemma OperatorFinalizers(c: Config, episode: seq<Exchange>, point: Point, l: Locals, x: Exchange)
    requires FinalizersAt(episode, point, l) && l.managedOCS.uid != 0
    requires point.ListOperators? || point.RemoveOperator?
    ensures FinalizersInv(episode + [x], Resume(c, point, l, x.response))
  {
    LoadedStays(episode, x);
  }

  /** Of these points nothing is said. */
  predicate Beyond(control: Control) {
    control.At? ==> !EarlyPoint(control.point) && !FinalizerPoint(control.point) && !control.point.AddFinalizer?
  }

  lemma InstallGoesBeyond(c: Config, point: Point, l: Locals, r: Response)
    requires InstallPoint(point)
    ensures Beyond(Resume(c, point, l, r))
  {
  }

  lemma LateGoesBeyond(c: Config, point: Point, l: Locals, r: Response)
    requires !EarlyPoint(point) && !point.ListOperators? && !point.RemoveOperator?
    ensures Beyond(Resume(c, point, l, r))
  {
    if InstallPoint(point) {
      InstallGoesBeyond(c, point, l, r);
    }
  }

  lemma FinalizersStep(c: Config, episode: seq<Exchange>, point: Point, l: Locals, x: Exchange)
    requires FinalizersAt(episode, point, l) && x.request == RequestAt(c, point, l)
    requires point.ListOperators? || point.RemoveOperator? ==> l.managedOCS.uid != 0
    requires point.LoadManagedOCS? ==> l == NO_LOCALS
    ensures FinalizersInv(episode + [x], Resume(c, point, l, x.response))
  {
    if BeforeBranch(point) {
      EarlyFinalizers(c, episode, point, l, x);
    } else if point.ListOperators? || point.RemoveOperator? {
      OperatorFinalizers(c, episode, point, l, x);
    } else if !point.LoadManagedOCS? {
      LateGoesBeyond(c, point, l, x.response);
    }
  }

  // ---- the reload ----

  predicate DeletesManagedOCS(x: Exchange) {
    x.request.DeleteManagedOCS? && Deleted(x.response)
  }

  predicate NotDeleted(episode: seq<Exchange>) {
    forall i :: 0 <= i < |episode| ==> !DeletesManagedOCS(episode[i])
  }

  /** The deletion was the last call but one, and the last one read the object again. */
  predicate Reloaded(episode: seq<Exchange>, m: ManagedOCS) {
    && 2 <= |episode|
    && NotDeleted(episode[..|episode| - 2])
    && episode[|episode| - 1].request.GetManagedOCS?
    && (episode[|episode| - 1].response.FoundManagedOCS? ==> m == episode[|episode| - 1].response.managedOCS)
  }

  predicate ReloadAt(episode: seq<Exchange>, point: Point, l: Locals) {
    if point.ReloadManagedOCS? then episode != [] && NotDeleted(episode[..|episode| - 1])
    else if point.SaveStatus? then NotDeleted(episode) || Reloaded(episode, l.managedOCS)
    else NotDeleted(episode)
  }

  predicate ReloadInv(episode: seq<Exchange>, control: Control) {
    match control
    case Starting => NotDeleted(episode)
    case Idle(_) => true
    case At(point, l) => ReloadAt(episode, point, l)
  }

  lemma OnlyRemovalIsFollowed(c: Config, point: Point, l: Locals, r: Response)
    requires !point.RemoveManagedOCS?
    ensures !RequestAt(c, point, l).DeleteManagedOCS?
    ensures var next := Resume(c, point, l, r); !next.Starting? && (next.At? ==> !next.point.ReloadManagedOCS?)
  {
    NeverBackToTheStart(c, point, l, r);
  }

  lemma ReloadStep(c: Config, episode: seq<Exchange>, point: Point, l: Locals, x: Exchange)
    requires ReloadAt(episode, point, l) && x.request == RequestAt(c, point, l)
    ensures ReloadInv(episode + [x], Resume(c, point, l, x.response))
  {
    var longer := episode + [x];
    assert longer[..|episode|] == episode && longer[|episode|] == x;
    if point.ReloadManagedOCS? {
      assert longer[..|longer| - 2] == episode[..|episode| - 1];
    } else if !point.RemoveManagedOCS? {
      OnlyRemovalIsFollowed(c, point, l, x.response);
    }
  }

  // ---- every run ----

  lemma {:induction false} RunKeepsUpdates(c: Config, w: World, actions: seq<Action>)
    requires Initial(w)
    ensures var now := Run(c, w, actions);
            FinalizersInv(now.episode, now.control) && ReloadInv(now.episode, now.control)
    decreases |actions|
  {
    if actions != [] {
      var before, a := actions[..|actions| - 1], actions[|actions| - 1];
      RunKeepsUpdates(c, w, before);
      RunKeepsInv(c, w, before);
      var now := Run(c, w, before);
      if a.Call? && now.control.At? {
        var q := RequestAt(c, now.control.point, now.control.locals);
        var x := Exchange(now.server, q, Heard(now.server, q, a.delivery));
        FinalizersStep(c, now.episode, now.control.point, now.control.locals, x);
        ReloadStep(c, now.episode, now.control.point, now.control.locals, x);
      }
    }
  }

  /** In every run: an update of the ManagedOCS carries the object as it was loaded, with the operator's finalizer put
      behind the others, or with all of them but the operator's. */
  lemma OthersFinalizersAreKept(c: Config, w: World, actions: seq<Action>)
    requires Initial(w)
    ensures var now := Run(c, w, actions);
            now.control.At? && NextRequest(c, now.control).UpdateManagedOCS? ==>
              && FoundIt(now.episode)
              && var m, was := NextRequest(c, now.control).managedOCS, now.episode[0].response.managedOCS;
              && m == was.(status := m.status, finalizers := m.finalizers)
              && (was.deleting ==> multiset(m.finalizers) == multiset(was.finalizers)[FINALIZER := 0])
              && (!was.deleting ==>
                    FINALIZER !in was.finalizers && m.finalizers == was.finalizers + ["managedocs.ocs.openshift.io"])
  {
    RunKeepsInv(c, w, actions);
    RunKeepsUpdates(c, w, actions);
    var now := Run(c, w, actions);
    if now.control.At? && NextRequest(c, now.control).UpdateManagedOCS? {
      UpdateMeaning(c, now.server, now.episode, now.control.point, now.control.locals);
    }
  }

  lemma UpdateMeaning(c: Config, s: Server, episode: seq<Exchange>, point: Point, l: Locals)
    requires ControlInv(c, s, At(point, l)) && FinalizersAt(episode, point, l)
    requires RequestAt(c, point, l).UpdateManagedOCS?
    ensures FoundIt(episode)
    ensures var m, was := RequestAt(c, point, l).managedOCS, episode[0].response.managedOCS;
            && m == was.(status := m.status, finalizers := m.finalizers)
            && (was.deleting ==> multiset(m.finalizers) == multiset(was.finalizers)[FINALIZER := 0])
            && (!was.deleting ==> FINALIZER !in was.finalizers && m.finalizers == was.finalizers + [FINALIZER])
  {
    Slices.WithoutKeepsTheRest(episode[0].response.managedOCS.finalizers, FINALIZER);
  }

  /** In every run: after a deletion of the ManagedOCS that has succeeded, it is read again, and what is saved next is
      the status of what was read. */
  lemma ReloadedBeforeSaving(c: Config, w: World, actions: seq<Action>)
    requires Initial(w)
    ensures var now := Run(c, w, actions);
            now.control.At? && NextRequest(c, now.control).UpdateManagedOCSStatus? && !NotDeleted(now.episode) ==>
              Reloaded(now.episode, NextRequest(c, now.control).managedOCS)
  {
    RunKeepsUpdates(c, w, actions);
    var now := Run(c, w, actions);
    if now.control.At? {
      OnlySavingSaves(c, now.control.point, now.control.locals);
    }
  }

  lemma OnlySavingSaves(c: Config, point: Point, l: Locals)
    ensures RequestAt(c, point, l).UpdateManagedOCSStatus? ==>
              point.SaveStatus? && RequestAt(c, point, l).managedOCS == l.managedOCS
  {
  }
}
