/** The calls of one reconcile as a whole, in every run: each listed StorageSystem is deleted, the teardown goes in
    order, and the status is saved. */
module Episodes {
  import opened Server
  import opened Controller
  import opened Safety
  import Progress

  // ---- the StorageSystems ----

  predicate ListsSystems(x: Exchange) {
    x.request.ListStorageSystems? && x.response.FoundNames?
  }

  predicate DeletedLater(episode: seq<Exchange>, i: nat, name: string) {
    exists j :: i < j < |episode| && episode[j].request == DeleteStorageSystem(name) && Deleted(episode[j].response)
  }

  /** Of the listed StorageSystems, those of `rest` are still to be deleted. */
  predicate Left(episode: seq<Exchange>, rest: seq<string>) {
    forall i, n :: 0 <= i < |episode| && ListsSystems(episode[i]) && n in episode[i].response.names ==>
      n in rest || DeletedLater(episode, i, n)
  }

  predicate NeverListed(episode: seq<Exchange>) {
    forall i :: 0 <= i < |episode| ==> !ListsSystems(episode[i])
  }

  predicate SawDeletion(episode: seq<Exchange>) {
    exists i :: 0 <= i < |episode|
      && episode[i].request.GetManagedOCS? && episode[i].response.FoundManagedOCS?
      && episode[i].response.managedOCS.deleting
  }

  predicate DeletesStorageCluster(x: Exchange) {
    x.request.DeleteStorageCluster? && Deleted(x.response)
  }

  /** The StorageSystem was listed after the StorageCluster had been deleted. */
  predicate ListedAfterwards(episode: seq<Exchange>, name: string) {
    exists i, j :: 0 <= i < j < |episode|
      && DeletesStorageCluster(episode[i]) && ListsSystems(episode[j]) && name in episode[j].response.names
  }

  predicate SystemsAt(episode: seq<Exchange>, point: Point, l: Locals) {
    && (point.SaveStatus? ==> (point.outcome.Completed? ==> Left(episode, [])))
    && (point.RemoveSystems? ==>
          && point.rest != [] && Left(episode, point.rest)
          && forall n :: n in point.rest ==> ListedAfterwards(episode, n))
    && (!point.SaveStatus? && !point.RemoveSystems? ==> NeverListed(episode))
    && (point.ListSystems? ==> exists i :: 0 <= i < |episode| && DeletesStorageCluster(episode[i]))
    && (BeforeBranch(point) || TeardownPoint(point) ==> (l.managedOCS.deleting ==> SawDeletion(episode)))
  }

  predicate SystemsInv(episode: seq<Exchange>, control: Control) {
    match control
    case Starting => NeverListed(episode)
    case Idle(outcome) => outcome.Completed? ==> Left(episode, [])
    case At(point, l) => SystemsAt(episode, point, l)
  }

  lemma SawDeletionGrows(episode: seq<Exchange>, x: Exchange)
    ensures SawDeletion(episode) ==> SawDeletion(episode + [x])
    ensures x.request.GetManagedOCS? && x.response.FoundManagedOCS? && x.response.managedOCS.deleting
            ==> SawDeletion(episode + [x])
  {
    var longer := episode + [x];
    assert longer[|episode|] == x;
    if SawDeletion(episode) {
      var i :| 0 <= i < |episode|
               && episode[i].request.GetManagedOCS? && episode[i].response.FoundManagedOCS?
               && episode[i].response.managedOCS.deleting;
      assert longer[i] == episode[i];
    }
  }

  lemma DeletedLaterGrows(episode: seq<Exchange>, x: Exchange, i: nat, name: string)
    requires i < |episode|
    ensures DeletedLater(episode, i, name) ==> DeletedLater(episode + [x], i, name)
    ensures x.request == DeleteStorageSystem(name) && Deleted(x.response) ==> DeletedLater(episode + [x], i, name)
  {
    var longer := episode + [x];
    assert longer[|episode|] == x;
    if DeletedLater(episode, i, name) {
      var j :| i < j < |episode| && episode[j].request == DeleteStorageSystem(name) && Deleted(episode[j].response);
      assert longer[j] == episode[j];
    }
  }

  /** A deletion takes the name from what is left; other calls leave it. */
  lemma LeftAfter(episode: seq<Exchange>, x: Exchange, rest: seq<string>, later: seq<string>)
    requires Left(episode, rest) && !ListsSystems(x)
    requires forall n :: n in rest && n !in later ==> x.request == DeleteStorageSystem(n) && Deleted(x.response)
    ensures Left(episode + [x], later)
  {
    var longer := episode + [x];
    forall i, n | 0 <= i < |longer| && ListsSystems(longer[i]) && n in longer[i].response.names
      ensures n in later || DeletedLater(longer, i, n)
    {
      assert i < |episode| && longer[i] == episode[i];
      DeletedLaterGrows(episode, x, i, n);
    }
  }

  lemma LeftAfterListing(episode: seq<Exchange>, x: Exchange)
    requires NeverListed(episode) && ListsSystems(x)
    ensures Left(episode + [x], x.response.names)
  {
    var longer := episode + [x];
    assert forall i :: 0 <= i < |episode| ==> longer[i] == episode[i];
  }

  lemma NeverListedGrows(episode: seq<Exchange>, x: Exchange)
    requires NeverListed(episode) && !ListsSystems(x)
    ensures NeverListed(episode + [x]) && forall rest :: Left(episode + [x], rest)
  {
    var longer := episode + [x];
    forall i | 0 <= i < |longer|
      ensures !ListsSystems(longer[i])
    {
      assert i < |episode| ==> longer[i] == episode[i];
    }
  }

  lemma ListedAfterwardsGrows(episode: seq<Exchange>, x: Exchange, name: string)
    requires ListedAfterwards(episode, name)
    ensures ListedAfterwards(episode + [x], name)
  {
    var longer := episode + [x];
    var i, j :| 0 <= i < j < |episode|
                && DeletesStorageCluster(episode[i]) && ListsSystems(episode[j]) && name in episode[j].response.names;
    assert longer[i] == episode[i] && longer[j] == episode[j];
  }

  lemma ListingAfterwards(episode: seq<Exchange>, x: Exchange, name: string)
    requires exists i :: 0 <= i < |episode| && DeletesStorageCluster(episode[i])
    requires ListsSystems(x) && name in x.response.names
    ensures ListedAfterwards(episode + [x], name)
  {
    var longer := episode + [x];
    var i :| 0 <= i < |episode| && DeletesStorageCluster(episode[i]);
    assert longer[i] == episode[i] && longer[|episode|] == x;
  }

  lemma RemovingSystemsKeeps(episode: seq<Exchange>, l: Locals, rest: seq<string>)
    requires Left(episode, rest) && (l.managedOCS.deleting ==> SawDeletion(episode))
    requires forall n :: n in rest ==> ListedAfterwards(episode, n)
    ensures SystemsInv(episode, RemovingSystems(l, rest))
  {
  }

  lemma RemoveSystemsStep(c: Config, episode: seq<Exchange>, point: Point, l: Locals, x: Exchange)
    requires SystemsAt(episode, point, l) && point.RemoveSystems? && x.request == RequestAt(c, point, l)
    ensures SystemsInv(episode + [x], Resume(c, point, l, x.response))
  {
    if Deleted(x.response) {
      var rest := point.rest;
      assert rest == [rest[0]] + rest[1..];
      LeftAfter(episode, x, rest, rest[1..]);
      forall n | n in rest[1..]
        ensures ListedAfterwards(episode + [x], n)
      {
        ListedAfterwardsGrows(episode, x, n);
      }
      SawDeletionGrows(episode, x);
      RemovingSystemsKeeps(episode + [x], l, rest[1..]);
    }
  }

  lemma ListSystemsStep(c: Config, episode: seq<Exchange>, l: Locals, x: Exchange)
    requires SystemsAt(episode, ListSystems, l) && x.request.ListStorageSystems?
    ensures SystemsInv(episode + [x], Resume(c, ListSystems, l, x.response))
  {
    if x.response.FoundNames? {
      LeftAfterListing(episode, x);
      forall n | n in x.response.names
        ensures ListedAfterwards(episode + [x], n)
      {
        ListingAfterwards(episode, x, n);
      }
      SawDeletionGrows(episode, x);
      RemovingSystemsKeeps(episode + [x], l, x.response.names);
    }
  }

  lemma RemoveStorageClusterStep(c: Config, episode: seq<Exchange>, l: Locals, x: Exchange)
    requires SystemsAt(episode, RemoveStorageCluster, l) && x.request.DeleteStorageCluster?
    ensures SystemsInv(episode + [x], Resume(c, RemoveStorageCluster, l, x.response))
  {
    NeverListedGrows(episode, x);
    SawDeletionGrows(episode, x);
    assert (episode + [x])[|episode|] == x;
  }

  predicate EarlyPoint(point: Point) {
    BeforeBranch(point) || point.LoadManagedOCS?
  }

  /** Loading is the only way to learn that the ManagedOCS is going, and the branch the only way to the teardown. */
  lemma EarlyAnswer(c: Config, point: Point, l: Locals, r: Response)
    requires EarlyPoint(point)
    ensures var next := Resume(c, point, l, r);
            && !next.Starting?
            && (next.At? ==> !next.point.ListSystems? && !next.point.RemoveSystems?)
            && (next.At? && next.locals.managedOCS.deleting && !l.managedOCS.deleting ==>
                  point.LoadManagedOCS? && r.FoundManagedOCS? && r.managedOCS.deleting)
  {
  }

  /** The other branches never lead into the teardown, nor back to the beginning. */
  lemma LateAnswer(c: Config, point: Point, l: Locals, r: Response)
    requires !EarlyPoint(point) && !TeardownPoint(point)
    ensures var next := Resume(c, point, l, r);
            && !next.Starting?
            && (next.At? ==> !TeardownPoint(next.point) && !BeforeBranch(next.point))
  {
  }

  lemma SystemsStep(c: Config, episode: seq<Exchange>, point: Point, l: Locals, x: Exchange)
    requires SystemsAt(episode, point, l) && x.request == RequestAt(c, point, l)
    requires point.LoadManagedOCS? ==> !l.managedOCS.deleting
    ensures SystemsInv(episode + [x], Resume(c, point, l, x.response))
  {
    if point.RemoveSystems? {
      RemoveSystemsStep(c, episode, point, l, x);
    } else if point.ListSystems? {
      ListSystemsStep(c, episode, l, x);
    } else if point.RemoveStorageCluster? {
      RemoveStorageClusterStep(c, episode, l, x);
    } else if point.SaveStatus? {
      if point.outcome.Completed? {
        LeftAfter(episode, x, [], []);
      }
    } else {
      NeverListedGrows(episode, x);
      SawDeletionGrows(episode, x);
      if EarlyPoint(point) {
        EarlyAnswer(c, point, l, x.response);
      } else {
        LateAnswer(c, point, l, x.response);
      }
    }
  }

  // ---- the status ----

  predicate FoundIt(episode: seq<Exchange>) {
    episode != [] && episode[0].request.GetManagedOCS? && episode[0].response.FoundManagedOCS?
  }

  predicate StatusInv(episode: seq<Exchange>, control: Control) {
    match control
    case Starting => forall i :: 0 <= i < |episode| ==> episode[i].request.CreateManagedOCS?
    case Idle(_) => FoundIt(episode) ==> episode[|episode| - 1].request.UpdateManagedOCSStatus?
    case At(point, l) =>
      if point.LoadManagedOCS? then episode == []
      else episode != [] && (FoundIt(episode) ==> l.managedOCS.uid != 0)
  }

  lemma UidStaysEarly(c: Config, point: Point, l: Locals, r: Response)
    requires l.managedOCS.uid != 0 && BeforeBranch(point)
    ensures var next := Resume(c, point, l, r);
            next.At? && next.locals.managedOCS.uid != 0 && !next.point.LoadManagedOCS?
  {
  }

  lemma UidStaysLate(c: Config, point: Point, l: Locals, r: Response)
    requires l.managedOCS.uid != 0 && (r.FoundManagedOCS? ==> r.managedOCS.uid != 0)
    requires !EarlyPoint(point) && !point.SaveStatus?
    ensures var next := Resume(c, point, l, r);
            next.At? && next.locals.managedOCS.uid != 0 && !next.point.LoadManagedOCS?
  {
  }

  lemma NeverBackToTheStart(c: Config, point: Point, l: Locals, r: Response)
    ensures var next := Resume(c, point, l, r); !next.Starting? && (next.At? ==> !next.point.LoadManagedOCS?)
  {
    Progress.EveryReconcileEnds(c, point, l, r);
  }

  lemma StatusStep(c: Config, episode: seq<Exchange>, point: Point, l: Locals, x: Exchange)
    requires StatusInv(episode, At(point, l)) && x.request == RequestAt(c, point, l)
    requires x.response.FoundManagedOCS? ==> x.response.managedOCS.uid != 0
    ensures StatusInv(episode + [x], Resume(c, point, l, x.response))
  {
    NeverBackToTheStart(c, point, l, x.response);
    var longer := episode + [x];
    assert longer[|longer| - 1] == x;
    if !point.LoadManagedOCS? && !point.SaveStatus? && FoundIt(longer) {
      assert longer[0] == episode[0];
      if BeforeBranch(point) {
        UidStaysEarly(c, point, l, x.response);
      } else {
        UidStaysLate(c, point, l, x.response);
      }
    }
  }

  // ---- every run ----

  predicate EpisodeInv(w: World) {
    SystemsInv(w.episode, w.control) && StatusInv(w.episode, w.control)
  }

  lemma StartStep(c: Config, w: World, delivery: Delivery)
    requires EpisodeInv(w) && w.control.Starting?
    ensures EpisodeInv(Step(c, w, Call(delivery)))
  {
    var next := Step(c, w, Call(delivery));
    assert next.episode[..|w.episode|] == w.episode;
    NeverListedGrows(w.episode, next.episode[|w.episode|]);
  }

  lemma EpisodeStep(c: Config, w: World, a: Action)
    requires Inv(c, w) && EpisodeInv(w)
    ensures EpisodeInv(Step(c, w, a))
  {
    if a.Call? && w.control.Starting? {
      StartStep(c, w, a.delivery);
    } else if a.Call? && w.control.At? {
      var point, l := w.control.point, w.control.locals;
      var q := RequestAt(c, point, l);
      var x := Exchange(w.server, q, Heard(w.server, q, a.delivery));
      FoundManagedOCSHasUid(w.server, q);
      SystemsStep(c, w.episode, point, l, x);
      StatusStep(c, w.episode, point, l, x);
    }
  }

  lemma {:induction false} RunKeepsEpisodeInv(c: Config, w: World, actions: seq<Action>)
    requires Initial(w)
    ensures EpisodeInv(Run(c, w, actions))
    decreases |actions|
  {
    if actions != [] {
      var before := actions[..|actions| - 1];
      RunKeepsInv(c, w, before);
      RunKeepsEpisodeInv(c, w, before);
      EpisodeStep(c, Run(c, w, before), actions[|actions| - 1]);
    }
  }

  // ---- the results ----

  /** The reconcile is over without an error, but for the status that may be left to save. */
  predicate Completes(control: Control) {
    control == Idle(Completed) || (control.At? && control.point == SaveStatus(Completed))
  }

  /** In every run: a reconcile that listed the StorageSystems and completes has deleted each one that was listed, or
      found it gone. */
  lemma EverySystemIsDeleted(c: Config, w: World, actions: seq<Action>, i: nat, name: string)
    requires Initial(w)
    requires var now := Run(c, w, actions);
             && Completes(now.control)
             && i < |now.episode| && now.episode[i].request == ListStorageSystems
             && now.episode[i].response.FoundNames? && name in now.episode[i].response.names
    ensures var e := Run(c, w, actions).episode;
            exists j :: i < j < |e| && e[j].request == DeleteStorageSystem(name)
                        && (e[j].response.Done? || e[j].response.Missing?)
  {
    RunKeepsEpisodeInv(c, w, actions);
    var now := Run(c, w, actions);
    NothingIsLeft(now.episode, now.control, i, name);
  }

  lemma NothingIsLeft(e: seq<Exchange>, control: Control, i: nat, name: string)
    requires SystemsInv(e, control) && Completes(control)
    requires i < |e| && ListsSystems(e[i]) && name in e[i].response.names
    ensures exists j :: i < j < |e| && e[j].request == DeleteStorageSystem(name)
                        && (e[j].response.Done? || e[j].response.Missing?)
  {
    assert Left(e, []);
    assert DeletedLater(e, i, name);
  }

  /** In every run: the StorageCluster is deleted only by a reconcile that saw the ManagedOCS going, and a
      StorageSystem only if it was listed after that deletion had succeeded. */
  lemma TeardownIsInOrder(c: Config, w: World, actions: seq<Action>)
    requires Initial(w)
    ensures var now := Run(c, w, actions);
            now.control.At? ==>
              var q := NextRequest(c, now.control);
              && (q.DeleteStorageCluster? ==> SawDeletion(now.episode))
              && (q.DeleteStorageSystem? ==> ListedAfterwards(now.episode, q.name))
  {
    RunKeepsInv(c, w, actions);
    RunKeepsEpisodeInv(c, w, actions);
    var now := Run(c, w, actions);
    if now.control.At? {
      OnlyTeardownDeletes(c, now.control.point, now.control.locals);
    }
  }

  lemma OnlyTeardownDeletes(c: Config, point: Point, l: Locals)
    ensures RequestAt(c, point, l).DeleteStorageCluster? ==> point.RemoveStorageCluster?
    ensures RequestAt(c, point, l).DeleteStorageSystem? ==>
              point.RemoveSystems? && point.rest != [] && RequestAt(c, point, l).name == point.rest[0]
  {
  }

  /** In every run: a reconcile that found the ManagedOCS has tried to save its status as its last call, also if it
      ended with an error. */
  lemma TheStatusIsSaved(c: Config, w: World, actions: seq<Action>)
    requires Initial(w)
    ensures var now := Run(c, w, actions);
            var e := now.episode;
            now.control.Idle? && e != [] && e[0].request == GetManagedOCS && e[0].response.FoundManagedOCS? ==>
              e[|e| - 1].request.UpdateManagedOCSStatus?
  {
    RunKeepsEpisodeInv(c, w, actions);
  }
}
