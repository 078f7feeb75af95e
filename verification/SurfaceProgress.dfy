/**
 Every request the terminal surface controller accepts is answered: once the promises it waits for have
 settled and the microtasks have run, it has ended with its view on screen and "ready", or with an
 error, or, without a size, with nothing on screen.
 */
module SurfaceProgress {
  import opened Wrappers
  import opened SurfaceModel
  import opened SurfaceInvariant
  import opened SurfaceSteps
  import opened SurfaceTasks
  import opened SurfaceJobs
  import opened SurfaceTheorems
  import opened SurfaceRivals
  import opened SurfaceOutcomes

  // ---- Requests in play ----

  predicate InCreation(creation: Creation, q: Request) {
    (CreatorPending(creation.phase) && creation.creator == q) || q in creation.waiters
  }

  predicate InTask(task: Task, q: Request) {
    (task.ResumeWaiter? || task.ResumeInit?) && task.request == q
  }

  /** The request is suspended, or its continuation is queued. */
  ghost predicate InPlay(s: State, q: Request) {
    || (exists c | 0 <= c < |s.creations| :: InCreation(s.creations[c], q))
    || (exists i | 0 <= i < |s.initializations| :: q in s.initializations[i].waiters)
    || (exists k | 0 <= k < |s.queue| :: InTask(s.queue[k], q))
  }

  /** The request is the only one in play that is the latest, and the controller works for no other. */
  ghost predicate IsTheLatest(s: State, r: Request) {
    && r.token.serial == s.track.lastToken && r.token.terminalTabId == Some(r.tab)
    && (s.desired.Some? ==> s.desired == Some(r.token))
    && forall q | InPlay(s, q) :: q.token.serial == s.track.lastToken ==> q == r
  }

  /** The latest request is where its place says: the creation's creator, a waiter, or in the queue. */
  ghost predicate HoldsCreation(creations: seq<Creation>, queue: seq<Task>, c: nat, lastToken: nat) {
    && c < |creations|
    && (|| (CreatorPending(creations[c].phase) && creations[c].creator.token.serial == lastToken)
        || (exists q | q in creations[c].waiters :: q.token.serial == lastToken)
        || (exists q | ResumeWaiter(q, c) in queue :: q.token.serial == lastToken))
  }

  ghost predicate IsHeld(s: State) {
    s.track.place.AtCreation? ==> HoldsCreation(s.creations, s.queue, s.track.place.creation, s.track.lastToken)
  }

  /** With nothing queued, the creation the request awaits has yet to settle. */
  lemma DrainedAtCreation(s: State)
    requires Good(s) && IsHeld(s) && s.track.place.AtCreation? && s.queue == []
    ensures s.track.place.creation < |s.creations| && s.creations[s.track.place.creation].phase.Open?
  {
    var c := s.track.place.creation;
    hide StatusesOk, ReadyOk, AllShownOk, RegistryOk, LedgerOk, VisibleOk, ResolvedBySharers, EntriesReady, ResultsOk,
      InitJobsQueued, InitRequestsOk, QueueOk, InitsOk, PlaceOk;
    assert CreationOk(s.creations[c], c, s.creationPromises, s.track);
  }

  /** With nothing queued, so has the initialisation. */
  lemma DrainedAtInit(s: State, i: nat)
    requires Suspended(s, i) && s.queue == []
    ensures s.initializations[i].phase.Running? && s.initializations[i].outcome.Undecided?
  {
    LatestIsHeld(s, i);
    TasksOf(s, i);
    hide Good;
  }

  // ---- What a task does to requests in play ----

  /** `done` is the creation whose creator runs again. */
  ghost predicate CreationsGoOn(s: State, t: State, done: Option<nat>) {
    && |t.creations| == |s.creations| && s.queue <= t.queue
    && (forall c | 0 <= c < |s.creations| ::
          && t.creations[c].creator == s.creations[c].creator && t.creations[c].result == s.creations[c].result
          && CreatorPending(t.creations[c].phase) == (CreatorPending(s.creations[c].phase) && done != Some(c))
          && (forall q | q in t.creations[c].waiters :: q in s.creations[c].waiters)
          && (forall q | q in s.creations[c].waiters :: q in t.creations[c].waiters || ResumeWaiter(q, c) in t.queue))
    && (forall k | |s.queue| <= k < |t.queue| && t.queue[k].ResumeWaiter? ::
          t.queue[k].creation < |s.creations| && t.queue[k].request in s.creations[t.queue[k].creation].waiters)
  }

  /** `x` is the request that runs again, which may join or start an attempt. */
  ghost predicate InitsGoOn(s: State, t: State, x: Option<Request>) {
    && |s.initializations| <= |t.initializations| && s.queue <= t.queue
    && (forall i, q | 0 <= i < |t.initializations| && q in t.initializations[i].waiters ::
          (i < |s.initializations| && q in s.initializations[i].waiters) || x == Some(q))
    && (forall k | |s.queue| <= k < |t.queue| && t.queue[k].ResumeInit? ::
          t.queue[k].init < |s.initializations| && t.queue[k].request in s.initializations[t.queue[k].init].waiters)
  }

  lemma GoingOnAddsNobody(s: State, t: State, done: Option<nat>, x: Option<Request>)
    requires CreationsGoOn(s, t, done) && InitsGoOn(s, t, x)
    ensures forall q | InPlay(t, q) :: InPlay(s, q) || x == Some(q)
  {
    forall q | InPlay(t, q) && x != Some(q)
      ensures InPlay(s, q)
    {
      if c :| 0 <= c < |t.creations| && InCreation(t.creations[c], q) {
        assert InCreation(s.creations[c], q);
      } else if k :| 0 <= k < |t.queue| && InTask(t.queue[k], q) {
        if k < |s.queue| {
          assert InTask(s.queue[k], q);
        } else if t.queue[k].ResumeWaiter? {
          assert InCreation(s.creations[t.queue[k].creation], q);
        }
      }
    }
  }

  /** Whoever holds the latest request's place keeps it, unless it runs again itself. */
  lemma GoingOnHolds(s: State, t: State, done: Option<nat>, c: nat, lastToken: nat)
    requires CreationsGoOn(s, t, done) && HoldsCreation(s.creations, s.queue, c, lastToken)
    requires done == Some(c) ==> s.creations[c].creator.token.serial != lastToken
    ensures HoldsCreation(t.creations, t.queue, c, lastToken)
  {
    if q :| ResumeWaiter(q, c) in s.queue && q.token.serial == lastToken {
      assert ResumeWaiter(q, c) in t.queue;
    }
  }

  lemma SameGoesOn(s: State, t: State)
    requires t.creations == s.creations && t.queue == s.queue
    ensures CreationsGoOn(s, t, None)
  {
  }

  lemma PreparedInits(s: State, r: Request, view: View)
    ensures InitsGoOn(s, Prepare(s, r, view), Some(r))
    ensures Prepare(s, r, view).creations == s.creations && Prepare(s, r, view).queue == s.queue
  {
    DisposeFrame(s, view);
    PresentFrame(s, r, view);
    hide Present, ReleaseIfUnowned;
  }

  lemma InitsFrom(s: State, middle: State, t: State, x: Option<Request>)
    requires middle.initializations == s.initializations && s.queue <= middle.queue
    requires forall k | |s.queue| <= k < |middle.queue| :: !middle.queue[k].ResumeInit?
    requires InitsGoOn(middle, t, x)
    ensures InitsGoOn(s, t, x)
  {
    assert forall k | 0 <= k < |middle.queue| :: t.queue[k] == middle.queue[k];
  }

  lemma NoInitsGoOn(s: State, t: State, x: Option<Request>)
    requires t.initializations == s.initializations && s.queue <= t.queue
    requires forall k | |s.queue| <= k < |t.queue| :: !t.queue[k].ResumeInit?
    ensures InitsGoOn(s, t, x)
  {
  }

  /** The creator is done with its creation, and at most its own next job is queued. */
  predicate IsReleased(s: State, t: State, c: nat) {
    && c < |s.creations| && |t.creations| == |s.creations| && !CreatorPending(t.creations[c].phase)
    && t.creations ==
         s.creations[c := s.creations[c].(phase := t.creations[c].phase, claimed := t.creations[c].claimed)]
    && (t.queue == s.queue || t.queue == s.queue + [CreationJob(c)])
  }

  lemma ReleasedGoesOn(s: State, t: State, c: nat)
    requires IsReleased(s, t, c)
    ensures CreationsGoOn(s, t, Some(c))
  {
  }

  lemma ClaimedIsReleased(s: State, c: nat)
    requires c < |s.creations| && s.creations[c].result.Fulfilled? && IsDesired(s, s.creations[c].creator.token)
    ensures IsReleased(s, ResumeCreator(s, c), c)
    ensures InitsGoOn(s, ResumeCreator(s, c), Some(s.creations[c].creator))
  {
    var creation := s.creations[c];
    var adopted := Adopt(SetCreation(s, c, creation.(claimed := true, phase := Finished)), creation.result.view);
    PreparedInits(adopted, creation.creator, creation.result.view);
    hide Prepare, InitsGoOn;
    InitsFrom(s, adopted, ResumeCreator(s, c), Some(creation.creator));
  }

  lemma CreatorGoesOn(s: State, c: nat)
    requires c < |s.creations| && s.creations[c].phase.Resuming?
    ensures CreationsGoOn(s, ResumeCreator(s, c), Some(c))
    ensures InitsGoOn(s, ResumeCreator(s, c), Some(s.creations[c].creator))
  {
    if s.creations[c].result.Fulfilled? && IsDesired(s, s.creations[c].creator.token) {
      ClaimedIsReleased(s, c);
      hide ResumeCreator;
    } else {
      NoInitsGoOn(s, ResumeCreator(s, c), Some(s.creations[c].creator));
    }
    hide Prepare, Adopt, InitsGoOn, CreationsGoOn, IsDesired;
    assert IsReleased(s, ResumeCreator(s, c), c);
    ReleasedGoesOn(s, ResumeCreator(s, c), c);
  }

  lemma CreationJobGoesOn(s: State, c: nat)
    requires c < |s.creations| && !s.creations[c].phase.Open?
    ensures CreationsGoOn(s, RunCreationJob(s, c), if s.creations[c].phase.Resuming? then Some(c) else None)
    ensures InitsGoOn(s, RunCreationJob(s, c), Resumes(s, CreationJob(c)))
  {
    match s.creations[c].phase {
      case Resuming => ResumingGoesOn(s, c);
      case Settling => SettlingGoesOn(s, c);
      case Checking => CheckingGoesOn(s, c);
      case _ => RelayingGoesOn(s, c);
    }
    hide RunCreationJob, CreationsGoOn, InitsGoOn;
  }

  lemma ResumingGoesOn(s: State, c: nat)
    requires c < |s.creations| && s.creations[c].phase.Resuming?
    ensures CreationsGoOn(s, RunCreationJob(s, c), Some(c))
    ensures InitsGoOn(s, RunCreationJob(s, c), Some(s.creations[c].creator))
  {
    var woken := Wake(s, s.creations[c].creator.token);
    CreatorGoesOn(woken, c);
    WokenGoesOn(s, woken, ResumeCreator(woken, c), Some(c), Some(s.creations[c].creator));
    hide ResumeCreator, InitsGoOn, CreationsGoOn, DisposeUnclaimed;
  }

  lemma RelayingGoesOn(s: State, c: nat)
    requires c < |s.creations| && !s.creations[c].phase.Open? && !s.creations[c].phase.Settling?
    requires !s.creations[c].phase.Resuming? && !s.creations[c].phase.Checking?
    ensures CreationsGoOn(s, RunCreationJob(s, c), None) && InitsGoOn(s, RunCreationJob(s, c), None)
  {
    hide ResumeCreator, DisposeUnclaimed;
    if s.creations[c].phase.Finished? {
      NothingGoesOn(s, s);
    } else {
      RelayedGoesOn(s, RunCreationJob(s, c), c);
    }
    hide CreationsGoOn, InitsGoOn;
  }

  lemma RelayedGoesOn(s: State, t: State, c: nat)
    requires c < |s.creations| && |t.creations| == |s.creations| && t.initializations == s.initializations
    requires t.queue == s.queue + [CreationJob(c)]
    requires t.creations == s.creations[c := s.creations[c].(phase := t.creations[c].phase)]
    requires CreatorPending(t.creations[c].phase) == CreatorPending(s.creations[c].phase)
    ensures CreationsGoOn(s, t, None) && InitsGoOn(s, t, None)
  {
  }

  lemma SettlingGoesOn(s: State, c: nat)
    requires c < |s.creations| && s.creations[c].phase.Settling?
    ensures CreationsGoOn(s, RunCreationJob(s, c), None)
    ensures InitsGoOn(s, RunCreationJob(s, c), None)
  {
    var t := RunCreationJob(s, c);
    var more := ResumeWaiters(s.creations[c].waiters, c);
    assert t.queue == s.queue + [CreationJob(c)] + more;
    assert forall k | 0 <= k < |more| :: t.queue[|s.queue| + 1 + k] == more[k];
    forall k | |s.queue| <= k < |t.queue| && t.queue[k].ResumeWaiter?
      ensures t.queue[k].creation == c && t.queue[k].request in s.creations[c].waiters
    {
      assert t.queue[k] == more[k - |s.queue| - 1];
    }
    NoInitsGoOn(s, t, None);
    hide InitsGoOn, ResumeCreator, DisposeUnclaimed;
  }

  lemma CheckingGoesOn(s: State, c: nat)
    requires c < |s.creations| && s.creations[c].phase.Checking?
    ensures CreationsGoOn(s, RunCreationJob(s, c), None)
    ensures InitsGoOn(s, RunCreationJob(s, c), None)
  {
    UnclaimedGoesOn(s, c);
    hide DisposeUnclaimed, ResumeCreator;
  }

  lemma UnclaimedGoesOn(s: State, c: nat)
    requires c < |s.creations|
    ensures var t := DisposeUnclaimed(s, c);
            && t.initializations == s.initializations && t.queue == s.queue && |t.creations| == |s.creations|
            && t.creations == s.creations[c := s.creations[c].(disposed := t.creations[c].disposed)]
  {
    if s.creations[c].result.Fulfilled? {
      DisposeFrame(SetCreation(s, c, s.creations[c].(disposed := true)), s.creations[c].result.view);
    }
    hide DisposeView;
  }

  /** A sharer may claim the creation, and at most a check is queued. */
  predicate IsShared(s: State, t: State, r: Request, c: nat) {
    && c < |s.creations| && |t.creations| == |s.creations|
    && t.creations == s.creations[c := s.creations[c].(claimed := t.creations[c].claimed)]
    && (t.queue == s.queue || t.queue == s.queue + [DisposeCheck(r, c)])
  }

  lemma SharedGoesOn(s: State, t: State, r: Request, c: nat)
    requires IsShared(s, t, r, c)
    ensures CreationsGoOn(s, t, None)
  {
  }

  lemma SharerIsShared(s: State, r: Request, c: nat)
    requires c < |s.creations| && s.creations[c].result.Fulfilled? && IsDesired(s, r.token)
    ensures IsShared(s, ResumeSharer(s, r, c), r, c) && InitsGoOn(s, ResumeSharer(s, r, c), Some(r))
  {
    var creation := s.creations[c];
    var claimed :=
      if creation.claimed then s else Adopt(SetCreation(s, c, creation.(claimed := true)), creation.result.view);
    PreparedInits(claimed, r, creation.result.view);
    hide Prepare, InitsGoOn;
    InitsFrom(s, claimed, ResumeSharer(s, r, c), Some(r));
  }

  lemma SharerGoesOn(s: State, r: Request, c: nat)
    requires c < |s.creations|
    ensures CreationsGoOn(s, ResumeSharer(s, r, c), None) && InitsGoOn(s, ResumeSharer(s, r, c), Some(r))
  {
    if s.creations[c].result.Fulfilled? && IsDesired(s, r.token) {
      SharerIsShared(s, r, c);
      hide ResumeSharer;
    } else {
      NoInitsGoOn(s, ResumeSharer(s, r, c), Some(r));
    }
    hide Prepare, Adopt, InitsGoOn, CreationsGoOn, IsDesired;
    assert IsShared(s, ResumeSharer(s, r, c), r, c);
    SharedGoesOn(s, ResumeSharer(s, r, c), r, c);
  }

  lemma InitJobGoesOn(s: State, i: nat)
    requires i < |s.initializations|
    ensures CreationsGoOn(s, RunInitJob(s, i), None) && InitsGoOn(s, RunInitJob(s, i), None)
  {
    var t, init := RunInitJob(s, i), s.initializations[i];
    if !init.phase.Running? && !init.phase.Over? {
      InitJobAdvances(s, i);
      InitJobCreations(s, i);
      var more := NextTasks(init, i);
      assert forall k | 0 <= k < |more| :: t.queue[|s.queue| + k] == more[k];
      hide RunInitJob;
      forall k | |s.queue| <= k < |t.queue|
        ensures t.queue[k].ResumeInit? ==> t.queue[k].init == i && t.queue[k].request in init.waiters
        ensures !t.queue[k].ResumeWaiter?
      {
        assert t.queue[k] == more[k - |s.queue|];
      }
    }
  }

  lemma InitJobCreations(s: State, i: nat)
    requires i < |s.initializations|
    ensures RunInitJob(s, i).creations == s.creations
  {
    hide IsCurrentEntry, ResumeInits;
  }

  /** All of it, for any task that the invariant allows at the front. */
  lemma TaskGoesOn(s: State, task: Task)
    requires task.CreationJob? && task.creation < |s.creations| ==> !s.creations[task.creation].phase.Open?
    ensures var done := if task.CreationJob? && Resumes(s, task).Some? then Some(task.creation) else None;
            CreationsGoOn(s, RunTask(s, task), done)
    ensures InitsGoOn(s, RunTask(s, task), Resumes(s, task))
  {
    hide RunCreationJob, ResumeSharer, DisposeUnclaimed, RunInitJob, ResumeAfterInit, CreationsGoOn, InitsGoOn;
    match task {
      case CreationJob(c) => if c < |s.creations| { CreationJobGoesOn(s, c); } else { NothingGoesOn(s, s); }
      case ResumeWaiter(r, c) =>
        if c < |s.creations| {
          SharerGoesOn(Wake(s, r.token), r, c);
          WokenGoesOn(s, Wake(s, r.token), ResumeSharer(Wake(s, r.token), r, c), None, Some(r));
        } else {
          NothingGoesOn(s, s);
        }
      case DisposeCheck(_, c) =>
        if c < |s.creations| {
          UnclaimedGoesOn(s, c);
          DisposedGoesOn(s, DisposeUnclaimed(s, c), c);
        } else {
          NothingGoesOn(s, s);
        }
      case InitJob(i) => if i < |s.initializations| { InitJobGoesOn(s, i); } else { NothingGoesOn(s, s); }
      case ResumeInit(r, i) =>
        if i < |s.initializations| {
          ResumeFrame(Wake(s, r.token), r, i);
          NothingGoesOn(s, ResumeAfterInit(Wake(s, r.token), r, i));
        } else {
          NothingGoesOn(s, s);
        }
    }
  }

  predicate InAnyTask(task: Task) {
    task.ResumeWaiter? || task.ResumeInit?
  }

  lemma NothingGoesOn(s: State, t: State)
    requires t.creations == s.creations && t.queue == s.queue && t.initializations == s.initializations
    ensures CreationsGoOn(s, t, None) && forall x :: InitsGoOn(s, t, x)
  {
  }

  lemma DisposedGoesOn(s: State, t: State, c: nat)
    requires t.initializations == s.initializations && t.queue == s.queue && |t.creations| == |s.creations|
    requires c < |s.creations| && t.creations == s.creations[c := s.creations[c].(disposed := t.creations[c].disposed)]
    ensures CreationsGoOn(s, t, None) && InitsGoOn(s, t, None)
  {
  }

  lemma WokenGoesOn(s: State, middle: State, t: State, done: Option<nat>, x: Option<Request>)
    requires middle == s.(track := middle.track) && CreationsGoOn(middle, t, done) && InitsGoOn(middle, t, x)
    ensures CreationsGoOn(s, t, done) && InitsGoOn(s, t, x)
  {
  }

  // ---- The latest request through an event ----

  lemma HeadIsOpenNot(s: State)
    requires Good(s) && s.queue != []
    ensures s.queue[0].CreationJob? && s.queue[0].creation < |s.creations| ==>
              !s.creations[s.queue[0].creation].phase.Open?
    ensures s.queue[0].CreationJob? ==> s.queue[0].creation < |s.creations|
  {
    hide StatusesOk, ReadyOk, AllShownOk, RegistryOk, LedgerOk, VisibleOk, ResolvedBySharers, EntriesReady, ResultsOk,
      PlaceOk, JobsQueued, InitJobsQueued, InitRequestsOk, CreationsOk, InitsOk;
    assert TaskOk(s.queue[0], s.creations, s.initializations, s.track);
  }

  /** Taking the front task out of the queue leaves everybody else in play. */
  lemma PoppedInPlay(s: State)
    requires s.queue != []
    ensures forall q | InPlay(s.(queue := s.queue[1..]), q) :: InPlay(s, q)
    ensures InAnyTask(s.queue[0]) ==> InPlay(s, s.queue[0].request)
  {
    var s1 := s.(queue := s.queue[1..]);
    forall q | InPlay(s1, q)
      ensures InPlay(s, q)
    {
      if k :| 0 <= k < |s1.queue| && InTask(s1.queue[k], q) {
        assert InTask(s.queue[k + 1], q);
      }
    }
    if InAnyTask(s.queue[0]) {
      assert InTask(s.queue[0], s.queue[0].request);
    }
  }

  /** A microtask brings nobody into play. */
  lemma MicrotaskAddsNobody(s: State)
    requires Good(s) && s.queue != []
    ensures forall q | InPlay(RunMicrotask(s), q) :: InPlay(s, q)
  {
    HeadIsOpenNot(s);
    var s1, head := s.(queue := s.queue[1..]), s.queue[0];
    PoppedInPlay(s);
    if head.CreationJob? && Resumes(s1, head).Some? {
      assert InCreation(s.creations[head.creation], s.creations[head.creation].creator);
    }
    TaskGoesOn(s1, head);
    hide Good, RunTask, CreationsGoOn, InitsGoOn, InCreation;
    var done := if head.CreationJob? && Resumes(s1, head).Some? then Some(head.creation) else None;
    GoingOnAddsNobody(s1, RunTask(s1, head), done, Resumes(s1, head));
    assert Resumes(s1, head).Some? ==> InPlay(s, Resumes(s1, head).value);
    hide InPlay;
  }

  /** While the latest request stays where it is, its creation holds it. */
  lemma MicrotaskHolds(s: State)
    requires Good(s) && IsHeld(s) && s.track.place.AtCreation? && s.queue != []
    requires Resumes(s, s.queue[0]).Some? ==> Resumes(s, s.queue[0]).value.token.serial != s.track.lastToken
    ensures var t := RunMicrotask(s);
            HoldsCreation(t.creations, t.queue, s.track.place.creation, s.track.lastToken)
  {
    HeadIsOpenNot(s);
    var s1, head, c := s.(queue := s.queue[1..]), s.queue[0], s.track.place.creation;
    HeadHolds(s.creations, s.queue, c, s.track.lastToken);
    TaskGoesOn(s1, head);
    hide Good, RunTask, CreationsGoOn, InitsGoOn, HoldsCreation;
    var done := if head.CreationJob? && Resumes(s1, head).Some? then Some(head.creation) else None;
    GoingOnHolds(s1, RunTask(s1, head), done, c, s.track.lastToken);
  }

  lemma HeadHolds(creations: seq<Creation>, queue: seq<Task>, c: nat, lastToken: nat)
    requires HoldsCreation(creations, queue, c, lastToken) && queue != []
    requires queue[0].ResumeWaiter? && queue[0].creation < |creations| ==> queue[0].request.token.serial != lastToken
    ensures HoldsCreation(creations, queue[1..], c, lastToken)
  {
    if q :| ResumeWaiter(q, c) in queue && q.token.serial == lastToken {
      var k :| 0 <= k < |queue| && queue[k] == ResumeWaiter(q, c);
      assert queue[1..][k - 1] == ResumeWaiter(q, c);
    }
  }

  // ---- What goes on without the request ----

  /** What only events other than microtasks change. */
  predicate SameSurroundings(s: State, t: State) {
    && t.desired == s.desired && t.destroyed == s.destroyed && t.window.identity == s.window.identity
    && t.window.terminalViews == s.window.terminalViews && t.track.lastToken == s.track.lastToken
  }

  /** Nothing is announced or shown. */
  predicate Unheard(s: State, t: State) {
    SameSurroundings(s, t) && t.window.statuses == s.window.statuses && t.ledger.shown == s.ledger.shown
  }

  /** Nor does what was on screen leave it, unless it is disposed of. */
  ghost predicate Silent(s: State, t: State) {
    && Unheard(s, t)
    && s.disposedViews <= t.disposedViews
    && forall v | v in s.window.visible :: v in t.window.visible || v in t.disposedViews
  }

  lemma UnheardThen(s: State, middle: State, t: State)
    requires Unheard(s, middle) && Unheard(middle, t)
    ensures Unheard(s, t)
  {
  }

  lemma DisposeIsSilent(s: State, view: View)
    ensures Silent(s, DisposeView(s, view)) && Silent(s, ReleaseIfUnowned(s, view))
  {
    hide IsViewOwned;
  }

  lemma UnclaimedIsSilent(s: State, c: nat)
    requires c < |s.creations|
    ensures Silent(s, DisposeUnclaimed(s, c))
  {
    var creation := s.creations[c];
    if creation.result.Fulfilled? {
      DisposeIsSilent(SetCreation(s, c, creation.(disposed := true)), creation.result.view);
    }
    hide DisposeView;
  }

  lemma StaleCreatorIsSilent(s: State, c: nat)
    requires c < |s.creations| && !IsDesired(s, s.creations[c].creator.token)
    ensures Silent(s, ResumeCreator(s, c))
  {
    hide Prepare, Adopt;
  }

  lemma StaleSharerIsSilent(s: State, r: Request, c: nat)
    requires c < |s.creations| && !IsDesired(s, r.token)
    ensures Silent(s, ResumeSharer(s, r, c))
  {
    hide Prepare, Adopt;
  }

  lemma StaleCreationJobIsSilent(s: State, c: nat)
    requires c < |s.creations| && IsStale(s, CreationJob(c))
    ensures Silent(s, RunCreationJob(s, c))
  {
    match s.creations[c].phase {
      case Checking => UnclaimedIsSilent(s, c);
      case Resuming => StaleCreatorIsSilent(Wake(s, s.creations[c].creator.token), c);
      case _ =>
    }
    hide DisposeUnclaimed, ResumeCreator;
  }

  lemma StaleResumeIsSilent(s: State, r: Request, i: nat)
    requires i < |s.initializations| && !IsDesired(s, r.token)
    ensures Silent(s, ResumeAfterInit(s, r, i))
  {
    DisposeIsSilent(s, s.initializations[i].view);
    hide DisposeView, ReleaseIfUnowned, IsDesiredInitialization, IsViewOwned;
  }

  lemma StaleTaskIsSilent(s: State)
    requires s.queue != [] && !s.queue[0].InitJob? && IsStale(s, s.queue[0])
    ensures Silent(s, RunMicrotask(s))
  {
    var s1 := s.(queue := s.queue[1..]);
    hide RunCreationJob, ResumeSharer, DisposeUnclaimed, ResumeAfterInit;
    match s.queue[0] {
      case CreationJob(c) => if c < |s.creations| { StaleCreationJobIsSilent(s1, c); }
      case ResumeWaiter(r, c) => if c < |s.creations| { StaleSharerIsSilent(Wake(s1, r.token), r, c); }
      case DisposeCheck(_, c) => if c < |s.creations| { UnclaimedIsSilent(s1, c); }
      case ResumeInit(r, i) => if i < |s.initializations| { StaleResumeIsSilent(Wake(s1, r.token), r, i); }
    }
  }

  lemma InitJobIsSilent(s: State)
    requires s.queue != [] && s.queue[0].InitJob?
    ensures Silent(s, RunMicrotask(s))
  {
    var s1, i := s.(queue := s.queue[1..]), s.queue[0].init;
    if i < |s.initializations| {
      InitJobFrame(s1, i);
      InitJobDisposesNothing(s1, i);
    }
    hide RunInitJob;
  }

  lemma InitJobDisposesNothing(s: State, i: nat)
    requires i < |s.initializations|
    ensures RunInitJob(s, i).disposedViews == s.disposedViews
  {
    hide IsCurrentEntry, ResumeInits;
  }

  // ---- Promises and microtasks only ----

  /** No new request, no reset, and the window stays as it is: promises settle and microtasks run. */
  predicate IsCalm(e: Event) {
    e.Microtask? || e.CreationSettled? || e.InitSettled?
  }

  lemma SettlingIsSilent(s: State, e: Event)
    requires IsCalm(e) && !e.Microtask?
    ensures Silent(s, Apply(s, e)) && Apply(s, e).track == s.track
    ensures forall q | InPlay(Apply(s, e), q) :: InPlay(s, q)
    ensures IsHeld(s) ==> IsHeld(Apply(s, e))
  {
    SettlingUnseen(s, e);
    SettlingKeepsQueue(s, e);
    SettlingKeepsRecords(s, e);
    hide Apply, Silent;
    SameRecords(s, Apply(s, e));
    hide InPlay, IsHeld;
  }

  lemma SettlingUnseen(s: State, e: Event)
    requires IsCalm(e) && !e.Microtask?
    ensures Silent(s, Apply(s, e)) && Apply(s, e).track == s.track
  {
  }

  /** Who created, shares or awaits what. */
  ghost predicate KeepsRecords(s: State, t: State) {
    && |t.creations| == |s.creations| && |t.initializations| == |s.initializations|
    && (forall c | 0 <= c < |s.creations| ::
          && t.creations[c].creator == s.creations[c].creator && t.creations[c].waiters == s.creations[c].waiters
          && CreatorPending(t.creations[c].phase) == CreatorPending(s.creations[c].phase))
    && (forall i | 0 <= i < |s.initializations| :: t.initializations[i].waiters == s.initializations[i].waiters)
  }

  lemma SettlingKeepsRecords(s: State, e: Event)
    requires IsCalm(e) && !e.Microtask?
    ensures KeepsRecords(s, Apply(s, e))
  {
  }

  lemma SameRecords(s: State, t: State)
    requires KeepsRecords(s, t) && s.queue <= t.queue && t.track == s.track
    requires forall k | |s.queue| <= k < |t.queue| :: t.queue[k].CreationJob? || t.queue[k].InitJob?
    ensures forall q | InPlay(t, q) :: InPlay(s, q)
    ensures IsHeld(s) ==> IsHeld(t)
  {
    forall q | InPlay(t, q)
      ensures InPlay(s, q)
    {
      if c :| 0 <= c < |t.creations| && InCreation(t.creations[c], q) {
        assert InCreation(s.creations[c], q);
      } else if k :| 0 <= k < |t.queue| && InTask(t.queue[k], q) {
        assert k < |s.queue| && InTask(s.queue[k], q);
      }
    }
    if s.track.place.AtCreation? && IsHeld(s) {
      RecordsHold(s, t, s.track.place.creation, s.track.lastToken);
    }
  }

  lemma RecordsHold(s: State, t: State, c: nat, lastToken: nat)
    requires KeepsRecords(s, t) && s.queue <= t.queue && HoldsCreation(s.creations, s.queue, c, lastToken)
    ensures HoldsCreation(t.creations, t.queue, c, lastToken)
  {
    if q :| ResumeWaiter(q, c) in s.queue && q.token.serial == lastToken {
      assert ResumeWaiter(q, c) in t.queue;
    }
  }

  lemma SettlingKeepsQueue(s: State, e: Event)
    requires IsCalm(e) && !e.Microtask?
    ensures s.queue <= Apply(s, e).queue
    ensures forall k | |s.queue| <= k < |Apply(s, e).queue| ::
              Apply(s, e).queue[k].CreationJob? || Apply(s, e).queue[k].InitJob?
  {
  }

  /** The request is suspended, and since `s0` nothing has been announced or shown. */
  ghost predicate Waiting(s0: State, s: State, r: Request) {
    && Good(s) && IsLive(s) && IsTheLatest(s, r) && IsHeld(s) && Unheard(s0, s) && !s.track.place.Nowhere?
  }

  /** The front task is the continuation of the request the controller works for. */
  predicate IsItsTurn(s: State) {
    s.queue != [] && !s.queue[0].InitJob? && !IsStale(s, s.queue[0])
  }

  /** What a microtask does that is not the request's turn. */
  lemma NotItsTurn(s: State, r: Request)
    requires Good(s) && IsLive(s) && IsTheLatest(s, r) && s.queue != [] && !IsItsTurn(s)
    ensures Silent(s, RunMicrotask(s)) && RunMicrotask(s).track.place == s.track.place
    ensures Resumes(s, s.queue[0]).Some? ==> Resumes(s, s.queue[0]).value.token.serial != s.track.lastToken
  {
    if s.queue[0].InitJob? {
      InitTask(s);
      InitJobIsSilent(s);
    } else {
      StaleTask(s);
      StaleTaskIsSilent(s);
      LatestIsNotStale(s, r);
    }
    hide Good, RunMicrotask, IsTheLatest, IsLive;
  }

  lemma StaleKeepsWaiting(s0: State, s: State, r: Request)
    requires Waiting(s0, s, r) && s.queue != [] && !IsItsTurn(s)
    ensures Waiting(s0, RunMicrotask(s), r) && RunMicrotask(s).track.place == s.track.place
  {
    var t := RunMicrotask(s);
    EventKeeps(s, Microtask);
    assert Apply(s, Microtask) == t;
    MicrotaskAddsNobody(s);
    NotItsTurn(s, r);
    UnheardThen(s0, s, t);
    if s.track.place.AtCreation? {
      MicrotaskHolds(s);
    }
    hide Good, RunMicrotask, InPlay, HoldsCreation, IsItsTurn;
  }

  /** A stale continuation is not the latest request's. */
  lemma LatestIsNotStale(s: State, r: Request)
    requires Good(s) && IsLive(s) && IsTheLatest(s, r) && s.queue != [] && IsStale(s, s.queue[0])
    ensures Resumes(s, s.queue[0]).Some? ==> Resumes(s, s.queue[0]).value.token.serial != s.track.lastToken
  {
    if Resumes(s, s.queue[0]).Some? {
      var q := Resumes(s, s.queue[0]).value;
      if s.queue[0].CreationJob? {
        assert InCreation(s.creations[s.queue[0].creation], q);
      } else {
        assert InTask(s.queue[0], q);
      }
      assert InPlay(s, q);
    }
    hide Good, InPlay;
  }

  // ---- How the request ends ----

  /**
   What has come of the request since `s0`: one error, one view on screen (unless it was disposed of
   since) and "ready", or for a surface without size nothing.
   */
  predicate Answered(s0: State, t: State, r: Request, init: Initialization) {
    if init.outcome.Failed? || init.view !in t.window.terminalViews then EndsInError(s0, t, r)
    else if r.width <= 0 || r.height <= 0 then
      t.window.statuses == s0.window.statuses && t.ledger.shown == s0.ledger.shown
    else
      && t.window.statuses == s0.window.statuses + [StatusOf(Ready, r.token)]
      && |t.ledger.shown| == |s0.ledger.shown| + 1 && s0.ledger.shown <= t.ledger.shown
      && t.ledger.shown[|s0.ledger.shown|].view == init.view && t.ledger.shown[|s0.ledger.shown|].token == r.token
      && (init.view in t.window.visible || init.view in t.disposedViews)
  }

  /** Between its suspension and its end; `init` is what the request has awaited. */
  ghost predicate InitProgress(s0: State, s: State, r: Request, i: nat) {
    && Good(s) && IsLive(s) && i < |s.initializations|
    && if s.track.place == Nowhere then
         !s.initializations[i].outcome.Undecided? && Answered(s0, s, r, s.initializations[i])
       else s.track.place == AtInit(i) && Waiting(s0, s, r)
  }

  /** An attempt keeps its view, and its outcome once it has one. */
  predicate SameAttempt(before: Initialization, after: Initialization) {
    after.view == before.view && (!before.outcome.Undecided? ==> after.outcome == before.outcome)
  }

  predicate SameAttempts(s: State, t: State) {
    && |t.initializations| == |s.initializations|
    && forall i | 0 <= i < |s.initializations| :: SameAttempt(s.initializations[i], t.initializations[i])
  }

  lemma StaleKeepsAttempts(s: State)
    requires Good(s) && s.queue != [] && !IsItsTurn(s)
    ensures SameAttempts(s, RunMicrotask(s))
  {
    if s.queue[0].InitJob? {
      InitTask(s);
    } else {
      StaleTask(s);
    }
    hide Good, RunMicrotask;
  }

  lemma SettlingKeepsAttempts(s: State, e: Event)
    requires Good(s) && IsCalm(e) && !e.Microtask?
    ensures SameAttempts(s, Apply(s, e))
  {
    if e.InitSettled? && e.init < |s.initializations| {
      TasksOf(s, e.init);
    }
    hide Good;
  }

  lemma AnswerStands(s0: State, s: State, t: State, r: Request, before: Initialization, after: Initialization)
    requires Answered(s0, s, r, before) && Silent(s, t)
    requires SameAttempt(before, after) && !before.outcome.Undecided?
    ensures Answered(s0, t, r, after)
  {
  }

  /** A request that has ended has no turn any more. */
  lemma EndedHasNoTurn(s: State)
    requires Good(s) && IsLive(s) && s.track.place == Nowhere
    ensures !IsItsTurn(s)
  {
    if s.queue != [] && !s.queue[0].InitJob? {
      NobodyLatest(s);
      HeadIsStale(s);
    }
    hide Good;
  }

  lemma EndedStays(s0: State, s: State, e: Event, r: Request, i: nat)
    requires InitProgress(s0, s, r, i) && s.track.place == Nowhere && IsCalm(e)
    ensures InitProgress(s0, Apply(s, e), r, i) && SameAttempts(s, Apply(s, e))
  {
    EventKeeps(s, e);
    EndedHasNoTurn(s);
    var t := Apply(s, e);
    if e.Microtask? && s.queue != [] {
      StaleKeepsAttempts(s);
      if s.queue[0].InitJob? {
        InitTask(s);
        InitJobIsSilent(s);
      } else {
        StaleTask(s);
        StaleTaskIsSilent(s);
      }
    } else if !e.Microtask? {
      SettlingIsSilent(s, e);
      SettlingKeepsAttempts(s, e);
    }
    hide Good, RunMicrotask, SettleInit, SettleCreation, Answered;
    AnswerStands(s0, s, t, r, s.initializations[i], t.initializations[i]);
  }

  lemma SettlingKeepsWaiting(s0: State, s: State, e: Event, r: Request)
    requires Waiting(s0, s, r) && IsCalm(e) && !e.Microtask?
    ensures Waiting(s0, Apply(s, e), r) && Apply(s, e).track == s.track
  {
    EventKeeps(s, e);
    SettlingIsSilent(s, e);
    hide Apply, Good, InPlay, IsHeld;
    UnheardThen(s0, s, Apply(s, e));
  }

  /** The request's turn at an initialisation: it is its own continuation, and it ends. */
  lemma TurnAtInit(s0: State, s: State, r: Request, i: nat)
    requires Waiting(s0, s, r) && s.track.place == AtInit(i) && i < |s.initializations| && IsItsTurn(s)
    ensures InitProgress(s0, RunMicrotask(s), r, i) && SameAttempts(s, RunMicrotask(s))
  {
    EventKeeps(s, Microtask);
    assert Apply(s, Microtask) == RunMicrotask(s);
    TurnIsOwnResume(s);
    ResumedRequestEnds(s, i);
    OwnResumeIsOwn(s, i);
    TasksOf(s, i);
    TurnIsTheLatest(s, r);
    OwnTurnKeeps(s);
    hide Good, RunMicrotask, EndsAfter, Silent, IsTheLatest, IsHeld;
    EndIsAnswer(s0, s, RunMicrotask(s), r, s.initializations[i]);
  }

  lemma TurnIsOwnResume(s: State)
    requires Good(s) && IsItsTurn(s) && s.track.place.AtInit?
    ensures IsOwnResume(s, s.queue[0])
  {
    if !IsOwnResume(s, s.queue[0]) {
      HeadIsStale(s);
    }
    hide Good;
  }

  lemma TurnIsTheLatest(s: State, r: Request)
    requires IsTheLatest(s, r) && s.queue != [] && IsOwnResume(s, s.queue[0])
    ensures s.queue[0].request == r
  {
    assert InTask(s.queue[0], s.queue[0].request);
    assert InPlay(s, s.queue[0].request);
  }

  lemma PreparedSurroundings(s: State, r: Request, view: View)
    ensures SameSurroundings(s, Prepare(s, r, view)) && SameSurroundings(s, Present(s, r, view))
    ensures SameSurroundings(s, DisposeView(s, view))
  {
    DisposeIsSilent(s, view);
    hide DisposeView, ReleaseIfUnowned;
  }

  lemma CreatorSurroundings(s: State, c: nat)
    requires c < |s.creations|
    ensures SameSurroundings(s, ResumeCreator(s, c))
  {
    var creation := s.creations[c];
    if creation.result.Fulfilled? {
      var claimed := SetCreation(s, c, creation.(claimed := true, phase := Finished));
      PreparedSurroundings(Adopt(claimed, creation.result.view), creation.creator, creation.result.view);
    }
    hide Prepare;
  }

  lemma SharerSurroundings(s: State, r: Request, c: nat)
    requires c < |s.creations|
    ensures SameSurroundings(s, ResumeSharer(s, r, c))
  {
    var creation := s.creations[c];
    if creation.result.Fulfilled? {
      var view := creation.result.view;
      PreparedSurroundings(s, r, view);
      PreparedSurroundings(Adopt(SetCreation(s, c, creation.(claimed := true)), view), r, view);
    }
    hide Prepare;
  }

  lemma ResumeInitSurroundings(s: State, r: Request, i: nat)
    requires i < |s.initializations|
    ensures SameSurroundings(s, ResumeAfterInit(s, r, i))
  {
    PreparedSurroundings(s, r, s.initializations[i].view);
    DisposeIsSilent(s, s.initializations[i].view);
    hide DisposeView, ReleaseIfUnowned, Present, IsDesiredInitialization, IsViewOwned;
  }

  lemma OwnTurnKeeps(s: State)
    requires IsItsTurn(s)
    ensures SameSurroundings(s, RunMicrotask(s))
  {
    var s1 := s.(queue := s.queue[1..]);
    hide ResumeCreator, ResumeSharer, DisposeUnclaimed, ResumeAfterInit;
    match s.queue[0] {
      case CreationJob(c) => CreatorSurroundings(Wake(s1, s.creations[c].creator.token), c);
      case ResumeWaiter(r, c) => SharerSurroundings(Wake(s1, r.token), r, c);
      case ResumeInit(r, i) => ResumeInitSurroundings(Wake(s1, r.token), r, i);
    }
  }

  lemma EndIsAnswer(s0: State, s: State, t: State, r: Request, init: Initialization)
    requires Unheard(s0, s) && EndsAfter(s, t, r, init) && !init.outcome.Undecided?
    requires t.window.terminalViews == s.window.terminalViews
    ensures Answered(s0, t, r, init)
  {
  }

  lemma InitStep(s0: State, s: State, e: Event, r: Request, i: nat)
    requires InitProgress(s0, s, r, i) && IsCalm(e)
    ensures InitProgress(s0, Apply(s, e), r, i) && SameAttempts(s, Apply(s, e))
  {
    if s.track.place == Nowhere {
      EndedStays(s0, s, e, r, i);
    } else if !e.Microtask? {
      SettlingKeepsWaiting(s0, s, e, r);
      SettlingKeepsAttempts(s, e);
    } else if s.queue != [] {
      if IsItsTurn(s) {
        TurnAtInit(s0, s, r, i);
      } else {
        StaleKeepsWaiting(s0, s, r);
        StaleKeepsAttempts(s);
      }
    }
    hide Waiting, Good, RunMicrotask, SettleInit, SettleCreation, Answered, IsStale;
  }

  lemma AttemptsThen(s: State, middle: State, t: State)
    requires SameAttempts(s, middle) && SameAttempts(middle, t)
    ensures SameAttempts(s, t)
  {
    assert forall i | 0 <= i < |s.initializations| :: SameAttempt(s.initializations[i], middle.initializations[i]);
    assert forall i | 0 <= i < |s.initializations| :: SameAttempt(middle.initializations[i], t.initializations[i]);
  }

  lemma {:induction false} InitRun(s0: State, s: State, events: seq<Event>, r: Request, i: nat)
    requires InitProgress(s0, s, r, i) && forall e: Event | e in events :: IsCalm(e)
    ensures var t := Run(s, events);
            && InitProgress(s0, t, r, i) && SameAttempts(s, t)
    decreases |events|
  {
    if events != [] {
      assert events[0] in events;
      InitStep(s0, s, events[0], r, i);
      hide Apply, InitProgress, IsCalm, SameAttempts;
      assert forall e | e in events[1..] :: e in events;
      InitRun(s0, Apply(s, events[0]), events[1..], r, i);
      AttemptsThen(s, Apply(s, events[0]), Run(Apply(s, events[0]), events[1..]));
    }
  }

  /**
   The request that awaits an initialisation is answered: whatever else settles and runs, once this
   attempt has settled and nothing is queued any more, it has ended with its view on screen and "ready"
   or, if the attempt failed or the view is no terminal's, with one error.
   */
  lemma AwaitedInitialisationIsAnswered(s: State, i: nat, r: Request, events: seq<Event>)
    requires Suspended(s, i) && IsTheLatest(s, r) && forall e: Event | e in events :: IsCalm(e)
    ensures var t := Run(s, events);
            && i < |t.initializations| && t.initializations[i].view == s.initializations[i].view
            && (t.queue == [] && !t.initializations[i].outcome.Undecided? ==>
                  t.track.place == Nowhere && Answered(s, t, r, t.initializations[i]))
  {
    assert InitProgress(s, s, r, i);
    hide Good, Run;
    InitRun(s, s, events, r, i);
    var t := Run(s, events);
    if t.queue == [] && t.track.place != Nowhere {
      DrainedAtInit(t, i);
    }
    hide Answered;
  }

  // ---- From the creation on ----

  /** What has come of the request since it awaited creation `c`. */
  ghost predicate CreationProgress(s0: State, s: State, r: Request, c: nat) {
    && Good(s) && IsLive(s) && c < |s.creations|
    && if s.track.place == AtCreation(c) then Waiting(s0, s, r)
       else match s.creations[c].result
         case Unsettled => false
         case Rejected => s.track.place == Nowhere && EndsInError(s0, s, r)
         case Fulfilled(view) => ViewProgress(s0, s, r, view)
  }

  predicate SameResult(before: CreationResult, after: CreationResult) {
    !before.Unsettled? ==> after == before
  }

  lemma MicrotaskKeepsResults(s: State, c: nat)
    requires Good(s) && c < |s.creations|
    ensures var t := RunMicrotask(s); c < |t.creations| && t.creations[c].result == s.creations[c].result
  {
    if s.queue != [] {
      HeadIsOpenNot(s);
      TaskGoesOn(s.(queue := s.queue[1..]), s.queue[0]);
    }
    hide Good, RunTask;
  }

  lemma SettlingKeepsResults(s: State, e: Event, c: nat)
    requires Good(s) && IsCalm(e) && !e.Microtask? && c < |s.creations|
    ensures var t := Apply(s, e); c < |t.creations| && SameResult(s.creations[c].result, t.creations[c].result)
  {
    hide StatusesOk, ReadyOk, AllShownOk, RegistryOk, LedgerOk, VisibleOk, ResolvedBySharers, EntriesReady, ResultsOk,
      PlaceOk, JobsQueued, InitJobsQueued, InitRequestsOk, QueueOk, InitsOk;
    assert CreationOk(s.creations[c], c, s.creationPromises, s.track);
  }

  lemma TurnClaims(s: State, r: Request, c: nat)
    requires Good(s) && IsLive(s) && IsTheLatest(s, r) && s.track.place == AtCreation(c) && IsItsTurn(s)
    ensures var t := RunMicrotask(s);
            && Good(t) && IsTheLatest(t, r) && SameSurroundings(s, t) && IsClaimed(s, t, c)
            && Resumes(s, s.queue[0]).Some? && Resumes(s, s.queue[0]).value == r
            && (s.creations[c].result.Fulfilled? || s.creations[c].result.Rejected?)
  {
    EventKeeps(s, Microtask);
    assert Apply(s, Microtask) == RunMicrotask(s);
    ResumedRequestClaims(s, c);
    OwnFinds(s, c);
    OwnTurnKeeps(s);
    MicrotaskAddsNobody(s);
    ContinuationIsTheLatest(s, r);
    hide Good, RunMicrotask, InPlay, IsClaimed, IsTheLatest;
    LatestGoesOn(s, RunMicrotask(s), r);
  }

  /** The request's turn at its creation: it claims the view, or ends with an error. */
  lemma TurnAtCreation(s0: State, s: State, r: Request, c: nat)
    requires Waiting(s0, s, r) && s.track.place == AtCreation(c) && c < |s.creations| && IsItsTurn(s)
    ensures CreationProgress(s0, RunMicrotask(s), r, c)
  {
    var t := RunMicrotask(s);
    TurnClaims(s, r, c);
    hide Good, RunMicrotask, IsTheLatest, IsItsTurn, Resumes;
    if s.creations[c].result.Fulfilled? {
      UnheardThen(s0, s, t);
      assert InitProgress(s0, t, r, t.track.place.init);
    } else {
      ErrorIsAnswer(s0, s, t, r);
    }
  }

  lemma LatestGoesOn(s: State, t: State, r: Request)
    requires IsTheLatest(s, r) && SameSurroundings(s, t) && forall q | InPlay(t, q) :: InPlay(s, q)
    ensures IsTheLatest(t, r)
  {
    hide InPlay;
  }

  lemma ErrorIsAnswer(s0: State, s: State, t: State, r: Request)
    requires Unheard(s0, s) && EndsInError(s, t, r)
    ensures EndsInError(s0, t, r)
  {
  }

  lemma ContinuationIsTheLatest(s: State, r: Request)
    requires IsTheLatest(s, r) && IsItsTurn(s) && Resumes(s, s.queue[0]).value.token.serial == s.track.lastToken
    ensures Resumes(s, s.queue[0]).value == r
  {
    var q := Resumes(s, s.queue[0]).value;
    if s.queue[0].CreationJob? {
      assert InCreation(s.creations[s.queue[0].creation], q);
    } else {
      assert InTask(s.queue[0], q);
    }
    assert InPlay(s, q);
  }

  ghost predicate ViewProgress(s0: State, s: State, r: Request, view: View) {
    exists i | 0 <= i < |s.initializations| :: s.initializations[i].view == view && InitProgress(s0, s, r, i)
  }

  lemma FulfilledStays(s0: State, s: State, e: Event, r: Request, view: View)
    requires ViewProgress(s0, s, r, view) && IsCalm(e)
    ensures var t := Apply(s, e);
            Good(t) && IsLive(t) && !t.track.place.AtCreation? && ViewProgress(s0, t, r, view)
  {
    var i :| 0 <= i < |s.initializations| && s.initializations[i].view == view && InitProgress(s0, s, r, i);
    InitStep(s0, s, e, r, i);
    ProgressIsGood(s0, Apply(s, e), r, i);
    hide Apply, InitProgress, Good;
    assert SameAttempt(s.initializations[i], Apply(s, e).initializations[i]);
  }

  lemma ProgressIsGood(s0: State, s: State, r: Request, i: nat)
    requires InitProgress(s0, s, r, i)
    ensures Good(s) && IsLive(s) && !s.track.place.AtCreation? && i < |s.initializations|
  {
    hide Good, Waiting;
  }

  /** Once a request has ended, nothing is announced or shown for it any more. */
  lemma NothingAfterTheEnd(s: State, e: Event)
    requires Good(s) && IsLive(s) && s.track.place == Nowhere && IsCalm(e)
    ensures var t := Apply(s, e); Good(t) && IsLive(t) && t.track.place == Nowhere && Unheard(s, t)
  {
    EventKeeps(s, e);
    EndedHasNoTurn(s);
    if e.Microtask? && s.queue != [] {
      if s.queue[0].InitJob? {
        InitTask(s);
        InitJobIsSilent(s);
      } else {
        StaleTask(s);
        StaleTaskIsSilent(s);
      }
    } else if !e.Microtask? {
      SettlingIsSilent(s, e);
    }
    hide Good, RunMicrotask, SettleInit, SettleCreation;
  }

  lemma CreationStep(s0: State, s: State, e: Event, r: Request, c: nat)
    requires CreationProgress(s0, s, r, c) && IsCalm(e)
    ensures CreationProgress(s0, Apply(s, e), r, c)
  {
    if e.Microtask? {
      MicrotaskKeepsResults(s, c);
    } else {
      SettlingKeepsResults(s, e, c);
    }
    if s.track.place != AtCreation(c) {
      if s.creations[c].result.Fulfilled? {
        FulfilledStays(s0, s, e, r, s.creations[c].result.view);
      } else {
        NothingAfterTheEnd(s, e);
      }
    } else if !e.Microtask? {
      SettlingKeepsWaiting(s0, s, e, r);
    } else if s.queue != [] {
      if IsItsTurn(s) {
        TurnAtCreation(s0, s, r, c);
      } else {
        StaleKeepsWaiting(s0, s, r);
      }
    }
    hide Waiting, Good, RunMicrotask, SettleInit, SettleCreation, IsStale, ViewProgress;
  }

  lemma {:induction false} CreationRun(s0: State, s: State, events: seq<Event>, r: Request, c: nat)
    requires CreationProgress(s0, s, r, c) && forall e: Event | e in events :: IsCalm(e)
    ensures CreationProgress(s0, Run(s, events), r, c)
    decreases |events|
  {
    if events != [] {
      assert events[0] in events;
      CreationStep(s0, s, events[0], r, c);
      hide Apply, CreationProgress, IsCalm;
      assert forall e | e in events[1..] :: e in events;
      CreationRun(s0, Apply(s, events[0]), events[1..], r, c);
    }
  }

  /** Everything the latest request awaits has settled. */
  predicate IsSettled(t: State) {
    match t.track.place
    case Nowhere => true
    case AtCreation(c) => c < |t.creations| && !t.creations[c].phase.Open?
    case AtInit(i) => i < |t.initializations| && !t.initializations[i].outcome.Undecided?
  }

  /**
   The request that awaits a creation is answered too: once what it awaits has settled and nothing is
   queued any more, it has ended with an error if the creation failed, and otherwise as the
   initialisation of the created view did.
   */
  lemma AwaitedCreationIsAnswered(s: State, c: nat, r: Request, events: seq<Event>)
    requires Good(s) && IsLive(s) && s.track.place == AtCreation(c) && IsTheLatest(s, r) && IsHeld(s)
    requires forall e: Event | e in events :: IsCalm(e)
    ensures var t := Run(s, events);
            t.queue == [] && IsSettled(t) ==>
              && t.track.place == Nowhere && c < |t.creations|
              && match t.creations[c].result
                 case Unsettled => false
                 case Rejected => EndsInError(s, t, r)
                 case Fulfilled(view) =>
                   exists i | 0 <= i < |t.initializations| ::
                     t.initializations[i].view == view && Answered(s, t, r, t.initializations[i])
  {
    CreationRun(s, s, events, r, c);
    var t := Run(s, events);
    hide Run;
    if t.queue == [] && IsSettled(t) {
      if t.track.place.AtCreation? {
        DrainedAtCreation(t);
      } else if t.track.place.AtInit? {
        DrainedAtInit(t, t.track.place.init);
      }
    }
    hide Good, Answered, IsTheLatest;
  }

  // ---- Every request ----

  lemma EarlierAreNotLatest(s: State)
    requires Good(s)
    ensures forall q | InPlay(s, q) :: q.token.serial <= s.track.lastToken
  {
    hide StatusesOk, ReadyOk, AllShownOk, RegistryOk, LedgerOk, VisibleOk, ResolvedBySharers, EntriesReady, ResultsOk,
      PlaceOk, JobsQueued, InitJobsQueued, InitRequestsOk;
    forall q | InPlay(s, q)
      ensures q.token.serial <= s.track.lastToken
    {
      if c :| 0 <= c < |s.creations| && InCreation(s.creations[c], q) {
        assert CreationOk(s.creations[c], c, s.creationPromises, s.track);
      } else if i :| 0 <= i < |s.initializations| && q in s.initializations[i].waiters {
        assert InitOk(s.initializations[i], i, s.track);
      } else if k :| 0 <= k < |s.queue| && InTask(s.queue[k], q) {
        assert TaskOk(s.queue[k], s.creations, s.initializations, s.track);
      }
    }
  }

  lemma PreparedAddsOne(s: State, r: Request, view: View)
    ensures forall q | InPlay(Prepare(s, r, view), q) :: InPlay(s, q) || q == r
  {
    PreparedInits(s, r, view);
    SameGoesOn(s, Prepare(s, r, view));
    hide Prepare, CreationsGoOn, InitsGoOn, InPlay;
    GoingOnAddsNobody(s, Prepare(s, r, view), None, Some(r));
  }

  lemma SamePlay(s: State, t: State)
    requires t.creations == s.creations && t.initializations == s.initializations && t.queue == s.queue
    ensures forall q :: InPlay(t, q) == InPlay(s, q)
  {
  }

  lemma CreationAddsOne(s: State, r: Request, created: CreateOutcome)
    ensures forall q | InPlay(RequestCreation(s, r, created), q) :: InPlay(s, q) || q == r
  {
    var key, t := CreationKey(r.token), RequestCreation(s, r, created);
    if key in s.creationPromises && s.creationPromises[key] < |s.creations| {
      JoinAddsOne(s, r, s.creationPromises[key]);
    } else if created.ReturnsView? {
      var more := s.(ledger := s.ledger.(nextView := s.ledger.nextView + 1));
      PreparedAddsOne(Adopt(more, View(r.tab, s.ledger.nextView)), r, View(r.tab, s.ledger.nextView));
      SamePlay(s, Adopt(more, View(r.tab, s.ledger.nextView)));
    } else if created.ReturnsPromise? {
      forall q | InPlay(t, q) && q != r
        ensures InPlay(s, q)
      {
        if c :| 0 <= c < |t.creations| && InCreation(t.creations[c], q) {
          assert InCreation(s.creations[c], q);
        }
      }
    } else {
      SamePlay(s, t);
    }
    hide Prepare, JoinCreation;
  }

  lemma JoinAddsOne(s: State, r: Request, c: nat)
    requires c < |s.creations|
    ensures forall q | InPlay(JoinCreation(s, r, c), q) :: InPlay(s, q) || q == r
  {
    var t := JoinCreation(s, r, c);
    forall q | InPlay(t, q) && q != r
      ensures InPlay(s, q)
    {
      if d :| 0 <= d < |t.creations| && InCreation(t.creations[d], q) {
        assert InCreation(s.creations[d], q);
      } else if k :| 0 <= k < |t.queue| && InTask(t.queue[k], q) {
        assert InTask(s.queue[k], q);
      }
    }
  }

  lemma TerminalAddsOne(s: State, r: Request, created: CreateOutcome)
    ensures forall q | InPlay(RequestTerminal(s, r, created), q) :: InPlay(s, q) || q == r
  {
    var loading := Emit(s, Loading, r.token);
    SamePlay(s, loading);
    if r.tab in s.window.registry {
      PreparedAddsOne(s, r, s.window.registry[r.tab]);
      PreparedAddsOne(loading, r, s.window.registry[r.tab]);
    } else {
      CreationAddsOne(loading, r, created);
    }
    hide Prepare, RequestCreation, InPlay;
  }

  /** A request that arrives is the latest from then on, and held where it waits. */
  lemma ArrivingIsTheLatest(s: State, surface: Surface, created: CreateOutcome)
    requires Good(s) && Accepts(s, surface) && surface.terminalTabId.Some?
    ensures var (t, r) := (RequestSurface(s, surface, created), RequestOf(s, surface));
            Good(t) && IsLive(t) && IsTheLatest(t, r) && IsHeld(t)
  {
    EventKeeps(s, Requested(surface, created));
    RequestStarts(s, surface, created);
    var t, r, s1 := RequestSurface(s, surface, created), RequestOf(s, surface), Accepted(s, surface);
    assert t == RequestTerminal(s1, r, created);
    assert Apply(s, Requested(surface, created)) == t;
    EarlierAreNotLatest(s);
    TerminalAddsOne(s1, r, created);
    SamePlay(s, s1);
    TerminalSurroundings(s1, r, created);
    hide Good, RequestTerminal, InPlay, EndsWith;
    StartedIsHeld(s, t, surface, created);
    hide Starts;
  }

  /** The call of `request` that this surface starts. */
  function RequestOf(s: State, surface: Surface): Request
    requires surface.terminalTabId.Some?
  {
    Request(NewToken(s, surface), surface.terminalTabId.value, surface.width, surface.height)
  }

  lemma TerminalSurroundings(s: State, r: Request, created: CreateOutcome)
    ensures SameSurroundings(s, RequestTerminal(s, r, created))
  {
    var loading := Emit(s, Loading, r.token);
    if r.tab in s.window.registry {
      PreparedSurroundings(s, r, s.window.registry[r.tab]);
      PreparedSurroundings(loading, r, s.window.registry[r.tab]);
    } else {
      var view := View(r.tab, s.ledger.nextView);
      PreparedSurroundings(Adopt(loading.(ledger := loading.ledger.(nextView := loading.ledger.nextView + 1)), view),
                           r, view);
    }
    hide Prepare, Present, DisposeView;
  }

  lemma StartedIsHeld(s: State, t: State, surface: Surface, created: CreateOutcome)
    requires Starts(s, t, surface, created) && surface.terminalTabId.Some?
    ensures IsHeld(t)
  {
    hide EndsWith;
  }

  /** "Loading" is announced exactly if the tab has no view or one that is not ready. */
  function LoadingPart(s: State, r: Request): seq<Status> {
    if r.tab in s.window.registry && s.window.registry[r.tab] !in s.unreadyViews then []
    else [StatusOf(Loading, r.token)]
  }

  /** From the request's arrival to its end: exactly one answer, or none for a surface without size. */
  ghost predicate IsAnswered(s: State, t: State, r: Request) {
    exists final ::
      t.window.statuses == s.window.statuses + LoadingPart(s, r) + final && IsAnswer(s, t, r, final)
  }

  predicate IsAnswer(s: State, t: State, r: Request, final: seq<Status>) {
    || (final == [StatusOf(Error, r.token)] && t.ledger.shown == s.ledger.shown)
    || (final == [] && (r.width <= 0 || r.height <= 0) && t.ledger.shown == s.ledger.shown)
    || (&& final == [StatusOf(Ready, r.token)] && r.width > 0 && r.height > 0
        && |t.ledger.shown| == |s.ledger.shown| + 1 && s.ledger.shown <= t.ledger.shown
        && t.ledger.shown[|s.ledger.shown|].token == r.token)
  }

  lemma {:induction false} NothingAfter(s: State, events: seq<Event>)
    requires Good(s) && IsLive(s) && s.track.place == Nowhere && forall e: Event | e in events :: IsCalm(e)
    ensures var t := Run(s, events); t.track.place == Nowhere && Unheard(s, t)
    decreases |events|
  {
    if events != [] {
      assert events[0] in events;
      NothingAfterTheEnd(s, events[0]);
      hide Apply, Good, IsCalm, IsLive;
      assert forall e | e in events[1..] :: e in events;
      NothingAfter(Apply(s, events[0]), events[1..]);
      UnheardThen(s, Apply(s, events[0]), Run(Apply(s, events[0]), events[1..]));
    }
  }

  /** What has been announced before the answer. */
  predicate StartedLoading(s: State, s1: State, r: Request) {
    s1.window.statuses == s.window.statuses + LoadingPart(s, r) && s1.ledger.shown == s.ledger.shown
  }

  lemma AnswerCounts(s: State, s1: State, t: State, r: Request, init: Initialization)
    requires StartedLoading(s, s1, r) && Answered(s1, t, r, init)
    ensures IsAnswered(s, t, r)
  {
    var final := t.window.statuses[|s1.window.statuses|..];
    assert t.window.statuses == s1.window.statuses + final;
    assert IsAnswer(s, t, r, final);
  }

  lemma ErrorCounts(s: State, s1: State, t: State, r: Request)
    requires StartedLoading(s, s1, r) && EndsInError(s1, t, r)
    ensures IsAnswered(s, t, r)
  {
    assert t.window.statuses == s.window.statuses + LoadingPart(s, r) + [StatusOf(Error, r.token)];
    assert IsAnswer(s, t, r, [StatusOf(Error, r.token)]);
  }

  /** A request that ends at once is answered, and stays so. */
  lemma EndedAtOnce(s: State, s1: State, t: State, surface: Surface, created: CreateOutcome)
    requires Starts(s, s1, surface, created) && surface.terminalTabId.Some?
    requires s1.track.place == Nowhere && Unheard(s1, t)
    ensures IsAnswered(s, t, RequestOf(s, surface))
  {
    var r := RequestOf(s, surface);
    if r.tab in s.window.registry {
      var final := t.window.statuses[|s.window.statuses|..];
      assert t.window.statuses == s.window.statuses + LoadingPart(s, r) + final;
      assert IsAnswer(s, t, r, final);
    } else {
      assert t.window.statuses == s.window.statuses + LoadingPart(s, r) + [StatusOf(Error, r.token)];
      assert IsAnswer(s, t, r, [StatusOf(Error, r.token)]);
    }
  }

  lemma SuspendedStarts(s: State, s1: State, surface: Surface, created: CreateOutcome)
    requires Starts(s, s1, surface, created) && surface.terminalTabId.Some? && s1.track.place != Nowhere
    ensures StartedLoading(s, s1, RequestOf(s, surface))
  {
  }

  /**
   Every accepted request for a terminal is answered: once the promises it waits for have settled and no
   microtask is left, whatever else settled and ran, it has been announced once as ready, with its view
   shown, or once as failed; without a size it has ended too.
   */
  lemma RequestIsAnswered(initial: State, events: seq<Event>, surface: Surface, created: CreateOutcome,
                          calm: seq<Event>)
    requires Initial(initial) && surface.terminalTabId.Some? && Accepts(Run(initial, events), surface)
    requires forall e: Event | e in calm :: IsCalm(e)
    ensures var s := Run(initial, events);
            var t := Run(Apply(s, Requested(surface, created)), calm);
            t.queue == [] && IsSettled(t) ==> t.track.place == Nowhere && IsAnswered(s, t, RequestOf(s, surface))
  {
    InitialInv(initial);
    SurfaceTheorems.RunKeeps(initial, events);
    hide Run, Initial, Good;
    GoodRequestIsAnswered(Run(initial, events), surface, created, calm);
  }

  lemma GoodRequestIsAnswered(s: State, surface: Surface, created: CreateOutcome, calm: seq<Event>)
    requires Good(s) && surface.terminalTabId.Some? && Accepts(s, surface)
    requires forall e: Event | e in calm :: IsCalm(e)
    ensures var t := Run(Apply(s, Requested(surface, created)), calm);
            t.queue == [] && IsSettled(t) ==> t.track.place == Nowhere && IsAnswered(s, t, RequestOf(s, surface))
  {
    var s1, r := Apply(s, Requested(surface, created)), RequestOf(s, surface);
    var t := Run(s1, calm);
    RequestStarts(s, surface, created);
    ArrivingIsTheLatest(s, surface, created);
    hide Good, RequestSurface, Run, IsTheLatest, IsHeld, Starts, Answered;
    match s1.track.place {
      case Nowhere =>
        NothingAfter(s1, calm);
        EndedAtOnce(s, s1, t, surface, created);
      case AtCreation(c) =>
        SuspendedStarts(s, s1, surface, created);
        AwaitedCreationIsAnswered(s1, c, r, calm);
        if t.queue == [] && IsSettled(t) {
          CreationCounts(s, s1, t, r, c);
        }
      case AtInit(i) =>
        SuspendedStarts(s, s1, surface, created);
        StartedIsSuspended(s1, i);
        AwaitedInitialisationIsAnswered(s1, i, r, calm);
        InitIsSettled(s1, t, calm, i, r);
        if t.queue == [] && IsSettled(t) {
          AnswerCounts(s, s1, t, r, t.initializations[i]);
        }
    }
  }

  lemma StartedIsSuspended(s: State, i: nat)
    requires Good(s) && IsLive(s) && s.track.place == AtInit(i)
    ensures Suspended(s, i)
  {
    hide StatusesOk, ReadyOk, AllShownOk, RegistryOk, LedgerOk, VisibleOk, ResolvedBySharers, EntriesReady, ResultsOk,
      JobsQueued, InitJobsQueued, InitRequestsOk, CreationsOk, QueueOk, InitsOk;
  }

  /** While the request waits it waits for this attempt; when it has ended, that has settled. */
  lemma InitIsSettled(s: State, t: State, calm: seq<Event>, i: nat, r: Request)
    requires Suspended(s, i) && IsTheLatest(s, r) && t == Run(s, calm) && forall e: Event | e in calm :: IsCalm(e)
    ensures i < |t.initializations| && (IsSettled(t) ==> !t.initializations[i].outcome.Undecided?)
  {
    assert InitProgress(s, s, r, i);
    hide Good, Run, Answered;
    InitRun(s, s, calm, r, i);
  }

  lemma CreationCounts(s: State, s1: State, t: State, r: Request, c: nat)
    requires StartedLoading(s, s1, r) && c < |t.creations|
    requires match t.creations[c].result
             case Unsettled => false
             case Rejected => EndsInError(s1, t, r)
             case Fulfilled(view) =>
               exists i | 0 <= i < |t.initializations| ::
                 t.initializations[i].view == view && Answered(s1, t, r, t.initializations[i])
    ensures IsAnswered(s, t, r)
  {
    hide IsAnswered, StartedLoading, EndsInError, Answered;
    match t.creations[c].result {
      case Rejected => ErrorCounts(s, s1, t, r);
      case Fulfilled(view) =>
        var i :| 0 <= i < |t.initializations| && t.initializations[i].view == view
                 && Answered(s1, t, r, t.initializations[i]);
        AnswerCounts(s, s1, t, r, t.initializations[i]);
    }
  }
}
