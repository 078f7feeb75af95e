/** The jobs of the terminal surface controller's promises are in the queue as long as they are needed. */
module SurfaceJobs {
  import opened Wrappers
  import opened SurfaceModel
  import opened SurfaceInvariant
  import opened SurfaceTasks

  // ---- Jobs of creations ----

  lemma PrepareFrame(s: State, r: Request, view: View)
    ensures Prepare(s, r, view).queue == s.queue && Prepare(s, r, view).creations == s.creations
  {
  }

  lemma PoppedJobs(s: State)
    requires JobsQueued(s.queue, s.creations) && s.queue != []
    ensures forall c | 0 <= c < |s.creations| && s.queue[0] != CreationJob(c) ::
              !s.creations[c].phase.Open? && !s.creations[c].phase.Finished? ==> CreationJob(c) in s.queue[1..]
  {
    forall c | 0 <= c < |s.creations| && s.queue[0] != CreationJob(c) && CreationJob(c) in s.queue
      ensures CreationJob(c) in s.queue[1..]
    {
      var k :| 0 <= k < |s.queue| && s.queue[k] == CreationJob(c);
      assert s.queue[1..][k - 1] == CreationJob(c);
    }
  }

  lemma ResumeCreatorJobs(s: State, c: nat)
    requires c < |s.creations| && s.creations[c].phase.Resuming?
    requires forall d | 0 <= d < |s.creations| && d != c ::
               !s.creations[d].phase.Open? && !s.creations[d].phase.Finished? ==> CreationJob(d) in s.queue
    ensures JobsQueued(ResumeCreator(s, c).queue, ResumeCreator(s, c).creations)
  {
    hide Prepare;
    var creation := s.creations[c];
    if creation.result.Fulfilled? {
      var claimed := SetCreation(s, c, creation.(claimed := true, phase := Finished));
      PrepareFrame(Adopt(claimed, creation.result.view), creation.creator, creation.result.view);
    }
  }

  lemma CreationJobs(s: State, c: nat)
    requires c < |s.creations|
    requires forall d | 0 <= d < |s.creations| && d != c ::
               !s.creations[d].phase.Open? && !s.creations[d].phase.Finished? ==> CreationJob(d) in s.queue
    requires !s.creations[c].phase.Open?
    ensures JobsQueued(RunCreationJob(s, c).queue, RunCreationJob(s, c).creations)
  {
    hide ResumeCreator;
    match s.creations[c].phase {
      case Resuming => ResumeCreatorJobs(Wake(s, s.creations[c].creator.token), c);
      case Checking => CheckingJobs(s, c);
      case Finished =>
      case _ => NextCreationJob(s, c);
    }
    hide JobsQueued, DisposeUnclaimed, Wake;
  }

  lemma CheckingJobs(s: State, c: nat)
    requires c < |s.creations| && s.creations[c].phase.Checking?
    requires forall d | 0 <= d < |s.creations| && d != c ::
               !s.creations[d].phase.Open? && !s.creations[d].phase.Finished? ==> CreationJob(d) in s.queue
    ensures JobsQueued(RunCreationJob(s, c).queue, RunCreationJob(s, c).creations)
  {
    if s.creations[c].result.Fulfilled? {
      DisposeFrame(SetCreation(s, c, s.creations[c].(disposed := true)), s.creations[c].result.view);
    }
    hide DisposeView;
  }

  lemma NextCreationJob(s: State, c: nat)
    requires c < |s.creations|
    requires s.creations[c].phase.Settling? || s.creations[c].phase.Settled?
             || s.creations[c].phase.Adopting? || s.creations[c].phase.Delivering?
    requires forall d | 0 <= d < |s.creations| && d != c ::
               !s.creations[d].phase.Open? && !s.creations[d].phase.Finished? ==> CreationJob(d) in s.queue
    ensures JobsQueued(RunCreationJob(s, c).queue, RunCreationJob(s, c).creations)
  {
    hide ResumeCreator, DisposeUnclaimed;
    var after := RunCreationJob(s, c);
    assert CreationJob(c) in after.queue && s.queue <= after.queue;
    forall d | 0 <= d < |s.creations| && d != c && CreationJob(d) in s.queue
      ensures CreationJob(d) in after.queue
    {
      var k :| 0 <= k < |s.queue| && s.queue[k] == CreationJob(d);
      assert after.queue[k] == s.queue[k];
    }
  }

  lemma SharerJobs(s: State, r: Request, c: nat)
    requires c < |s.creations| && JobsQueued(s.queue, s.creations)
    ensures JobsQueued(ResumeSharer(s, r, c).queue, ResumeSharer(s, r, c).creations)
  {
    hide Prepare;
    var creation := s.creations[c];
    if creation.result.Fulfilled? {
      var view := creation.result.view;
      PrepareFrame(s, r, view);
      PrepareFrame(Adopt(SetCreation(s, c, creation.(claimed := true)), view), r, view);
    }
  }

  lemma DisposeFrame(s: State, view: View)
    ensures DisposeView(s, view).queue == s.queue && DisposeView(s, view).creations == s.creations
    ensures ReleaseIfUnowned(s, view).queue == s.queue && ReleaseIfUnowned(s, view).creations == s.creations
    ensures DisposeView(s, view).initializations == s.initializations
    ensures DisposeView(s, view).desired == s.desired && DisposeView(s, view).track.lastToken == s.track.lastToken
    ensures ReleaseIfUnowned(s, view).initializations == s.initializations
    ensures ReleaseIfUnowned(s, view).desired == s.desired
            && ReleaseIfUnowned(s, view).track.lastToken == s.track.lastToken
  {
  }

  lemma PresentFrame(s: State, r: Request, view: View)
    ensures Present(s, r, view).queue == s.queue && Present(s, r, view).creations == s.creations
    ensures Present(s, r, view).initializations == s.initializations
    ensures Present(s, r, view).desired == s.desired && Present(s, r, view).track.lastToken == s.track.lastToken
  {
    DisposeFrame(s, view);
    hide DisposeView, ReleaseIfUnowned;
  }

  lemma ResumeFrame(s: State, r: Request, i: nat)
    requires i < |s.initializations|
    ensures ResumeAfterInit(s, r, i).queue == s.queue && ResumeAfterInit(s, r, i).creations == s.creations
    ensures ResumeAfterInit(s, r, i).initializations == s.initializations
    ensures ResumeAfterInit(s, r, i).desired == s.desired
            && ResumeAfterInit(s, r, i).track.lastToken == s.track.lastToken
  {
    var view := s.initializations[i].view;
    DisposeFrame(s, view);
    PresentFrame(s, r, view);
    hide Present, DisposeView, ReleaseIfUnowned, IsDesiredInitialization, IsViewOwned, IsDesired;
  }

  lemma InitJobs(s: State, i: nat)
    requires i < |s.initializations| && JobsQueued(s.queue, s.creations)
    ensures JobsQueued(RunInitJob(s, i).queue, RunInitJob(s, i).creations)
  {
    assert s.queue <= RunInitJob(s, i).queue && RunInitJob(s, i).creations == s.creations;
  }

  lemma OtherJobs(s: State, task: Task)
    requires JobsQueued(s.queue, s.creations) && (task.DisposeCheck? || task.InitJob? || task.ResumeInit?)
    ensures JobsQueued(RunTask(s, task).queue, RunTask(s, task).creations)
  {
    hide RunInitJob, ResumeAfterInit;
    match task {
      case InitJob(i) => if i < |s.initializations| { InitJobs(s, i); }
      case ResumeInit(r, i) => if i < |s.initializations| { ResumeFrame(Wake(s, r.token), r, i); }
      case _ =>
    }
  }

  /** Every created view still has a job that will settle its fate. */
  lemma MicrotaskJobs(s: State)
    requires Good(s)
    ensures JobsQueued(RunMicrotask(s).queue, RunMicrotask(s).creations)
  {
    if s.queue != [] {
      PoppedJobs(s);
      assert TaskOk(s.queue[0], s.creations, s.initializations, s.track);
      hide Core, ResultsOk, RunCreationJob, ResumeSharer;
      var s1 := s.(queue := s.queue[1..]);
      match s.queue[0] {
        case CreationJob(c) => CreationJobs(s1, c);
        case ResumeWaiter(r, c) => SharerJobs(Wake(s1, r.token), r, c);
        case _ => OtherJobs(s1, s.queue[0]);
      }
    }
  }

  lemma RequestJobs(s: State, surface: Surface, created: CreateOutcome)
    requires JobsQueued(s.queue, s.creations)
    ensures JobsQueued(RequestSurface(s, surface, created).queue, RequestSurface(s, surface, created).creations)
  {
    hide Prepare, RequestCreation;
    if Accepts(s, surface) && surface.terminalTabId.Some? {
      var s1 := Accepted(s, surface);
      var r := Request(s1.desired.value, surface.terminalTabId.value, surface.width, surface.height);
      RequestCreationJobs(Emit(s1, Loading, r.token), r, created);
      if r.tab in s.window.registry {
        var view := s.window.registry[r.tab];
        PrepareFrame(if view in s1.unreadyViews then Emit(s1, Loading, r.token) else s1, r, view);
      }
    }
  }

  lemma RequestCreationJobs(s: State, r: Request, created: CreateOutcome)
    requires JobsQueued(s.queue, s.creations)
    ensures JobsQueued(RequestCreation(s, r, created).queue, RequestCreation(s, r, created).creations)
  {
    hide Prepare;
    var view := View(r.tab, s.ledger.nextView);
    PrepareFrame(Adopt(s.(ledger := s.ledger.(nextView := s.ledger.nextView + 1)), view), r, view);
  }

  lemma SettledJobs(s: State, e: Event)
    requires JobsQueued(s.queue, s.creations) && (e.CreationSettled? || e.InitSettled?)
    ensures JobsQueued(Apply(s, e).queue, Apply(s, e).creations)
  {
  }

  // ---- Jobs of initialisations ----

  /** The attempts there were go on as they were, new ones have just begun, and no task is lost. */
  ghost predicate InitsGrow(before: State, after: State) {
    && |before.initializations| <= |after.initializations|
    && before.queue <= after.queue
    && (forall i | 0 <= i < |before.initializations| ::
          after.initializations[i].phase == before.initializations[i].phase)
    && (forall i | |before.initializations| <= i < |after.initializations| :: after.initializations[i].phase.Running?)
    && after.desired == before.desired && after.track.lastToken == before.track.lastToken
    && (forall i | 0 <= i < |after.initializations| ::
          forall k | 0 <= k < |after.initializations[i].waiters| ::
            var r := after.initializations[i].waiters[k];
            || (i < |before.initializations| && r in before.initializations[i].waiters)
            || after.desired == Some(r.token))
    && (forall k | |before.queue| <= k < |after.queue| :: !after.queue[k].ResumeInit?)
  }

  lemma GrowingKeepsRequests(before: State, after: State)
    requires InitRequestsOk(before.desired, before.track.lastToken, before.initializations, before.queue)
    requires InitsGrow(before, after)
    ensures InitRequestsOk(after.desired, after.track.lastToken, after.initializations, after.queue)
  {
    assert forall k | 0 <= k < |before.queue| :: after.queue[k] == before.queue[k];
  }

  lemma GrowingKeepsJobs(before: State, after: State)
    requires InitJobsQueued(before.queue, before.initializations) && InitsGrow(before, after)
    ensures InitJobsQueued(after.queue, after.initializations)
  {
    forall i | 0 <= i < |before.initializations| && InitJob(i) in before.queue
      ensures InitJob(i) in after.queue
    {
      var k :| 0 <= k < |before.queue| && before.queue[k] == InitJob(i);
      assert after.queue[k] == InitJob(i);
    }
  }

  lemma PrepareGrows(s: State, r: Request, view: View)
    ensures InitsGrow(s, Prepare(s, r, view))
  {
    DisposeFrame(s, view);
    PresentFrame(s, r, view);
    hide Present, ReleaseIfUnowned;
  }

  lemma DisposeUnclaimedGrows(s: State, c: nat)
    requires c < |s.creations|
    ensures InitsGrow(s, DisposeUnclaimed(s, c)) && |DisposeUnclaimed(s, c).creations| == |s.creations|
  {
    var creation := s.creations[c];
    if creation.result.Fulfilled? {
      DisposeFrame(SetCreation(s, c, creation.(disposed := true)), creation.result.view);
    }
    hide DisposeView;
  }

  lemma ResumeCreatorGrows(s: State, c: nat)
    requires c < |s.creations|
    ensures InitsGrow(s, ResumeCreator(s, c))
  {
    var creation := s.creations[c];
    if creation.result.Fulfilled? {
      var claimed := SetCreation(s, c, creation.(claimed := true, phase := Finished));
      PrepareGrows(Adopt(claimed, creation.result.view), creation.creator, creation.result.view);
    }
    hide Prepare, IsDesired;
  }

  lemma CreationJobGrows(s: State, c: nat)
    requires c < |s.creations|
    ensures InitsGrow(s, RunCreationJob(s, c))
  {
    match s.creations[c].phase {
      case Resuming => ResumeCreatorGrows(Wake(s, s.creations[c].creator.token), c);
      case Checking => DisposeUnclaimedGrows(s, c);
      case _ =>
    }
    hide ResumeCreator, DisposeUnclaimed;
  }

  lemma ResumeSharerGrows(s: State, r: Request, c: nat)
    requires c < |s.creations|
    ensures InitsGrow(s, ResumeSharer(s, r, c))
  {
    var creation := s.creations[c];
    if creation.result.Fulfilled? {
      var view := creation.result.view;
      PrepareGrows(s, r, view);
      PrepareGrows(Adopt(SetCreation(s, c, creation.(claimed := true)), view), r, view);
    }
    hide Prepare, IsDesired;
  }

  lemma OtherTaskGrows(s: State, task: Task)
    requires !task.InitJob?
    ensures InitsGrow(s, RunTask(s, task))
  {
    match task {
      case CreationJob(c) => if c < |s.creations| { CreationJobGrows(s, c); }
      case ResumeWaiter(r, c) => if c < |s.creations| { ResumeSharerGrows(Wake(s, r.token), r, c); }
      case DisposeCheck(_, c) => if c < |s.creations| { DisposeUnclaimedGrows(s, c); }
      case ResumeInit(r, i) => if i < |s.initializations| { ResumeFrame(Wake(s, r.token), r, i); }
    }
    hide RunCreationJob, ResumeSharer, DisposeUnclaimed, ResumeAfterInit;
  }

  /** What the next job of an attempt puts at the end of the queue. */
  function NextTasks(init: Initialization, k: nat): seq<Task> {
    if init.phase.Releasing? then ResumeInits(init.waiters, k) else [InitJob(k)]
  }

  function Advanced(init: Initialization): Initialization {
    if init.phase.Releasing? then init.(phase := Over, waiters := []) else init.(phase := NextPhase(init.phase))
  }

  lemma InitJobAdvances(s: State, k: nat)
    requires k < |s.initializations| && !s.initializations[k].phase.Running? && !s.initializations[k].phase.Over?
    ensures RunInitJob(s, k).initializations == s.initializations[k := Advanced(s.initializations[k])]
    ensures RunInitJob(s, k).queue == s.queue + NextTasks(s.initializations[k], k)
  {
    hide IsCurrentEntry, ResumeInits;
  }

  ghost predicate SameSurface(s: State, t: State) {
    && t.desired == s.desired && t.destroyed == s.destroyed && t.window == s.window
    && t.ledger.shown == s.ledger.shown && t.track == s.track
  }

  lemma ReactingFrame(s: State, k: nat)
    requires k < |s.initializations| && s.initializations[k].phase.Reacting?
    ensures SameSurface(s, RunInitJob(s, k))
  {
    hide IsCurrentEntry;
  }

  lemma InitJobFrame(s: State, k: nat)
    requires k < |s.initializations|
    ensures SameSurface(s, RunInitJob(s, k))
  {
    if s.initializations[k].phase.Reacting? {
      ReactingFrame(s, k);
    } else {
      OtherInitJobFrame(s, k);
    }
    hide RunInitJob;
  }

  lemma OtherInitJobFrame(s: State, k: nat)
    requires k < |s.initializations| && !s.initializations[k].phase.Reacting?
    ensures SameSurface(s, RunInitJob(s, k))
  {
    hide IsCurrentEntry, ResumeInits;
  }

  lemma StillQueued(queue: seq<Task>, more: seq<Task>, task: Task)
    requires task in queue
    ensures task in queue + more
  {
  }

  lemma InitJobRequeues(s: State, i: nat)
    requires i < |s.initializations|
    requires forall j | 0 <= j < |s.initializations| && j != i ::
               !s.initializations[j].phase.Running? && !s.initializations[j].phase.Over? ==> InitJob(j) in s.queue
    ensures InitJobsQueued(RunInitJob(s, i).queue, RunInitJob(s, i).initializations)
  {
    var init := s.initializations[i];
    if init.phase.Running? || init.phase.Over? {
      assert RunInitJob(s, i) == s;
    } else {
      InitJobAdvances(s, i);
      forall j | 0 <= j < |s.initializations| && j != i && InitJob(j) in s.queue
        ensures InitJob(j) in s.queue + NextTasks(init, i)
      {
        StillQueued(s.queue, NextTasks(init, i), InitJob(j));
      }
      assert !init.phase.Releasing? ==> NextTasks(init, i) == [InitJob(i)];
      hide ResumeInits;
    }
    hide RunInitJob;
  }

  lemma MicrotaskInitJobs(s: State)
    requires InitJobsQueued(s.queue, s.initializations)
    ensures InitJobsQueued(RunMicrotask(s).queue, RunMicrotask(s).initializations)
  {
    if s.queue != [] {
      var s1 := s.(queue := s.queue[1..]);
      forall j | 0 <= j < |s.initializations| && InitJob(j) in s.queue && s.queue[0] != InitJob(j)
        ensures InitJob(j) in s1.queue
      {
        var k :| 0 <= k < |s.queue| && s.queue[k] == InitJob(j);
        assert s1.queue[k - 1] == InitJob(j);
      }
      hide RunInitJob, InitsGrow;
      match s.queue[0] {
        case InitJob(i) => if i < |s.initializations| { InitJobRequeues(s1, i); }
        case _ =>
          OtherTaskGrows(s1, s.queue[0]);
          GrowingKeepsJobs(s1, RunTask(s1, s.queue[0]));
      }
      hide InitJobsQueued, RunTask;
    }
  }

  lemma RequestInitJobs(s: State, surface: Surface, created: CreateOutcome)
    requires InitJobsQueued(s.queue, s.initializations)
    ensures InitJobsQueued(RequestSurface(s, surface, created).queue,
                           RequestSurface(s, surface, created).initializations)
  {
    if Accepts(s, surface) {
      RequestGrows(s, surface, created);
      hide RequestSurface;
      GrowingKeepsJobs(Accepted(s, surface), RequestSurface(s, surface, created));
    }
  }

  ghost predicate SameWork(s: State, t: State) {
    && t.initializations == s.initializations && t.queue == s.queue
    && t.desired == s.desired && t.track.lastToken == s.track.lastToken
  }

  lemma GrowsFrom(s: State, middle: State, t: State)
    requires SameWork(s, middle) && InitsGrow(middle, t)
    ensures InitsGrow(s, t)
  {
  }

  lemma SameGrows(s: State, t: State)
    requires t.initializations == s.initializations && s.queue <= t.queue
    requires t.desired == s.desired && t.track.lastToken == s.track.lastToken
    requires forall k | |s.queue| <= k < |t.queue| :: !t.queue[k].ResumeInit?
    ensures InitsGrow(s, t)
  {
  }

  lemma RequestCreationGrows(s: State, r: Request, created: CreateOutcome)
    ensures InitsGrow(s, RequestCreation(s, r, created))
  {
    var key := CreationKey(r.token);
    if created.ReturnsView? && !(key in s.creationPromises && s.creationPromises[key] < |s.creations|) {
      var view := View(r.tab, s.ledger.nextView);
      var adopted := Adopt(s.(ledger := s.ledger.(nextView := s.ledger.nextView + 1)), view);
      PrepareGrows(adopted, r, view);
      GrowsFrom(s, adopted, Prepare(adopted, r, view));
    } else {
      SameGrows(s, RequestCreation(s, r, created));
    }
    hide Prepare, InitsGrow;
  }

  lemma SettledInitJobs(s: State, e: Event)
    requires InitJobsQueued(s.queue, s.initializations) && (e.CreationSettled? || e.InitSettled?)
    ensures InitJobsQueued(Apply(s, e).queue, Apply(s, e).initializations)
  {
    match e {
      case CreationSettled(c, ok) => GrowingKeepsJobs(s, SettleCreation(s, c, ok));
      case InitSettled(i, outcome) =>
        if i < |s.initializations| && s.initializations[i].phase.Running? && !outcome.Undecided? {
          var after := SettleInit(s, i, outcome);
          assert after.queue[|s.queue|] == InitJob(i);
          forall j | 0 <= j < |s.initializations| && InitJob(j) in s.queue
            ensures InitJob(j) in after.queue
          {
            var k :| 0 <= k < |s.queue| && s.queue[k] == InitJob(j);
            assert after.queue[k] == InitJob(j);
          }
        }
    }
  }

  lemma MovedRequests(desired: Option<Token>, lastToken: nat, inits: seq<Initialization>, queue: seq<Task>,
                      i: nat, after: Initialization)
    requires InitRequestsOk(desired, lastToken, inits, queue) && i < |inits|
    requires after.waiters == inits[i].waiters
    ensures InitRequestsOk(desired, lastToken, inits[i := after], queue + [InitJob(i)])
  {
    assert forall k | 0 <= k < |queue| :: (queue + [InitJob(i)])[k] == queue[k];
  }

  lemma ReleasedRequests(desired: Option<Token>, lastToken: nat, inits: seq<Initialization>, queue: seq<Task>,
                         i: nat, after: Initialization)
    requires InitRequestsOk(desired, lastToken, inits, queue) && i < |inits|
    requires after.waiters == []
    ensures InitRequestsOk(desired, lastToken, inits[i := after], queue + ResumeInits(inits[i].waiters, i))
  {
    var tasks := ResumeInits(inits[i].waiters, i);
    forall k | 0 <= k < |queue + tasks| && (queue + tasks)[k].ResumeInit?
      ensures IsKnown(desired, lastToken, (queue + tasks)[k].request)
    {
      if k < |queue| {
        assert (queue + tasks)[k] == queue[k];
      } else {
        assert (queue + tasks)[k] == tasks[k - |queue|];
        assert IsKnown(desired, lastToken, inits[i].waiters[k - |queue|]);
      }
    }
  }

  lemma InitJobRequests(s: State, i: nat)
    requires InitRequestsOk(s.desired, s.track.lastToken, s.initializations, s.queue) && i < |s.initializations|
    ensures var t := RunInitJob(s, i); InitRequestsOk(t.desired, t.track.lastToken, t.initializations, t.queue)
  {
    var init := s.initializations[i];
    if init.phase.Running? || init.phase.Over? {
      assert RunInitJob(s, i) == s;
    } else {
      InitJobAdvances(s, i);
      InitJobFrame(s, i);
      if init.phase.Releasing? {
        ReleasedRequests(s.desired, s.track.lastToken, s.initializations, s.queue, i, Advanced(init));
      } else {
        MovedRequests(s.desired, s.track.lastToken, s.initializations, s.queue, i, Advanced(init));
      }
    }
    hide InitRequestsOk, RunInitJob, ResumeInits;
  }

  lemma MicrotaskInitRequests(s: State)
    requires InitRequestsOk(s.desired, s.track.lastToken, s.initializations, s.queue)
    ensures var t := RunMicrotask(s); InitRequestsOk(t.desired, t.track.lastToken, t.initializations, t.queue)
  {
    if s.queue != [] {
      var s1 := s.(queue := s.queue[1..]);
      assert InitRequestsOk(s1.desired, s1.track.lastToken, s1.initializations, s1.queue);
      hide RunInitJob, InitsGrow;
      match s.queue[0] {
        case InitJob(i) => if i < |s.initializations| { InitJobRequests(s1, i); }
        case _ =>
          OtherTaskGrows(s1, s.queue[0]);
          GrowingKeepsRequests(s1, RunTask(s1, s.queue[0]));
      }
      hide InitRequestsOk, RunTask;
    }
  }

  lemma RequestInitRequests(s: State, surface: Surface, created: CreateOutcome)
    requires Good(s)
    ensures var t := RequestSurface(s, surface, created);
            InitRequestsOk(t.desired, t.track.lastToken, t.initializations, t.queue)
  {
    if Accepts(s, surface) {
      var s1 := Accepted(s, surface);
      AcceptedRequests(s, surface);
      hide Good, Accepted, InitsGrow;
      RequestGrows(s, surface, created);
      GrowingKeepsRequests(s1, RequestSurface(s, surface, created));
    }
  }

  lemma AcceptedRequests(s: State, surface: Surface)
    requires Good(s)
    ensures var t := Accepted(s, surface); InitRequestsOk(t.desired, t.track.lastToken, t.initializations, t.queue)
  {
    hide StatusesOk, ReadyOk, AllShownOk, RegistryOk, LedgerOk, VisibleOk, ResolvedBySharers, EntriesReady,
      ResultsOk, PlaceOk,
      JobsQueued, InitJobsQueued, CreationsOk;
    assert forall k | 0 <= k < |s.queue| :: TaskOk(s.queue[k], s.creations, s.initializations, s.track);
    assert forall i | 0 <= i < |s.initializations| :: InitOk(s.initializations[i], i, s.track);
  }

  lemma RequestGrows(s: State, surface: Surface, created: CreateOutcome)
    requires Accepts(s, surface)
    ensures InitsGrow(Accepted(s, surface), RequestSurface(s, surface, created))
  {
    var s1 := Accepted(s, surface);
    if surface.terminalTabId.Some? {
      TerminalGrows(s1, Request(s1.desired.value, surface.terminalTabId.value, surface.width, surface.height), created);
      hide RequestTerminal, InitsGrow;
    } else {
      SameGrows(s1, RequestSurface(s, surface, created));
      hide InitsGrow;
    }
    hide Accepts;
  }

  lemma TerminalGrows(s: State, r: Request, created: CreateOutcome)
    ensures InitsGrow(s, RequestTerminal(s, r, created))
  {
    var loading := Emit(s, Loading, r.token);
    RequestCreationGrows(loading, r, created);
    GrowsFrom(s, loading, RequestCreation(loading, r, created));
    if r.tab in s.window.registry {
      var view := s.window.registry[r.tab];
      PrepareGrows(s, r, view);
      PrepareGrows(loading, r, view);
      GrowsFrom(s, loading, Prepare(loading, r, view));
    }
    hide Prepare, RequestCreation, InitsGrow;
  }

  lemma OthersInitRequests(s: State, e: Event)
    requires InitRequestsOk(s.desired, s.track.lastToken, s.initializations, s.queue)
    requires !e.Requested? && !e.Microtask?
    ensures var t := Apply(s, e); InitRequestsOk(t.desired, t.track.lastToken, t.initializations, t.queue)
  {
  }
}
