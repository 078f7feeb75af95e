/**
 Exactly when the request the terminal surface controller works for may come to show a view that was
 disposed of: if another attempt at initialising that view is still awaited, may yet fail over the
 renderer kind, and has not fallen behind the request's own attempt.
 */
module SurfaceRivals {
  import opened Wrappers
  import opened SurfaceModel
  import opened SurfaceInvariant
  import opened SurfaceSteps
  import opened SurfaceTasks
  import opened SurfaceJobs
  import opened SurfaceRuns
  import opened SurfaceTheorems

  /** How many jobs an attempt needs before its requests run again; one that is running needs all. */
  function Rank(phase: InitPhase): nat {
    match phase
    case Running => 5
    case Reacting => 4
    case Handled => 3
    case Relaying => 2
    case Releasing => 1
    case Over => 0
  }

  /** The task is the attempt's next job, or the continuation of one of its requests, or of one request only. */
  predicate Carries(task: Task, i: nat, serial: Option<nat>) {
    match task
    case InitJob(k) => k == i
    case ResumeInit(r, k) => k == i && (serial.None? || serial.value == r.token.serial)
    case _ => false
  }

  /** How many tasks come before the first such one. */
  function Pos(queue: seq<Task>, i: nat, serial: Option<nat>): nat {
    if queue == [] || Carries(queue[0], i, serial) then 0 else 1 + Pos(queue[1..], i, serial)
  }

  /** A request of attempt `j` runs again before the latest request, which awaits attempt `i`. */
  predicate Precedes(s: State, j: nat, i: nat)
    requires j < |s.initializations| && i < |s.initializations|
  {
    var rankJ, rankI := Rank(s.initializations[j].phase), Rank(s.initializations[i].phase);
    || rankJ < rankI
    || (rankJ == rankI && Pos(s.queue, j, None) < Pos(s.queue, i, Some(s.track.lastToken)))
  }

  /** Some request still waits for this attempt or has its continuation queued. */
  predicate IsAwaited(s: State, j: nat)
    requires j < |s.initializations|
  {
    s.initializations[j].waiters != [] ||
    exists k | 0 <= k < |s.queue| :: s.queue[k].ResumeInit? && s.queue[k].init == j
  }

  /** It has failed over the renderer kind, or still can. */
  predicate MayMismatch(init: Initialization) {
    init.outcome.Undecided? || init.outcome == Failed(true)
  }

  /** Another attempt at the view of attempt `i`, under the same key, that may yet take it away. */
  predicate IsRival(s: State, j: nat, i: nat)
    requires i < |s.initializations|
  {
    && j < |s.initializations| && j != i
    && SharesOwner(s.initializations[j], s.initializations[i].ownerKey, s.initializations[i].view)
    && IsAwaited(s, j) && MayMismatch(s.initializations[j])
  }

  /** An attempt that is still running can always be overtaken. */
  predicate IsAhead(s: State, j: nat, i: nat)
    requires j < |s.initializations| && i < |s.initializations|
  {
    s.initializations[i].phase.Running? || Precedes(s, j, i)
  }

  /** The view was taken already, or a rival can still take it, from a request that can still succeed. */
  predicate IsThreatened(s: State, i: nat)
    requires i < |s.initializations|
  {
    && !s.initializations[i].outcome.Failed?
    && (s.track.taken || exists j | 0 <= j < |s.initializations| :: IsRival(s, j, i) && IsAhead(s, j, i))
  }

  /** The request the controller works for awaits attempt `i`. */
  ghost predicate Suspended(s: State, i: nat) {
    Good(s) && IsLive(s) && s.track.place == AtInit(i) && i < |s.initializations|
  }

  // ---- Positions in the queue ----

  predicate HasCarrier(queue: seq<Task>, i: nat, serial: Option<nat>) {
    exists k | 0 <= k < |queue| :: Carries(queue[k], i, serial)
  }

  lemma {:induction false} PosExact(queue: seq<Task>, i: nat, serial: Option<nat>)
    ensures Pos(queue, i, serial) <= |queue|
    ensures HasCarrier(queue, i, serial) <==> Pos(queue, i, serial) < |queue|
    ensures HasCarrier(queue, i, serial) ==> Carries(queue[Pos(queue, i, serial)], i, serial)
  {
    if queue != [] && !Carries(queue[0], i, serial) {
      PosExact(queue[1..], i, serial);
      if HasCarrier(queue, i, serial) {
        var k :| 0 <= k < |queue| && Carries(queue[k], i, serial);
        assert Carries(queue[1..][k - 1], i, serial);
      }
      if HasCarrier(queue[1..], i, serial) {
        var k :| 0 <= k < |queue[1..]| && Carries(queue[1..][k], i, serial);
        assert Carries(queue[k + 1], i, serial);
      }
    }
  }

  lemma {:induction false} PosAppend(queue: seq<Task>, more: seq<Task>, i: nat, serial: Option<nat>)
    ensures Pos(queue + more, i, serial) ==
              if HasCarrier(queue, i, serial) then Pos(queue, i, serial) else |queue| + Pos(more, i, serial)
  {
    if queue == [] {
      assert queue + more == more;
    } else if !Carries(queue[0], i, serial) {
      assert (queue + more)[1..] == queue[1..] + more;
      PosAppend(queue[1..], more, i, serial);
      PosExact(queue, i, serial);
      PosExact(queue[1..], i, serial);
    }
  }

  /** A task that is not the attempt's leaves the front: everything moves up by one. */
  lemma PosShift(queue: seq<Task>, more: seq<Task>, i: nat, serial: Option<nat>)
    requires queue != [] && !Carries(queue[0], i, serial) && HasCarrier(queue, i, serial)
    ensures Pos(queue[1..] + more, i, serial) == Pos(queue, i, serial) - 1 < |queue[1..]|
    ensures HasCarrier(queue[1..] + more, i, serial)
  {
    PosExact(queue, i, serial);
    PosExact(queue[1..], i, serial);
    PosAppend(queue[1..], more, i, serial);
    PosExact(queue[1..] + more, i, serial);
  }

  // ---- What a stale continuation leaves alone ----

  /** Nothing that decides who is shown has changed. */
  ghost predicate Kept(s: State, t: State) {
    && t.desired == s.desired && t.destroyed == s.destroyed && t.window.identity == s.window.identity
    && t.ledger.shown == s.ledger.shown && t.track.lastToken == s.track.lastToken
    && t.initializations == s.initializations
  }

  ghost predicate NoInitTasks(tasks: seq<Task>) {
    forall k | 0 <= k < |tasks| :: !tasks[k].InitJob? && !tasks[k].ResumeInit?
  }

  /** Only tasks that have nothing to do with initialisations are added. */
  ghost predicate AddsOthers(queue: seq<Task>, queue': seq<Task>) {
    queue <= queue' && NoInitTasks(queue'[|queue|..])
  }

  lemma DisposeIsKept(s: State, view: View)
    ensures Kept(s, DisposeView(s, view)) && DisposeView(s, view).queue == s.queue
            && DisposeView(s, view).track == s.track
    ensures Kept(s, ReleaseIfUnowned(s, view)) && ReleaseIfUnowned(s, view).queue == s.queue
    ensures ReleaseIfUnowned(s, view).track == s.track
  {
  }

  /** The request whose call goes on when the task runs. */
  function Resumes(s: State, task: Task): Option<Request> {
    match task
    case CreationJob(c) =>
      if c < |s.creations| && s.creations[c].phase.Resuming? then Some(s.creations[c].creator) else None
    case ResumeWaiter(r, c) => if c < |s.creations| then Some(r) else None
    case ResumeInit(r, i) => if i < |s.initializations| then Some(r) else None
    case _ => None
  }

  predicate IsStale(s: State, task: Task) {
    Resumes(s, task).Some? ==> !IsDesired(s, Resumes(s, task).value.token)
  }

  function PlaceAfter(s: State, task: Task): Place {
    if Resumes(s, task).Some? && Resumes(s, task).value.token.serial == s.track.lastToken
    then Nowhere else s.track.place
  }

  lemma UnclaimedIsKept(s: State, c: nat)
    requires c < |s.creations|
    ensures var t := DisposeUnclaimed(s, c); Kept(s, t) && t.queue == s.queue && t.track == s.track
  {
    var creation := s.creations[c];
    if creation.result.Fulfilled? {
      DisposeIsKept(SetCreation(s, c, creation.(disposed := true)), creation.result.view);
    }
    hide DisposeView;
  }

  lemma StaleCreator(s: State, c: nat)
    requires c < |s.creations| && !IsDesired(s, s.creations[c].creator.token)
    ensures var t := ResumeCreator(s, c); Kept(s, t) && AddsOthers(s.queue, t.queue) && t.track == s.track
  {
    hide Prepare, Adopt;
  }

  lemma StaleCreationJob(s: State, c: nat)
    requires c < |s.creations| && IsStale(s, CreationJob(c))
    ensures var t := RunCreationJob(s, c);
            Kept(s, t) && AddsOthers(s.queue, t.queue) && t.track == s.track.(place := PlaceAfter(s, CreationJob(c)))
  {
    match s.creations[c].phase {
      case Checking => UnclaimedIsKept(s, c);
      case Resuming => StaleCreator(Wake(s, s.creations[c].creator.token), c);
      case _ =>
    }
    hide DisposeUnclaimed, ResumeCreator;
  }

  lemma StaleSharer(s: State, r: Request, c: nat)
    requires c < |s.creations| && !IsDesired(s, r.token)
    ensures var t := ResumeSharer(s, r, c);
            Kept(s, t) && AddsOthers(s.queue, t.queue) && t.track == s.track
  {
    hide Prepare, Adopt;
  }

  /** Attempt `i` failed over the kind, and its request gets to dispose of the view the latest request awaits. */
  predicate Takes(s: State, i: nat)
    requires i < |s.initializations|
  {
    var init := s.initializations[i];
    && init.outcome == Failed(true)
    && (IsDesiredInitialization(s, init, init.view) || !IsViewOwned(s, init.view))
    && TakesPlace(s, i, init.view)
  }

  lemma StaleResumeInit(s: State, r: Request, i: nat)
    requires i < |s.initializations| && !IsDesired(s, r.token)
    ensures var t := ResumeAfterInit(s, r, i);
            Kept(s, t) && t.queue == s.queue && t.track == s.track.(taken := s.track.taken || Takes(s, i))
  {
    DisposeIsKept(s, s.initializations[i].view);
    hide DisposeView, ReleaseIfUnowned, IsDesiredInitialization, IsViewOwned;
  }

  /** All of it, for the task at the front of the queue. */
  lemma StaleTask(s: State)
    requires s.queue != [] && !s.queue[0].InitJob? && IsStale(s, s.queue[0])
    ensures var t := RunMicrotask(s);
            && Kept(s, t) && AddsOthers(s.queue[1..], t.queue)
            && t.track.place == PlaceAfter(s, s.queue[0])
            && t.track.taken == (s.track.taken ||
                 (s.queue[0].ResumeInit? && s.queue[0].init < |s.initializations|
                  && Takes(Wake(s.(queue := s.queue[1..]), s.queue[0].request.token), s.queue[0].init)))
  {
    var s1 := s.(queue := s.queue[1..]);
    hide RunCreationJob, ResumeSharer, DisposeUnclaimed, ResumeAfterInit, Takes;
    match s.queue[0] {
      case CreationJob(c) => if c < |s.creations| { StaleCreationJob(s1, c); }
      case ResumeWaiter(r, c) => if c < |s.creations| { StaleSharer(Wake(s1, r.token), r, c); }
      case DisposeCheck(_, c) => if c < |s.creations| { UnclaimedIsKept(s1, c); }
      case ResumeInit(r, i) => if i < |s.initializations| { StaleResumeInit(Wake(s1, r.token), r, i); }
    }
  }

  // ---- The front of the queue while the latest request is suspended ----

  /** The continuation of the latest request itself. */
  predicate IsOwnResume(s: State, task: Task) {
    task.ResumeInit? && task.request.token.serial == s.track.lastToken
  }

  lemma HeadIsStale(s: State)
    requires Good(s) && s.queue != [] && !IsOwnResume(s, s.queue[0])
    requires s.track.place == Nowhere || s.track.place.AtInit?
    ensures IsStale(s, s.queue[0]) && PlaceAfter(s, s.queue[0]) == s.track.place
  {
    hide StatusesOk, ReadyOk, AllShownOk, RegistryOk, LedgerOk, VisibleOk, ResolvedBySharers, EntriesReady,
      ResultsOk, PlaceOk,
      JobsQueued, InitJobsQueued, InitRequestsOk;
    assert TaskOk(s.queue[0], s.creations, s.initializations, s.track);
    if s.queue[0].CreationJob? {
      assert CreationOk(s.creations[s.queue[0].creation], s.queue[0].creation, s.creationPromises, s.track);
    }
  }

  /** Whatever runs while nobody is worked for changes nothing either. */
  lemma DeadIsStale(s: State, task: Task)
    requires !IsLive(s)
    ensures IsStale(s, task)
  {
  }

  /** What the invariant says about the tasks of one attempt. */
  lemma TasksOf(s: State, k: nat)
    requires Good(s) && k < |s.initializations|
    ensures var init := s.initializations[k];
            && (forall a | 0 <= a < |s.queue| && s.queue[a].ResumeInit? && s.queue[a].init == k :: init.phase.Over?)
            && (forall a | 0 <= a < |s.queue| && s.queue[a] == InitJob(k) :: !init.phase.Over? && !init.phase.Running?)
            && (forall a, b | 0 <= a < b < |s.queue| :: s.queue[a] == InitJob(k) ==> s.queue[b] != InitJob(k))
            && (!init.phase.Running? && !init.phase.Over? ==> InitJob(k) in s.queue)
            && (init.phase.Over? <==> init.waiters == [])
            && (init.phase.Running? <==> init.outcome.Undecided?)
  {
    hide StatusesOk, ReadyOk, AllShownOk, RegistryOk, LedgerOk, VisibleOk, ResolvedBySharers, EntriesReady,
      ResultsOk, PlaceOk,
      JobsQueued, InitRequestsOk, CreationsOk;
    assert InitOk(s.initializations[k], k, s.track);
    assert forall a | 0 <= a < |s.queue| :: TaskOk(s.queue[a], s.creations, s.initializations, s.track);
    assert forall a, b | 0 <= a < b < |s.queue| :: OrderOk(s.queue[a], s.queue[b], s.creations);
  }

  lemma AwaitedHasCarrier(s: State, j: nat)
    requires Good(s) && j < |s.initializations| && IsAwaited(s, j) && !s.initializations[j].phase.Running?
    ensures HasCarrier(s.queue, j, None)
  {
    TasksOf(s, j);
    hide Good;
    if !s.initializations[j].phase.Over? {
      var k :| 0 <= k < |s.queue| && s.queue[k] == InitJob(j);
      assert Carries(s.queue[k], j, None);
    } else {
      var k :| 0 <= k < |s.queue| && s.queue[k].ResumeInit? && s.queue[k].init == j;
      assert Carries(s.queue[k], j, None);
    }
  }

  lemma LatestIsHeld(s: State, i: nat)
    requires Suspended(s, i)
    ensures HoldsLatest(s.initializations[i], s.queue, i, s.track.lastToken)
    ensures IsNewestFor(s.initializations, i)
  {
    hide StatusesOk, ReadyOk, AllShownOk, RegistryOk, LedgerOk, VisibleOk, ResolvedBySharers, EntriesReady, ResultsOk,
      JobsQueued, InitJobsQueued, InitRequestsOk, CreationsOk, QueueOk, InitsOk;
  }

  lemma LatestHasCarrier(s: State, i: nat)
    requires Suspended(s, i) && !s.initializations[i].phase.Running?
    ensures HasCarrier(s.queue, i, Some(s.track.lastToken))
  {
    LatestIsHeld(s, i);
    TasksOf(s, i);
    hide Good;
    if !s.initializations[i].phase.Over? {
      var k :| 0 <= k < |s.queue| && s.queue[k] == InitJob(i);
      assert Carries(s.queue[k], i, Some(s.track.lastToken));
    } else {
      var k :| 0 <= k < |s.queue| && s.queue[k].ResumeInit? && s.queue[k].init == i
               && s.queue[k].request.token.serial == s.track.lastToken;
      assert Carries(s.queue[k], i, Some(s.track.lastToken));
    }
  }

  lemma InitTask(s: State)
    requires Good(s) && s.queue != [] && s.queue[0].InitJob?
    ensures var k := s.queue[0].init;
            var t := RunMicrotask(s);
            && k < |s.initializations|
            && t.initializations == s.initializations[k := Advanced(s.initializations[k])]
            && Rank(t.initializations[k].phase) == Rank(s.initializations[k].phase) - 1
            && t.queue == s.queue[1..] + NextTasks(s.initializations[k], k)
            && Kept(s, t.(initializations := s.initializations)) && t.track == s.track
  {
    HeadInitJob(s);
    InitJobAdvances(s.(queue := s.queue[1..]), s.queue[0].init);
    InitJobFrame(s.(queue := s.queue[1..]), s.queue[0].init);
    AdvancedRank(s.initializations[s.queue[0].init]);
    hide Good, RunInitJob, Advanced, NextTasks, Rank;
  }

  lemma AdvancedRank(init: Initialization)
    requires !init.phase.Running? && !init.phase.Over?
    ensures Rank(Advanced(init).phase) == Rank(init.phase) - 1
  {
  }

  // ---- The order of two attempts ----

  /** What a job or a stale continuation does to the queue and to the ranks of `j` and `i`. */
  lemma OtherKeepsOrder(s: State, t: State, j: nat, i: nat, more: seq<Task>)
    requires j < |s.initializations| && i < |s.initializations| && |t.initializations| == |s.initializations|
    requires t.initializations[j].phase == s.initializations[j].phase
    requires t.initializations[i].phase == s.initializations[i].phase
    requires s.queue != [] && t.queue == s.queue[1..] + more && t.track.lastToken == s.track.lastToken
    requires !Carries(s.queue[0], j, None) && HasCarrier(s.queue, j, None)
    requires var latest := Some(s.track.lastToken);
             !Carries(s.queue[0], i, latest) && HasCarrier(s.queue, i, latest)
    ensures Precedes(t, j, i) == Precedes(s, j, i)
  {
    PosShift(s.queue, more, j, None);
    PosShift(s.queue, more, i, Some(s.track.lastToken));
  }

  /** The job of an attempt goes from the front to the end: it comes after everybody else there. */
  lemma MovedToEnd(s: State, k: nat, serial: Option<nat>)
    requires Good(s) && s.queue != [] && s.queue[0] == InitJob(k) && k < |s.initializations|
    ensures Pos(s.queue, k, serial) == 0
    ensures Pos(s.queue[1..] + NextTasks(s.initializations[k], k), k, serial) >= |s.queue[1..]|
  {
    TasksOf(s, k);
    hide Good;
    var rest := s.queue[1..];
    forall a | 0 <= a < |rest|
      ensures !Carries(rest[a], k, serial)
    {
      assert rest[a] == s.queue[a + 1];
    }
    PosAppend(rest, NextTasks(s.initializations[k], k), k, serial);
  }

  lemma JobKeepsOrder(s: State, j: nat, i: nat)
    requires Suspended(s, i) && j < |s.initializations| && j != i && IsAwaited(s, j)
    requires !s.initializations[j].phase.Running? && !s.initializations[i].phase.Running?
    requires s.queue != [] && s.queue[0].InitJob?
    ensures var t := RunMicrotask(s);
            |t.initializations| == |s.initializations| && Precedes(t, j, i) == Precedes(s, j, i)
  {
    var t, k := RunMicrotask(s), s.queue[0].init;
    var latest := Some(s.track.lastToken);
    InitTask(s);
    AwaitedHasCarrier(s, j);
    LatestHasCarrier(s, i);
    if k == j {
      MovedToEnd(s, j, None);
      PosShift(s.queue, NextTasks(s.initializations[k], k), i, latest);
    } else if k == i {
      MovedToEnd(s, i, latest);
      PosShift(s.queue, NextTasks(s.initializations[k], k), j, None);
    } else {
      OtherKeepsOrder(s, t, j, i, NextTasks(s.initializations[k], k));
    }
    hide Good, RunMicrotask, Kept, Advanced, NextTasks;
  }

  // ---- A step keeps the threat ----

  lemma JobKeepsAwaited(s: State, j: nat)
    requires Good(s) && s.queue != [] && s.queue[0].InitJob? && j < |s.initializations|
    ensures var t := RunMicrotask(s); |t.initializations| == |s.initializations| && IsAwaited(t, j) == IsAwaited(s, j)
  {
    var t, k := RunMicrotask(s), s.queue[0].init;
    InitTask(s);
    var rest, more := s.queue[1..], NextTasks(s.initializations[k], k);
    hide Good, RunMicrotask, Kept;
    if a :| 0 <= a < |s.queue| && s.queue[a].ResumeInit? && s.queue[a].init == j {
      assert t.queue[a - 1] == s.queue[a];
    }
    if a :| 0 <= a < |t.queue| && t.queue[a].ResumeInit? && t.queue[a].init == j {
      if a < |rest| {
        assert s.queue[a + 1] == t.queue[a];
      } else {
        assert t.queue[a] == more[a - |rest|];
      }
    }
    if k == j && s.initializations[k].phase.Releasing? && s.initializations[k].waiters != [] {
      assert t.queue[|rest|] == more[0];
    }
  }

  lemma JobKeepsRivalry(s: State, j: nat, i: nat)
    requires Suspended(s, i) && s.queue != [] && s.queue[0].InitJob? && j < |s.initializations|
    ensures var t := RunMicrotask(s);
            && |t.initializations| == |s.initializations|
            && IsRival(t, j, i) == IsRival(s, j, i)
            && t.initializations[i].phase.Running? == s.initializations[i].phase.Running?
            && t.initializations[j].phase.Running? == s.initializations[j].phase.Running?
  {
    InitTask(s);
    JobKeepsAwaited(s, j);
    TasksOf(s, s.queue[0].init);
    hide Good, RunMicrotask, Kept, IsAwaited, NextTasks;
  }

  lemma JobKeepsAhead(s: State, j: nat, i: nat)
    requires Suspended(s, i) && s.queue != [] && s.queue[0].InitJob?
    requires j < |s.initializations| && j != i && IsAwaited(s, j)
    ensures var t := RunMicrotask(s);
            |t.initializations| == |s.initializations| && IsAhead(t, j, i) == IsAhead(s, j, i)
  {
    var t := RunMicrotask(s);
    JobKeepsRivalry(s, j, i);
    if !s.initializations[j].phase.Running? && !s.initializations[i].phase.Running? {
      JobKeepsOrder(s, j, i);
    }
    RunningIsBehind(s, s, j, i);
    RunningIsBehind(t, t, j, i);
    hide Good, RunMicrotask, IsAwaited, IsRival, Precedes;
  }

  lemma JobKeepsRival(s: State, j: nat, i: nat)
    requires Suspended(s, i) && s.queue != [] && s.queue[0].InitJob? && j < |s.initializations|
    ensures var t := RunMicrotask(s);
            && |t.initializations| == |s.initializations|
            && (IsRival(t, j, i) && IsAhead(t, j, i)) == (IsRival(s, j, i) && IsAhead(s, j, i))
  {
    JobKeepsRivalry(s, j, i);
    if IsRival(s, j, i) {
      RivalIsAwaited(s, j, i);
      JobKeepsAhead(s, j, i);
    }
    hide Good, RunMicrotask, IsAwaited, IsRival, IsAhead;
  }

  lemma RivalIsAwaited(s: State, j: nat, i: nat)
    requires i < |s.initializations| && IsRival(s, j, i)
    ensures j != i && j < |s.initializations| && IsAwaited(s, j)
  {
  }

  lemma JobKeepsThreat(s: State, i: nat)
    requires Suspended(s, i) && s.queue != [] && s.queue[0].InitJob?
    ensures var t := RunMicrotask(s);
            |t.initializations| == |s.initializations| && IsThreatened(t, i) == IsThreatened(s, i)
  {
    var t := RunMicrotask(s);
    InitTask(s);
    forall j | 0 <= j < |s.initializations|
      ensures (IsRival(t, j, i) && IsAhead(t, j, i)) == (IsRival(s, j, i) && IsAhead(s, j, i))
    {
      JobKeepsRival(s, j, i);
    }
    hide Good, RunMicrotask, Kept, IsRival, IsAhead;
  }

  /** What the latest request finds as long as nobody has taken its view. */
  lemma ViewStands(s: State, i: nat)
    requires Suspended(s, i)
    ensures var init := s.initializations[i];
            && s.desired.value.terminalTabId == Some(init.view.terminalTabId)
            && CreationKey(s.desired.value) == init.ownerKey
            && (!s.track.taken && init.outcome != Failed(true) ==> Maps(s.window.registry, init.view))
  {
    hide StatusesOk, ReadyOk, AllShownOk, RegistryOk, LedgerOk, VisibleOk, ResolvedBySharers, EntriesReady, ResultsOk,
      JobsQueued, InitJobsQueued, InitRequestsOk, CreationsOk, QueueOk;
    assert InitOk(s.initializations[i], i, s.track);
  }

  /** A continuation takes the view exactly if it belongs to a rival, and then the rival was ahead. */
  lemma OnlyRivalsTake(s: State, i: nat)
    requires Suspended(s, i) && !s.track.taken && !s.initializations[i].outcome.Failed?
    requires s.queue != [] && s.queue[0].ResumeInit? && !IsOwnResume(s, s.queue[0])
    ensures var k := s.queue[0].init;
            && k < |s.initializations|
            && Takes(Wake(s.(queue := s.queue[1..]), s.queue[0].request.token), k) == IsRival(s, k, i)
            && (IsRival(s, k, i) ==> IsAhead(s, k, i))
  {
    var k := s.queue[0].init;
    HeadIsInit(s);
    TasksOf(s, k);
    ViewStands(s, i);
    hide Good;
    var s1 := Wake(s.(queue := s.queue[1..]), s.queue[0].request.token);
    assert s1.track.place == AtInit(i);
    assert IsViewOwned(s1, s.initializations[i].view);
    assert IsAwaited(s, k);
  }

  lemma HeadIsInit(s: State)
    requires Good(s) && s.queue != [] && s.queue[0].ResumeInit?
    ensures s.queue[0].init < |s.initializations|
  {
    hide StatusesOk, ReadyOk, AllShownOk, RegistryOk, LedgerOk, VisibleOk, ResolvedBySharers, EntriesReady, ResultsOk,
      JobsQueued, InitJobsQueued, InitRequestsOk, CreationsOk, InitsOk, PlaceOk;
    assert TaskOk(s.queue[0], s.creations, s.initializations, s.track);
  }

  lemma OtherKeepsRival(s: State, t: State, j: nat, i: nat)
    requires Suspended(s, i) && j < |s.initializations| && s.queue != [] && !s.queue[0].InitJob?
    requires !Carries(s.queue[0], i, Some(s.track.lastToken))
    requires t.initializations == s.initializations && t.track.lastToken == s.track.lastToken
    requires AddsOthers(s.queue[1..], t.queue)
    requires s.queue[0].ResumeInit? && s.queue[0].init == j ==> !IsRival(s, j, i)
    ensures (IsRival(t, j, i) && IsAhead(t, j, i)) == (IsRival(s, j, i) && IsAhead(s, j, i))
  {
    var more := t.queue[|s.queue[1..]|..];
    assert t.queue == s.queue[1..] + more;
    OtherKeepsAwaited(s, t, j);
    if !(s.queue[0].ResumeInit? && s.queue[0].init == j) {
      if IsAwaited(s, j) && !s.initializations[j].phase.Running? && !s.initializations[i].phase.Running? {
        AwaitedHasCarrier(s, j);
        LatestHasCarrier(s, i);
        OtherKeepsOrder(s, t, j, i, more);
      }
      TasksOf(s, j);
      RunningIsBehind(s, t, j, i);
    }
    hide Good, Pos, IsAwaited, Precedes, AddsOthers;
  }

  lemma OtherKeepsAwaited(s: State, t: State, j: nat)
    requires j < |s.initializations| && t.initializations == s.initializations
    requires s.queue != [] && AddsOthers(s.queue[1..], t.queue)
    ensures IsAwaited(t, j) ==> IsAwaited(s, j)
    ensures !(s.queue[0].ResumeInit? && s.queue[0].init == j) ==> IsAwaited(t, j) == IsAwaited(s, j)
  {
    var rest := s.queue[1..];
    var more := t.queue[|rest|..];
    assert forall b | 0 <= b < |more| :: t.queue[|rest| + b] == more[b];
    if a :| 0 <= a < |rest| && t.queue[a].ResumeInit? && t.queue[a].init == j {
      assert s.queue[a + 1] == t.queue[a];
    }
    if a :| 1 <= a < |s.queue| && s.queue[a].ResumeInit? && s.queue[a].init == j {
      assert t.queue[a - 1] == s.queue[a];
    }
  }

  /** An attempt that is still running is behind every attempt that is not. */
  lemma RunningIsBehind(s: State, t: State, j: nat, i: nat)
    requires j < |s.initializations| && i < |s.initializations| && t.initializations == s.initializations
    ensures s.initializations[j].phase.Running? && !s.initializations[i].phase.Running? ==>
              !Precedes(s, j, i) && !Precedes(t, j, i)
  {
  }

  lemma OtherKeepsThreat(s: State, i: nat)
    requires Suspended(s, i) && s.queue != [] && !s.queue[0].InitJob? && !IsOwnResume(s, s.queue[0])
    ensures var t := RunMicrotask(s);
            t.initializations == s.initializations && IsThreatened(t, i) == IsThreatened(s, i)
  {
    var t := RunMicrotask(s);
    HeadIsStale(s);
    StaleTask(s);
    hide Good, RunMicrotask, IsRival, IsAhead, Takes;
    if !s.track.taken && !s.initializations[i].outcome.Failed? {
      if s.queue[0].ResumeInit? {
        OnlyRivalsTake(s, i);
      }
      if !t.track.taken {
        forall j | 0 <= j < |s.initializations|
          ensures (IsRival(t, j, i) && IsAhead(t, j, i)) == (IsRival(s, j, i) && IsAhead(s, j, i))
        {
          OtherKeepsRival(s, t, j, i);
        }
      }
    }
  }

  /** Every microtask but the request's own continuation leaves the request suspended and the threat as it is. */
  lemma StepKeepsThreat(s: State, i: nat)
    requires Suspended(s, i) && s.queue != [] && !IsOwnResume(s, s.queue[0])
    ensures var t := RunMicrotask(s);
            && Suspended(t, i) && t.ledger.shown == s.ledger.shown && t.desired == s.desired
            && t.track.lastToken == s.track.lastToken
            && IsThreatened(t, i) == IsThreatened(s, i)
  {
    EventKeeps(s, Microtask);
    hide Good, RunMicrotask, IsThreatened;
    if s.queue[0].InitJob? {
      InitTask(s);
      JobKeepsThreat(s, i);
    } else {
      HeadIsStale(s);
      StaleTask(s);
      OtherKeepsThreat(s, i);
    }
    assert Apply(s, Microtask) == RunMicrotask(s);
  }

  // ---- The other events ----

  /** A promise that settles now comes behind everything that is queued already. */
  lemma SettlingThreatensNobody(s: State, k: nat, outcome: InitOutcome, i: nat)
    requires Suspended(s, i)
    ensures var t := SettleInit(s, k, outcome);
            |t.initializations| == |s.initializations| && (IsThreatened(t, i) ==> IsThreatened(s, i))
  {
    var t := SettleInit(s, k, outcome);
    if k < |s.initializations| && s.initializations[k].phase.Running? && !outcome.Undecided? {
      TasksOf(s, k);
      TasksOf(s, i);
      if IsThreatened(t, i) && !s.track.taken {
        var j :| 0 <= j < |t.initializations| && IsRival(t, j, i) && IsAhead(t, j, i);
        SettledWasRival(s, k, outcome, j, i);
      }
    }
    hide Good, IsRival, IsAhead;
  }

  lemma SettledWasRival(s: State, k: nat, outcome: InitOutcome, j: nat, i: nat)
    requires Suspended(s, i) && k < |s.initializations| && s.initializations[k].phase.Running? && !outcome.Undecided?
    requires var t := SettleInit(s, k, outcome);
             j < |t.initializations| && IsRival(t, j, i) && IsAhead(t, j, i) && !t.initializations[i].outcome.Failed?
    ensures IsRival(s, j, i) && IsAhead(s, j, i)
  {
    var t := SettleInit(s, k, outcome);
    TasksOf(s, k);
    hide Good, Precedes;
    assert t.queue == s.queue + [InitJob(k)];
    if a :| 0 <= a < |t.queue| && t.queue[a].ResumeInit? && t.queue[a].init == j {
      assert s.queue[a] == t.queue[a];
    }
    assert IsRival(s, j, i);
    if !s.initializations[i].phase.Running? {
      SettledOrder(s, k, t, j, i);
    }
  }

  lemma SettledOrder(s: State, k: nat, t: State, j: nat, i: nat)
    requires Suspended(s, i) && !s.initializations[i].phase.Running?
    requires k < |s.initializations| && s.initializations[k].phase.Running?
    requires j < |s.initializations| && j != i
    requires |t.initializations| == |s.initializations| && t.track.lastToken == s.track.lastToken
    requires t.queue == s.queue + [InitJob(k)] && t.initializations[k].phase.Reacting?
    requires forall l | 0 <= l < |s.initializations| && l != k ::
               t.initializations[l].phase == s.initializations[l].phase
    requires Precedes(t, j, i)
    ensures Precedes(s, j, i)
  {
    LatestHasCarrier(s, i);
    AppendKeepsOrder(s.queue, [InitJob(k)], j, i, Some(s.track.lastToken));
    RunningHasNoCarrier(s, k);
    hide Good, Pos, HasCarrier;
  }

  lemma AppendKeepsOrder(queue: seq<Task>, more: seq<Task>, j: nat, i: nat, latest: Option<nat>)
    requires HasCarrier(queue, i, latest)
    ensures Pos(queue + more, j, None) < Pos(queue + more, i, latest) ==>
              HasCarrier(queue, j, None) && Pos(queue, j, None) < Pos(queue, i, latest)
  {
    PosAppend(queue, more, i, latest);
    PosExact(queue, i, latest);
    PosAppend(queue, more, j, None);
    hide Pos, HasCarrier;
  }

  lemma RunningHasNoCarrier(s: State, k: nat)
    requires Good(s) && k < |s.initializations| && s.initializations[k].phase.Running?
    ensures !HasCarrier(s.queue, k, None)
  {
    TasksOf(s, k);
    hide Good;
  }

  /** After its own continuation the request is done; if nothing threatened it, it showed nothing disposed of. */
  lemma OwnResumeIsSafe(s: State, i: nat)
    requires Suspended(s, i) && s.queue != [] && IsOwnResume(s, s.queue[0]) && !IsThreatened(s, i)
    ensures var t := RunMicrotask(s);
            && Good(t) && t.track.place == Nowhere
            && s.ledger.shown <= t.ledger.shown
            && (forall k | |s.ledger.shown| <= k < |t.ledger.shown| :: !t.ledger.shown[k].taken)
  {
    EventKeeps(s, Microtask);
    assert Apply(s, Microtask) == RunMicrotask(s);
    HeadIsInit(s);
    OwnResumeIsOwn(s, i);
    TasksOf(s, i);
    hide Good;
    OwnResumeShows(Wake(s.(queue := s.queue[1..]), s.queue[0].request.token), s.queue[0].request, i);
  }

  lemma OwnResumeIsOwn(s: State, i: nat)
    requires Suspended(s, i) && s.queue != [] && IsOwnResume(s, s.queue[0])
    ensures s.queue[0].init == i && s.initializations[i].phase.Over?
  {
    hide StatusesOk, ReadyOk, AllShownOk, RegistryOk, LedgerOk, VisibleOk, ResolvedBySharers, EntriesReady,
      ResultsOk, PlaceOk,
      JobsQueued, InitJobsQueued, InitRequestsOk, CreationsOk;
    assert TaskOk(s.queue[0], s.creations, s.initializations, s.track);
  }

  lemma PresentShows(s: State, r: Request, view: View)
    ensures var t := Present(s, r, view);
            && t.track == s.track && s.ledger.shown <= t.ledger.shown
            && (forall k | |s.ledger.shown| <= k < |t.ledger.shown| :: t.ledger.shown[k].taken == s.track.taken)
  {
    DisposeIsKept(s, view);
    hide DisposeView, ReleaseIfUnowned;
  }

  lemma OwnResumeShows(s: State, r: Request, i: nat)
    requires i < |s.initializations| && !s.initializations[i].outcome.Undecided?
    ensures var t := ResumeAfterInit(s, r, i);
            && t.track.place == s.track.place
            && (s.initializations[i].outcome.Failed? ==> t.ledger.shown == s.ledger.shown)
            && s.ledger.shown <= t.ledger.shown
            && (forall k | |s.ledger.shown| <= k < |t.ledger.shown| :: t.ledger.shown[k].taken == s.track.taken)
  {
    if s.initializations[i].outcome.Failed? {
      FailingShowsNothing(s, r, i, s.initializations[i].outcome.kindMismatch);
    } else {
      PresentShows(s, r, s.initializations[i].view);
    }
    hide FailInitialization, Present;
  }

  lemma FailingShowsNothing(s: State, r: Request, i: nat, kindMismatch: bool)
    requires i < |s.initializations|
    ensures var t := FailInitialization(s, r, i, kindMismatch);
            t.track.place == s.track.place && t.ledger.shown == s.ledger.shown
  {
    DisposeIsKept(s, s.initializations[i].view);
    hide DisposeView, ReleaseIfUnowned, IsDesiredInitialization, IsViewOwned;
  }

  /** Between microtasks nothing is shown, and the latest request can only lose its place by losing the controller. */
  lemma OtherEventKeepsPlace(s: State, e: Event)
    requires s.desired.Some? ==> s.desired.value.identity.generation <= s.window.identity.generation
    requires !e.Requested? && !e.Microtask?
    ensures var t := Apply(s, e);
            && t.ledger.shown == s.ledger.shown && t.track.lastToken == s.track.lastToken
            && (IsLive(t) ==> IsLive(s) && t.track == s.track)
  {
  }

  /** A request that is suspended nowhere, or that nobody works for any more, will never show anything. */
  lemma DoneStaysDone(s: State, e: Event)
    requires Good(s) && (!IsLive(s) || s.track.place == Nowhere) && !e.Requested?
    ensures var t := Apply(s, e);
            Good(t) && (!IsLive(t) || t.track.place == Nowhere) && t.ledger.shown == s.ledger.shown
  {
    EventKeeps(s, e);
    if !e.Microtask? {
      LatestDesired(s);
      OtherEventKeepsPlace(s, e);
      hide Apply;
    } else if s.queue != [] {
      DoneMicrotask(s);
    }
    hide Good, RunMicrotask;
  }

  lemma LatestDesired(s: State)
    requires Good(s)
    ensures s.desired.Some? ==> s.desired.value.identity.generation <= s.window.identity.generation
  {
    hide StatusesOk, ReadyOk, AllShownOk, RegistryOk, LedgerOk, VisibleOk, ResolvedBySharers, EntriesReady,
      ResultsOk, PlaceOk,
      JobsQueued, InitJobsQueued, InitRequestsOk, CreationsOk, QueueOk, InitsOk;
  }

  lemma DoneMicrotask(s: State)
    requires Good(s) && (!IsLive(s) || s.track.place == Nowhere) && s.queue != []
    ensures var t := RunMicrotask(s);
            (!IsLive(t) || t.track.place == Nowhere) && t.ledger.shown == s.ledger.shown
  {
    if s.queue[0].InitJob? {
      InitTask(s);
    } else {
      if IsLive(s) {
        NobodyLatest(s);
        HeadIsStale(s);
      } else {
        DeadIsStale(s, s.queue[0]);
      }
      StaleTask(s);
    }
    hide Good, RunMicrotask;
  }

  lemma NobodyLatest(s: State)
    requires Good(s) && s.track.place == Nowhere && s.queue != []
    ensures !IsOwnResume(s, s.queue[0])
  {
    hide StatusesOk, ReadyOk, AllShownOk, RegistryOk, LedgerOk, VisibleOk, ResolvedBySharers, EntriesReady,
      ResultsOk, PlaceOk,
      JobsQueued, InitJobsQueued, InitRequestsOk, CreationsOk;
    assert TaskOk(s.queue[0], s.creations, s.initializations, s.track);
  }

  // ---- A request that awaits a creation ----

  /** The microtask at the front continues the call of the latest request itself. */
  predicate IsOwnContinuation(s: State, task: Task) {
    Resumes(s, task).Some? && IsDesired(s, Resumes(s, task).value.token)
  }

  /** The new attempt is the only one at its view, and the view is not taken. */
  predicate StartsAnew(s: State, t: State) {
    && t.ledger.shown == s.ledger.shown
    && (t.track.place.AtInit? ==>
          && t.track.place.init == |s.initializations| && |t.initializations| == |s.initializations| + 1
          && !t.track.taken
          && forall j | 0 <= j < |s.initializations| ::
               t.initializations[j].view != t.initializations[|s.initializations|].view)
  }

  lemma AnewIsUnthreatened(s: State, t: State)
    requires StartsAnew(s, t) && t.track.place.AtInit?
    ensures t.track.place.init < |t.initializations| && !IsThreatened(t, t.track.place.init)
  {
  }

  /** A view that was never registered is adopted: nobody has tried to initialise it yet. */
  lemma AdoptStartsAnew(s: State, r: Request, view: View)
    requires s.track.place == Nowhere && !s.track.taken && IsDesired(s, r.token)
    requires forall j | 0 <= j < |s.initializations| :: s.initializations[j].view != view
    ensures StartsAnew(s, Prepare(Adopt(s, view), r, view))
  {
    hide Present, ReleaseIfUnowned, JoinInitialization;
    assert view in Adopt(s, view).unreadyViews;
  }

  lemma UnclaimedWasNotTried(s: State, c: nat)
    requires Good(s) && c < |s.creations| && !s.creations[c].claimed && s.creations[c].result.Fulfilled?
    ensures forall j | 0 <= j < |s.initializations| :: s.initializations[j].view != s.creations[c].result.view
  {
    hide StatusesOk, ReadyOk, AllShownOk, RegistryOk, LedgerOk, VisibleOk, ResolvedBySharers, EntriesReady,
      PlaceOk, JobsQueued, InitJobsQueued, InitRequestsOk, CreationsOk, QueueOk, InitsOk;
    assert ResultOk(s.creations[c], s.disposedViews, s.window.registry, s.ledger);
  }

  /** What the invariant says of the continuation of a request that awaits a creation. */
  lemma OwnContinuation(s: State)
    requires Good(s) && IsLive(s) && s.track.place.AtCreation? && s.queue != [] && IsOwnContinuation(s, s.queue[0])
    ensures !s.track.taken && Resumes(s, s.queue[0]).value.token.serial == s.track.lastToken
    ensures (s.queue[0].CreationJob? || s.queue[0].ResumeWaiter?) && !s.creations[s.queue[0].creation].claimed
  {
    hide StatusesOk, ReadyOk, AllShownOk, RegistryOk, LedgerOk, VisibleOk, EntriesReady, ResultsOk,
      JobsQueued, InitJobsQueued, InitRequestsOk;
    assert TaskOk(s.queue[0], s.creations, s.initializations, s.track);
    if s.queue[0].CreationJob? {
      assert CreationOk(s.creations[s.queue[0].creation], s.queue[0].creation, s.creationPromises, s.track);
    }
  }

  lemma CreatorStartsAnew(s: State, c: nat)
    requires c < |s.creations| && s.track.place == Nowhere && !s.track.taken
    requires IsDesired(s, s.creations[c].creator.token)
    requires s.creations[c].result.Fulfilled? ==>
               forall j | 0 <= j < |s.initializations| :: s.initializations[j].view != s.creations[c].result.view
    ensures StartsAnew(s, ResumeCreator(s, c))
  {
    var creation := s.creations[c];
    if creation.result.Fulfilled? {
      AdoptStartsAnew(SetCreation(s, c, creation.(claimed := true, phase := Finished)),
                      creation.creator, creation.result.view);
    }
    hide Prepare, Adopt;
  }

  lemma SharerStartsAnew(s: State, r: Request, c: nat)
    requires c < |s.creations| && s.track.place == Nowhere && !s.track.taken && IsDesired(s, r.token)
    requires !s.creations[c].claimed
    requires s.creations[c].result.Fulfilled? ==>
               forall j | 0 <= j < |s.initializations| :: s.initializations[j].view != s.creations[c].result.view
    ensures StartsAnew(s, ResumeSharer(s, r, c))
  {
    var creation := s.creations[c];
    if creation.result.Fulfilled? {
      AdoptStartsAnew(SetCreation(s, c, creation.(claimed := true)), r, creation.result.view);
    }
    hide Prepare, Adopt;
  }

  lemma OwnStartsAnew(s: State)
    requires Good(s) && IsLive(s) && s.track.place.AtCreation? && s.queue != [] && IsOwnContinuation(s, s.queue[0])
    ensures StartsAnew(s, RunMicrotask(s))
  {
    OwnContinuation(s);
    var c := s.queue[0].creation;
    if s.creations[c].result.Fulfilled? {
      UnclaimedWasNotTried(s, c);
    }
    hide Good, RunMicrotask, StartsAnew, IsDesired;
    ContinuationStartsAnew(s, c);
  }

  /** The same without the invariant. */
  lemma ContinuationStartsAnew(s: State, c: nat)
    requires s.queue != [] && (s.queue[0].CreationJob? || s.queue[0].ResumeWaiter?) && s.queue[0].creation == c
    requires IsOwnContinuation(s, s.queue[0]) && !s.track.taken
    requires Resumes(s, s.queue[0]).value.token.serial == s.track.lastToken
    requires !s.creations[c].claimed
    requires s.creations[c].result.Fulfilled? ==>
               forall j | 0 <= j < |s.initializations| :: s.initializations[j].view != s.creations[c].result.view
    ensures StartsAnew(s, RunMicrotask(s))
  {
    var s1 := s.(queue := s.queue[1..]);
    hide ResumeCreator, ResumeSharer;
    if s.queue[0].CreationJob? {
      CreatorStartsAnew(Wake(s1, s.creations[c].creator.token), c);
    } else {
      SharerStartsAnew(Wake(s1, s.queue[0].request.token), s.queue[0].request, c);
    }
  }

  lemma CreatingMicrotask(s: State)
    requires Good(s) && IsLive(s) && s.track.place.AtCreation? && s.queue != []
    ensures var t := RunMicrotask(s); t.track.place.AtInit? ==> StartsAnew(s, t)
    ensures RunMicrotask(s).ledger.shown == s.ledger.shown
  {
    if s.queue[0].InitJob? {
      InitTask(s);
    } else if IsOwnContinuation(s, s.queue[0]) {
      OwnStartsAnew(s);
    } else {
      StaleTask(s);
    }
    hide Good, RunMicrotask, IsDesired;
  }

  // ---- Without a threat nothing bad is shown ----

  /** Nobody is worked for, or the latest request awaits no initialisation or one without a threat. */
  ghost predicate Harmless(s: State) {
    && Good(s)
    && (IsLive(s) && s.track.place.AtInit? ==>
          s.track.place.init < |s.initializations| && !IsThreatened(s, s.track.place.init))
  }

  lemma QuietStep(s: State, e: Event)
    requires Harmless(s) && !e.Requested?
    ensures var t := Apply(s, e);
            && Harmless(t) && s.ledger.shown <= t.ledger.shown
            && (forall k | |s.ledger.shown| <= k < |t.ledger.shown| :: !t.ledger.shown[k].taken)
  {
    if !IsLive(s) || s.track.place == Nowhere {
      DoneStaysDone(s, e);
    } else if s.track.place.AtCreation? {
      CreatingStep(s, e);
    } else {
      SuspendedStep(s, e, s.track.place.init);
    }
    hide Apply, Good, IsThreatened;
  }

  lemma CreatingStep(s: State, e: Event)
    requires Good(s) && IsLive(s) && s.track.place.AtCreation? && !e.Requested?
    ensures Harmless(Apply(s, e)) && Apply(s, e).ledger.shown == s.ledger.shown
  {
    EventKeeps(s, e);
    if !e.Microtask? {
      LatestDesired(s);
      OtherEventKeepsPlace(s, e);
      hide Apply;
    } else if s.queue != [] {
      CreatingMicrotask(s);
      if RunMicrotask(s).track.place.AtInit? {
        AnewIsUnthreatened(s, RunMicrotask(s));
      }
    }
    hide Good, RunMicrotask, IsThreatened, StartsAnew;
  }

  lemma SuspendedMicrotask(s: State, i: nat)
    requires Suspended(s, i) && !IsThreatened(s, i) && s.queue != []
    ensures var t := RunMicrotask(s);
            && Harmless(t) && s.ledger.shown <= t.ledger.shown
            && (forall k | |s.ledger.shown| <= k < |t.ledger.shown| :: !t.ledger.shown[k].taken)
  {
    if IsOwnResume(s, s.queue[0]) {
      OwnResumeIsSafe(s, i);
    } else {
      StepKeepsThreat(s, i);
    }
    hide Good, RunMicrotask, IsThreatened;
  }

  lemma OtherEventThreatensNobody(s: State, e: Event, i: nat)
    requires Suspended(s, i) && !e.Requested? && !e.Microtask?
    ensures var t := Apply(s, e);
            |t.initializations| == |s.initializations|
            && (t.track == s.track && IsThreatened(t, i) ==> IsThreatened(s, i))
  {
    match e {
      case InitSettled(k, outcome) => SettlingThreatensNobody(s, k, outcome, i);
      case CreationSettled(c, ok) => CreationThreatensNobody(s, c, ok, i);
      case KindsChanged(views) => KindsThreatenNobody(s, views, i);
      case _ => OthersThreatenNobody(s, Apply(s, e), [], i);
    }
    hide Good, SettleInit, SettleCreation, IsThreatened;
  }

  lemma SuspendedStep(s: State, e: Event, i: nat)
    requires Suspended(s, i) && !IsThreatened(s, i) && !e.Requested?
    ensures var t := Apply(s, e);
            && Harmless(t) && s.ledger.shown <= t.ledger.shown
            && (forall k | |s.ledger.shown| <= k < |t.ledger.shown| :: !t.ledger.shown[k].taken)
  {
    EventKeeps(s, e);
    if !e.Microtask? {
      LatestDesired(s);
      OtherEventKeepsPlace(s, e);
      OtherEventThreatensNobody(s, e, i);
      hide Apply;
    } else if s.queue != [] {
      SuspendedMicrotask(s, i);
    }
    hide Good, RunMicrotask, IsThreatened;
  }

  lemma OthersKeepAwaited(s: State, t: State, more: seq<Task>, j: nat)
    requires t.initializations == s.initializations && t.queue == s.queue + more && NoInitTasks(more)
    requires j < |s.initializations| && IsAwaited(t, j)
    ensures IsAwaited(s, j)
  {
    if a :| 0 <= a < |t.queue| && t.queue[a].ResumeInit? && t.queue[a].init == j {
      assert forall b | 0 <= b < |more| :: t.queue[|s.queue| + b] == more[b];
      assert s.queue[a] == t.queue[a];
    }
  }

  lemma OthersKeepAhead(s: State, t: State, more: seq<Task>, j: nat, i: nat)
    requires Suspended(s, i) && t.initializations == s.initializations && t.track == s.track
    requires t.queue == s.queue + more && j < |s.initializations| && IsAhead(t, j, i)
    ensures IsAhead(s, j, i)
  {
    if !s.initializations[i].phase.Running? {
      LatestHasCarrier(s, i);
      AppendKeepsOrder(s.queue, more, j, i, Some(s.track.lastToken));
    }
    hide Good, Pos, HasCarrier;
  }

  /** Neither do events that only add other tasks. */
  lemma OthersThreatenNobody(s: State, t: State, more: seq<Task>, i: nat)
    requires Suspended(s, i) && t.initializations == s.initializations && t.track == s.track
    requires t.queue == s.queue + more && NoInitTasks(more)
    ensures IsThreatened(t, i) ==> IsThreatened(s, i)
  {
    if IsThreatened(t, i) && !s.track.taken {
      var j :| 0 <= j < |t.initializations| && IsRival(t, j, i) && IsAhead(t, j, i);
      OthersKeepAwaited(s, t, more, j);
      OthersKeepAhead(s, t, more, j, i);
      assert IsRival(s, j, i);
    }
    hide Good, IsAwaited, IsAhead;
  }

  lemma CreationThreatensNobody(s: State, c: nat, ok: bool, i: nat)
    requires Suspended(s, i)
    ensures var t := SettleCreation(s, c, ok);
            |t.initializations| == |s.initializations| && (IsThreatened(t, i) ==> IsThreatened(s, i))
  {
    if c < |s.creations| && s.creations[c].phase.Open? {
      OthersThreatenNobody(s, SettleCreation(s, c, ok), [CreationJob(c)], i);
    }
    hide Good, IsThreatened;
  }

  lemma KindsThreatenNobody(s: State, views: set<View>, i: nat)
    requires Suspended(s, i)
    ensures var t := s.(window := s.window.(terminalViews := views)); IsThreatened(t, i) ==> IsThreatened(s, i)
  {
    assert s.queue + [] == s.queue;
    OthersThreatenNobody(s, s.(window := s.window.(terminalViews := views)), [], i);
  }

  lemma {:induction false} HarmlessRun(s: State, events: seq<Event>)
    requires Harmless(s) && WithoutRequests(events)
    ensures var t := Run(s, events);
            && Good(t) && s.ledger.shown <= t.ledger.shown
            && (forall k | |s.ledger.shown| <= k < |t.ledger.shown| :: !t.ledger.shown[k].taken)
    decreases |events|
  {
    hide Apply, Good, Suspended, IsThreatened;
    if events != [] {
      assert events[0] in events;
      QuietStep(s, events[0]);
      HarmlessRun(Apply(s, events[0]), events[1..]);
    }
  }

  // ---- A threat can come true ----

  predicate HasSize(r: Request) {
    r.width > 0 && r.height > 0
  }

  /** The surface of the latest request, wherever that waits for an initialisation, has a size. */
  ghost predicate LatestHasSize(s: State) {
    && (forall i | 0 <= i < |s.initializations| ::
          forall k | 0 <= k < |s.initializations[i].waiters| ::
            s.initializations[i].waiters[k].token.serial == s.track.lastToken ==>
              HasSize(s.initializations[i].waiters[k]))
    && (forall k | 0 <= k < |s.queue| && s.queue[k].ResumeInit? ::
          s.queue[k].request.token.serial == s.track.lastToken ==> HasSize(s.queue[k].request))
  }

  predicate WithoutRequests(events: seq<Event>) {
    forall e: Event | e in events :: !e.Requested?
  }

  predicate ShowsDisposed(s: State, t: State) {
    exists k | |s.ledger.shown| <= k < |t.ledger.shown| :: t.ledger.shown[k].view in t.ledger.shown[k].disposedViews
  }

  lemma JobKeepsSize(s: State)
    requires Good(s) && LatestHasSize(s) && s.queue != [] && s.queue[0].InitJob?
    ensures LatestHasSize(RunMicrotask(s))
  {
    var t, k := RunMicrotask(s), s.queue[0].init;
    InitTask(s);
    hide Good, RunMicrotask, Kept;
    var rest, more := s.queue[1..], NextTasks(s.initializations[k], k);
    forall a | 0 <= a < |t.queue| && t.queue[a].ResumeInit? && t.queue[a].request.token.serial == s.track.lastToken
      ensures HasSize(t.queue[a].request)
    {
      if a < |rest| {
        assert t.queue[a] == s.queue[a + 1];
      } else {
        assert t.queue[a] == more[a - |rest|];
        assert more[a - |rest|].request == s.initializations[k].waiters[a - |rest|];
      }
    }
  }

  lemma OtherKeepsSize(s: State, t: State)
    requires LatestHasSize(s) && s.queue != []
    requires t.initializations == s.initializations && t.track.lastToken == s.track.lastToken
    requires AddsOthers(s.queue[1..], t.queue)
    ensures LatestHasSize(t)
  {
    var rest := s.queue[1..];
    var more := t.queue[|rest|..];
    assert forall b | 0 <= b < |more| :: t.queue[|rest| + b] == more[b];
    forall a | 0 <= a < |rest| && t.queue[a].ResumeInit? && t.queue[a].request.token.serial == s.track.lastToken
      ensures HasSize(t.queue[a].request)
    {
      assert t.queue[a] == s.queue[a + 1];
    }
  }

  lemma StepKeepsSize(s: State, i: nat)
    requires Suspended(s, i) && LatestHasSize(s) && s.queue != [] && !IsOwnResume(s, s.queue[0])
    ensures LatestHasSize(RunMicrotask(s)) && (s.track.taken ==> RunMicrotask(s).track.taken)
  {
    if s.queue[0].InitJob? {
      InitTask(s);
      JobKeepsSize(s);
    } else {
      HeadIsStale(s);
      StaleTask(s);
      OtherKeepsSize(s, RunMicrotask(s));
    }
    hide Good, RunMicrotask;
  }

  predicate IsNearer(s: State, t: State, k: nat, serial: Option<nat>)
    requires k < |s.initializations|
  {
    && |t.initializations| == |s.initializations|
    && var before, after := Rank(s.initializations[k].phase), Rank(t.initializations[k].phase);
       after < before || (after == before && Pos(t.queue, k, serial) < Pos(s.queue, k, serial))
  }

  lemma JobComesNearer(s: State, k: nat, serial: Option<nat>)
    requires Good(s) && s.queue != [] && s.queue[0].InitJob?
    requires k < |s.initializations| && !s.initializations[k].phase.Running? && HasCarrier(s.queue, k, serial)
    ensures IsNearer(s, RunMicrotask(s), k, serial)
  {
    InitTask(s);
    var head := s.queue[0].init;
    if head != k {
      PosShift(s.queue, NextTasks(s.initializations[head], head), k, serial);
    }
    hide Good, RunMicrotask, Kept, Pos, HasCarrier, Advanced, NextTasks;
  }

  lemma OtherComesNearer(s: State, t: State, k: nat, serial: Option<nat>)
    requires s.queue != [] && !Carries(s.queue[0], k, serial) && HasCarrier(s.queue, k, serial)
    requires k < |s.initializations| && t.initializations == s.initializations && AddsOthers(s.queue[1..], t.queue)
    ensures IsNearer(s, t, k, serial)
  {
    var more := t.queue[|s.queue| - 1..];
    assert t.queue == s.queue[1..] + more;
    PosShift(s.queue, more, k, serial);
  }

  /** A microtask brings an attempt that is not running nearer to its continuations. */
  lemma StepComesNearer(s: State, i: nat, k: nat, serial: Option<nat>)
    requires Suspended(s, i) && s.queue != [] && !IsOwnResume(s, s.queue[0])
    requires k < |s.initializations| && !s.initializations[k].phase.Running? && HasCarrier(s.queue, k, serial)
    requires s.queue[0].ResumeInit? ==> !Carries(s.queue[0], k, serial)
    ensures IsNearer(s, RunMicrotask(s), k, serial)
  {
    if s.queue[0].InitJob? {
      JobComesNearer(s, k, serial);
    } else {
      HeadIsStale(s);
      StaleTask(s);
      OtherComesNearer(s, RunMicrotask(s), k, serial);
    }
    hide Good, RunMicrotask, IsNearer;
  }

  lemma RunCons(s: State, e: Event, events: seq<Event>)
    ensures Run(s, [e] + events) == Run(Apply(s, e), events)
  {
    assert ([e] + events)[1..] == events;
  }

  /** What the last continuation of a request whose view was taken finds. */
  lemma TakenAtTheEnd(s: State, i: nat)
    requires Suspended(s, i) && s.track.taken && LatestHasSize(s) && !s.initializations[i].outcome.Failed?
    requires s.queue != [] && IsOwnResume(s, s.queue[0])
    ensures s.queue[0].init == i && s.initializations[i].outcome.Succeeded?
    ensures s.initializations[i].view in s.disposedViews && IsDesired(s, s.queue[0].request.token)
    ensures HasSize(s.queue[0].request)
  {
    OwnResumeIsOwn(s, i);
    TasksOf(s, i);
    TakenIsDisposed(s, i);
    OwnIsDesired(s, i);
    hide Good;
  }

  /** The end of it: the request shows the view that was taken from it, if that counts as a terminal. */
  lemma TakenIsShown(s: State, i: nat)
    requires Suspended(s, i) && s.track.taken && LatestHasSize(s) && !s.initializations[i].outcome.Failed?
    requires s.queue != [] && IsOwnResume(s, s.queue[0])
    ensures var views := s.window.terminalViews + {s.initializations[i].view};
            ShowsDisposed(s, Run(s, [KindsChanged(views), Microtask]))
  {
    var view, r := s.initializations[i].view, s.queue[0].request;
    var views := s.window.terminalViews + {view};
    var s1 := Apply(s, KindsChanged(views));
    RunCons(s, KindsChanged(views), [Microtask]);
    assert Run(s1, [Microtask]) == Apply(s1, Microtask);
    TakenAtTheEnd(s, i);
    hide Good, LatestHasSize, Run, Present;
    assert Apply(s1, Microtask) == Present(Wake(s1.(queue := s.queue[1..]), r.token), r, view);
    PresentShowsIt(Wake(s1.(queue := s.queue[1..]), r.token), r, view);
  }

  lemma TakenIsDisposed(s: State, i: nat)
    requires Suspended(s, i) && s.track.taken
    ensures s.initializations[i].view in s.disposedViews
  {
    hide StatusesOk, ReadyOk, AllShownOk, RegistryOk, LedgerOk, VisibleOk, ResolvedBySharers, EntriesReady, ResultsOk,
      JobsQueued, InitJobsQueued, InitRequestsOk, CreationsOk, QueueOk, InitsOk;
  }

  lemma OwnIsDesired(s: State, i: nat)
    requires Suspended(s, i) && s.queue != [] && IsOwnResume(s, s.queue[0])
    ensures s.desired == Some(s.queue[0].request.token)
  {
    hide Inv, JobsQueued, InitJobsQueued;
    assert IsKnown(s.desired, s.track.lastToken, s.queue[0].request);
  }

  lemma PresentShowsIt(s: State, r: Request, view: View)
    requires IsDesired(s, r.token) && view in s.window.terminalViews && view in s.disposedViews && HasSize(r)
    ensures ShowsDisposed(s, Present(s, r, view))
  {
    var t := Present(s, r, view);
    var k := |s.ledger.shown|;
    assert t.ledger.shown[k].view == view && t.ledger.shown[k].disposedViews == s.disposedViews;
  }

  /** Once the view is taken, the request has only to come to its end. */
  lemma {:induction false} TakenComesTrue(s: State, i: nat) returns (events: seq<Event>)
    requires Suspended(s, i) && s.track.taken && LatestHasSize(s) && !s.initializations[i].outcome.Failed?
    ensures WithoutRequests(events) && ShowsDisposed(s, Run(s, events))
    decreases Rank(s.initializations[i].phase), Pos(s.queue, i, Some(s.track.lastToken))
  {
    if s.initializations[i].phase.Running? {
      var e := InitSettled(i, Succeeded);
      SettleKeepsSuspended(s, i, Succeeded, i);
      hide Apply, Suspended, LatestHasSize, Run;
      events := TakenComesTrue(Apply(s, e), i);
      RunCons(s, e, events);
      events := [e] + events;
    } else {
      LatestHasCarrier(s, i);
      if IsOwnResume(s, s.queue[0]) {
        TakenIsShown(s, i);
        events := [KindsChanged(s.window.terminalViews + {s.initializations[i].view}), Microtask];
      } else {
        StepKeepsThreat(s, i);
        StepKeepsSize(s, i);
        StepComesNearer(s, i, i, Some(s.track.lastToken));
        assert Apply(s, Microtask) == RunMicrotask(s);
        hide Apply, Suspended, LatestHasSize, Run, RunMicrotask, Pos;
        events := TakenComesTrue(Apply(s, Microtask), i);
        RunCons(s, Microtask, events);
        events := [Microtask] + events;
      }
    }
  }

  /** A promise settles while the latest request stays where it is. */
  lemma SettleKeepsSuspended(s: State, k: nat, outcome: InitOutcome, i: nat)
    requires Suspended(s, i) && LatestHasSize(s) && !outcome.Undecided?
    requires k < |s.initializations| && s.initializations[k].phase.Running?
    ensures var t := Apply(s, InitSettled(k, outcome));
            && Suspended(t, i) && LatestHasSize(t) && t.track == s.track && t.ledger.shown == s.ledger.shown
            && t.queue == s.queue + [InitJob(k)]
            && t.initializations == s.initializations[k := s.initializations[k].(phase := Reacting, outcome := outcome)]
  {
    EventKeeps(s, InitSettled(k, outcome));
    SettleShape(s, k, outcome);
    hide Good, Apply;
    var t := Apply(s, InitSettled(k, outcome));
    assert forall a | 0 <= a < |s.queue| :: t.queue[a] == s.queue[a];
  }

  lemma SettleShape(s: State, k: nat, outcome: InitOutcome)
    requires k < |s.initializations| && s.initializations[k].phase.Running? && !outcome.Undecided?
    ensures Apply(s, InitSettled(k, outcome)) ==
              s.(initializations := s.initializations[k :=
                                       s.initializations[k].(phase := Reacting, outcome := outcome)],
                 queue := s.queue + [InitJob(k)])
  {
  }

  /** A rival that is ahead fails in time, and its first continuation takes the view. */
  lemma {:induction false} RivalComesTrue(s: State, i: nat, j: nat) returns (events: seq<Event>)
    requires Suspended(s, i) && !s.track.taken && LatestHasSize(s) && !s.initializations[i].outcome.Failed?
    requires IsRival(s, j, i) && IsAhead(s, j, i)
    ensures WithoutRequests(events) && ShowsDisposed(s, Run(s, events))
    decreases Rank(s.initializations[j].phase), Pos(s.queue, j, None)
  {
    if s.initializations[j].phase.Running? {
      var e := InitSettled(j, Failed(true));
      FailingStaysAhead(s, i, j);
      hide Apply, Suspended, LatestHasSize, Run, IsRival, IsAhead, Pos;
      events := RivalComesTrue(Apply(s, e), i, j);
      RunCons(s, e, events);
      events := [e] + events;
    } else {
      RivalMoves(s, i, j);
      hide Apply, Suspended, LatestHasSize, Run, Pos, IsRival, IsAhead;
      if Apply(s, Microtask).track.taken {
        events := TakenComesTrue(Apply(s, Microtask), i);
      } else {
        events := RivalComesTrue(Apply(s, Microtask), i, j);
      }
      RunCons(s, Microtask, events);
      events := [Microtask] + events;
    }
  }

  /** One microtask of a rival that is ahead: it comes nearer, or it takes the view. */
  lemma RivalMoves(s: State, i: nat, j: nat)
    requires Suspended(s, i) && !s.track.taken && LatestHasSize(s) && !s.initializations[i].outcome.Failed?
    requires IsRival(s, j, i) && IsAhead(s, j, i) && !s.initializations[j].phase.Running?
    ensures var t := Apply(s, Microtask);
            && Suspended(t, i) && LatestHasSize(t) && t.ledger.shown == s.ledger.shown
            && !t.initializations[i].outcome.Failed?
            && (!t.track.taken ==> IsNearer(s, t, j, None) && IsRival(t, j, i) && IsAhead(t, j, i))
  {
    AwaitedHasCarrier(s, j);
    RivalIsBefore(s, i, j);
    StepKeepsThreat(s, i);
    StepKeepsSize(s, i);
    assert IsThreatened(s, i);
    if !RunMicrotask(s).track.taken {
      StepKeepsRival(s, i, j);
    }
    hide Good, RunMicrotask, Pos, IsRival, IsAhead, IsNearer, LatestHasSize, HasCarrier, IsAwaited;
  }

  lemma FailingStaysAhead(s: State, i: nat, j: nat)
    requires Suspended(s, i) && LatestHasSize(s)
    requires IsRival(s, j, i) && IsAhead(s, j, i) && s.initializations[j].phase.Running?
    requires !s.initializations[i].outcome.Failed?
    ensures var t := Apply(s, InitSettled(j, Failed(true)));
            && Suspended(t, i) && LatestHasSize(t) && t.track == s.track && t.ledger.shown == s.ledger.shown
            && IsRival(t, j, i) && IsAhead(t, j, i) && !t.initializations[i].outcome.Failed?
            && t.initializations[j].phase.Reacting?
  {
    SettleKeepsSuspended(s, j, Failed(true), i);
    RunningHasWaiters(s, j);
    FailingKeepsRival(s, Apply(s, InitSettled(j, Failed(true))), i, j);
    hide Good, LatestHasSize, Apply, IsRival, IsAhead;
  }

  lemma FailingKeepsRival(s: State, t: State, i: nat, j: nat)
    requires i < |s.initializations| && IsRival(s, j, i) && IsAhead(s, j, i)
    requires s.initializations[j].phase.Running? && s.initializations[j].waiters != []
    requires t.initializations ==
               s.initializations[j := s.initializations[j].(phase := Reacting, outcome := Failed(true))]
    ensures IsRival(t, j, i) && IsAhead(t, j, i)
  {
    RunningIsBehind(s, s, j, i);
    hide Precedes;
  }

  lemma RunningHasWaiters(s: State, j: nat)
    requires Good(s) && j < |s.initializations| && s.initializations[j].phase.Running?
    ensures s.initializations[j].waiters != []
  {
    TasksOf(s, j);
    hide Good;
  }

  /** Until then the latest request does not run, and once it is the rival's turn the view is taken. */
  lemma RivalIsBefore(s: State, i: nat, j: nat)
    requires Suspended(s, i) && !s.track.taken && !s.initializations[i].outcome.Failed?
    requires IsRival(s, j, i) && IsAhead(s, j, i) && !s.initializations[j].phase.Running?
    ensures s.queue != [] && !IsOwnResume(s, s.queue[0])
    ensures s.queue[0].ResumeInit? && Carries(s.queue[0], j, None) ==> RunMicrotask(s).track.taken
  {
    AwaitedHasCarrier(s, j);
    if IsOwnResume(s, s.queue[0]) {
      OwnResumeIsOwn(s, i);
      assert false;
    } else if s.queue[0].ResumeInit? && Carries(s.queue[0], j, None) {
      OnlyRivalsTake(s, i);
      HeadIsStale(s);
      StaleTask(s);
    }
    hide Good, RunMicrotask, Takes, IsAwaited;
  }

  /** While the view is not taken, a rival stays one, ahead, and comes nearer. */
  lemma StepKeepsRival(s: State, i: nat, j: nat)
    requires Suspended(s, i) && !s.track.taken && !s.initializations[i].outcome.Failed?
    requires IsRival(s, j, i) && IsAhead(s, j, i) && !s.initializations[j].phase.Running?
    requires !RunMicrotask(s).track.taken
    ensures var t := RunMicrotask(s);
            IsNearer(s, t, j, None) && i < |t.initializations| && IsRival(t, j, i) && IsAhead(t, j, i)
  {
    RivalIsBefore(s, i, j);
    AwaitedHasCarrier(s, j);
    StepComesNearer(s, i, j, None);
    if s.queue[0].InitJob? {
      InitTask(s);
      JobKeepsRival(s, j, i);
    } else {
      HeadIsStale(s);
      StaleTask(s);
      NotOwnCarrier(s, i);
      OtherKeepsRival(s, RunMicrotask(s), j, i);
    }
    hide Good, RunMicrotask, IsRival, IsAhead, IsNearer;
  }

  lemma NotOwnCarrier(s: State, i: nat)
    requires s.queue != [] && !s.queue[0].InitJob? && !IsOwnResume(s, s.queue[0])
    ensures !Carries(s.queue[0], i, Some(s.track.lastToken))
  {
  }

  // ---- The exact condition ----

  /**
   While the request the controller works for awaits attempt `i` and has a surface of some size, events
   other than new requests can still lead to its showing a view that was disposed of exactly if its
   attempt has not failed and the view was taken already, or another attempt at this view under the
   same key is still awaited, has not settled otherwise than by a mismatch of kinds, and is ahead.
   */
  lemma DisposedCanBeShownExactlyWhen(s: State, i: nat)
    requires Suspended(s, i) && LatestHasSize(s)
    ensures (exists events: seq<Event> :: WithoutRequests(events) && ShowsDisposed(s, Run(s, events)))
            <==> IsThreatened(s, i)
  {
    if IsThreatened(s, i) {
      if s.track.taken {
        var events := TakenComesTrue(s, i);
      } else {
        var j :| 0 <= j < |s.initializations| && IsRival(s, j, i) && IsAhead(s, j, i);
        var events := RivalComesTrue(s, i, j);
      }
    } else {
      forall events: seq<Event> | WithoutRequests(events)
        ensures !ShowsDisposed(s, Run(s, events))
      {
        HarmlessRun(s, events);
        UntakenIsAlive(Run(s, events));
      }
    }
    hide Suspended, LatestHasSize, Run, IsThreatened;
  }

  lemma UntakenIsAlive(s: State)
    requires Good(s)
    ensures forall k | 0 <= k < |s.ledger.shown| && !s.ledger.shown[k].taken ::
              s.ledger.shown[k].view !in s.ledger.shown[k].disposedViews
  {
    hide StatusesOk, ReadyOk, RegistryOk, LedgerOk, VisibleOk, ResolvedBySharers, EntriesReady, ResultsOk, PlaceOk,
      JobsQueued, InitJobsQueued, InitRequestsOk, CreationsOk, QueueOk, InitsOk;
  }

  /** A request that awaits no initialisation is not threatened: only a new request can make it show such a view. */
  lemma NotThreatenedBefore(s: State, events: seq<Event>)
    requires Good(s) && !(IsLive(s) && s.track.place.AtInit?) && WithoutRequests(events)
    ensures !ShowsDisposed(s, Run(s, events))
  {
    HarmlessRun(s, events);
    hide Run, Good;
    UntakenIsAlive(Run(s, events));
  }

  /** As long as the request's own attempt runs, no order matters. */
  lemma DisposedCanBeShownWhileRunning(s: State, i: nat)
    requires Suspended(s, i) && LatestHasSize(s) && s.initializations[i].phase.Running?
    ensures (exists events: seq<Event> :: WithoutRequests(events) && ShowsDisposed(s, Run(s, events)))
            <==> s.track.taken || exists j | 0 <= j < |s.initializations| :: IsRival(s, j, i)
  {
    DisposedCanBeShownExactlyWhen(s, i);
    TasksOf(s, i);
    hide Good, Run, IsRival;
    if j :| 0 <= j < |s.initializations| && IsRival(s, j, i) {
      assert IsAhead(s, j, i);
    }
  }
}
