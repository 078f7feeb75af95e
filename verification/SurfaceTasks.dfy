/** Every microtask of the terminal surface controller keeps the invariant. */
module SurfaceTasks {
  import opened Wrappers
  import opened SurfaceModel
  import opened SurfaceInvariant
  import opened SurfaceSteps

  ghost predicate Good(s: State) {
    && Inv(s) && JobsQueued(s.queue, s.creations) && InitJobsQueued(s.queue, s.initializations)
    && InitRequestsOk(s.desired, s.track.lastToken, s.initializations, s.queue)
  }

  // ---- Continuations after an initialisation ----

  lemma FailKeeps(s: State, r: Request, i: nat, kindMismatch: bool)
    requires Inv(s) && IsAwake(s, r) && i < |s.initializations|
    requires WasRegistered(s.ledger, s.initializations[i].view)
    requires kindMismatch ==> s.initializations[i].outcome == Failed(true)
    ensures Inv(FailInitialization(s, r, i, kindMismatch))
  {
    hide Core, ResultsOk;
    var view := s.initializations[i].view;
    if kindMismatch {
      if IsDesiredInitialization(s, s.initializations[i], view) || !IsViewOwned(s, view) {
        MismatchKeeps(s, r, i);
        EmitErrorKeeps(DisposeMismatched(s, i, view), r);
      } else {
        EmitErrorKeeps(s, r);
      }
    } else if !IsDesired(s, r.token) {
      ReleaseKeeps(s, view);
    } else {
      EmitErrorKeeps(s, r);
    }
  }

  lemma MismatchKeeps(s: State, r: Request, i: nat)
    requires Inv(s) && IsAwake(s, r) && i < |s.initializations|
    requires WasRegistered(s.ledger, s.initializations[i].view) && s.initializations[i].outcome == Failed(true)
    ensures var after := DisposeMismatched(s, i, s.initializations[i].view); Inv(after) && IsAwake(after, r)
  {
    hide Core, ResultsOk;
    var view := s.initializations[i].view;
    if TakesPlace(s, i, view) {
      TakeKeeps(s, i, view);
    } else {
      DisposeKeeps(s, view);
    }
  }

  /** What the desired request finds when its initialisation has succeeded. */
  lemma DesiredFindsView(s: State)
    requires Inv(s) && s.queue != [] && s.queue[0].ResumeInit?
    ensures var i := s.queue[0].init;
            && i < |s.initializations|
            && WasRegistered(s.ledger, s.initializations[i].view)
            && s.initializations[i].view.terminalTabId == s.queue[0].request.tab
            && !s.initializations[i].outcome.Undecided?
            && (IsDesired(s, s.queue[0].request.token) && s.initializations[i].outcome.Succeeded? ==>
                  && s.initializations[i].view !in s.unreadyViews
                  && (if s.track.taken then s.initializations[i].view in s.disposedViews
                      else Maps(s.window.registry, s.initializations[i].view)))
  {
    hide StatusesOk, ReadyOk, AllShownOk, RegistryOk, LedgerOk, CreationsOk, ResolvedBySharers, EntriesReady, ResultsOk;
    assert TaskOk(s.queue[0], s.creations, s.initializations, s.track);
  }

  lemma ResumeInitKeeps(s: State)
    requires Inv(s) && s.queue != [] && s.queue[0].ResumeInit?
    ensures Inv(RunMicrotask(s))
  {
    hide Core, ResultsOk;
    var r, i := s.queue[0].request, s.queue[0].init;
    PopResume(s);
    DesiredFindsView(s);
    var s1 := Wake(s.(queue := s.queue[1..]), r.token);
    if s.initializations[i].outcome.Failed? {
      FailKeeps(s1, r, i, s.initializations[i].outcome.kindMismatch);
    } else {
      PresentKeeps(s1, r, s.initializations[i].view);
    }
  }

  // ---- Claiming and giving up a created view ----

  /** A creation record moved on, with its key, creator and waiters unchanged. */
  predicate MovesOn(before: Creation, after: Creation) {
    && after.key == before.key && after.creator == before.creator
    && after.waiters == before.waiters && after.result == before.result
    && !IsMapped(before.phase) && !IsMapped(after.phase)
    && (CreatorPending(after.phase) ==> CreatorPending(before.phase))
  }

  lemma MoveOnQueue(queue: seq<Task>, creations: seq<Creation>, inits: seq<Initialization>, track: Track,
                    c: nat, after: Creation)
    requires QueueOk(queue, creations, inits, track) && c < |creations| && MovesOn(creations[c], after)
    requires after.phase.Finished? && !creations[c].phase.Finished? ==> CreationJob(c) !in queue
    requires after.claimed && !creations[c].claimed ==> track.place == Nowhere
    requires after.disposed && !creations[c].disposed ==>
               forall k | 0 <= k < |queue| :: queue[k].ResumeWaiter? ==> queue[k].creation != c
    ensures QueueOk(queue, creations[c := after], inits, track)
  {
  }

  lemma MoveOnKeeps(s: State, c: nat, after: Creation)
    requires Core(s) && c < |s.creations| && MovesOn(s.creations[c], after)
    requires after.phase.Finished? && !s.creations[c].phase.Finished? ==> CreationJob(c) !in s.queue
    requires (after.claimed || after.disposed) && CreatorPending(after.phase) ==>
               after.creator.token.serial < s.track.lastToken
    requires after.claimed && !s.creations[c].claimed ==> s.track.place == Nowhere
    requires after.disposed && !s.creations[c].disposed ==>
               forall k | 0 <= k < |s.queue| :: s.queue[k].ResumeWaiter? ==> s.queue[k].creation != c
    ensures Core(SetCreation(s, c, after))
  {
    hide StatusesOk, ReadyOk, AllShownOk, RegistryOk, LedgerOk, EntriesReady, InitsOk, QueueOk;
    MoveOnQueue(s.queue, s.creations, s.initializations, s.track, c, after);
  }

  lemma ClaimResults(creations: seq<Creation>, c: nat, after: Creation, disposed: set<View>,
                     registry: map<TabId, View>, ledger: Ledger)
    requires ResultsOk(creations, disposed, registry, ledger) && c < |creations|
    requires after.result.Fulfilled? && !creations[c].claimed && !creations[c].disposed
    requires MovesOn(creations[c], after) && after.claimed && !after.disposed
    ensures var view := after.result.view;
            ResultsOk(creations[c := after], disposed, registry[view.terminalTabId := view], Registered(ledger, view))
  {
  }

  /** A desired request claims a created view: it is registered, for the first time, where nothing was. */
  lemma ClaimKeeps(s: State, c: nat, after: Creation)
    requires Inv(s) && c < |s.creations| && MovesOn(s.creations[c], after)
    requires after.result.Fulfilled? && !s.creations[c].claimed && !s.creations[c].disposed
    requires after.claimed && !after.disposed
    requires after.phase.Finished? && !s.creations[c].phase.Finished? ==> CreationJob(c) !in s.queue
    requires s.track.place == Nowhere
    requires CreatorPending(after.phase) ==> after.creator.token.serial < s.track.lastToken
    requires after.creator.tab !in s.window.registry
    ensures Inv(Adopt(SetCreation(s, c, after), after.result.view))
    ensures WasRegistered(Adopt(SetCreation(s, c, after), after.result.view).ledger, after.result.view)
  {
    MoveOnKeeps(s, c, after);
    hide Core;
    assert ResultOk(s.creations[c], s.disposedViews, s.window.registry, s.ledger);
    AdoptKeeps(SetCreation(s, c, after), after.result.view);
    ClaimResults(s.creations, c, after, s.disposedViews, s.window.registry, s.ledger);
  }

  lemma GiveUpResults(creations: seq<Creation>, c: nat, after: Creation, disposed: set<View>,
                      registry: map<TabId, View>, ledger: Ledger)
    requires ResultsOk(creations, disposed, registry, ledger) && c < |creations|
    requires after.result.Fulfilled? && !creations[c].claimed && !creations[c].disposed
    requires MovesOn(creations[c], after) && !after.claimed && after.disposed
    ensures var view := after.result.view;
            ResultsOk(creations[c := after], disposed + {view}, registry, Disposed(ledger, view))
  {
  }

  lemma GiveUpViews(registry: map<TabId, View>, unready: set<View>, disposed: set<View>, ledger: Ledger, view: View)
    requires RegistryOk(registry, unready, disposed, ledger) && LedgerOk(disposed, ledger)
    requires !Maps(registry, view) && view !in disposed && view.serial < ledger.nextView
    ensures RegistryOk(registry, unready - {view}, disposed + {view}, Disposed(ledger, view))
    ensures LedgerOk(disposed + {view}, Disposed(ledger, view))
    ensures Unregister(registry, view) == registry
  {
  }

  /** Nobody will claim the view any more, so it is disposed of, for the first and only time. */
  lemma GiveUpKeeps(s: State, c: nat)
    requires Inv(s) && c < |s.creations| && !IsMapped(s.creations[c].phase)
    requires CreatorPending(s.creations[c].phase) ==> s.creations[c].creator.token.serial < s.track.lastToken
    requires forall k | 0 <= k < |s.queue| :: s.queue[k].ResumeWaiter? ==> s.queue[k].creation != c
    ensures Inv(DisposeUnclaimed(s, c))
    ensures var s' := DisposeUnclaimed(s, c);
            && |s'.creations| == |s.creations| && s'.queue == s.queue
            && s'.creations[c].phase == s.creations[c].phase
            && (s.creations[c].result.Fulfilled? ==> s'.creations[c].claimed || s'.creations[c].disposed)
            && s'.track == s.track
  {
    var creation := s.creations[c];
    if !creation.claimed && !creation.disposed && creation.result.Fulfilled? {
      var after, view := creation.(disposed := true), creation.result.view;
      assert ResultOk(creation, s.disposedViews, s.window.registry, s.ledger);
      MoveOnKeeps(s, c, after);
      GiveUpResults(s.creations, c, after, s.disposedViews, s.window.registry, s.ledger);
      GiveUpViews(s.window.registry, s.unreadyViews, s.disposedViews, s.ledger, view);
      GiveUpCore(SetCreation(s, c, after), view);
    }
  }

  lemma GiveUpCore(s: State, view: View)
    requires Core(s) && !Maps(s.window.registry, view) && view !in s.disposedViews
    requires RegistryOk(s.window.registry, s.unreadyViews - {view}, s.disposedViews + {view}, Disposed(s.ledger, view))
    requires LedgerOk(s.disposedViews + {view}, Disposed(s.ledger, view))
    requires Unregister(s.window.registry, view) == s.window.registry
    ensures Core(DisposeView(s, view))
  {
    hide StatusesOk, ReadyOk, AllShownOk, RegistryOk, LedgerOk, CreationsOk, ResolvedBySharers, InitsOk, QueueOk;
  }

  // ---- Continuations after a creation ----

  /** What a sharer of a creation finds when it runs again. */
  lemma SharerFinds(s: State)
    requires Good(s) && s.queue != [] && s.queue[0].ResumeWaiter?
    ensures var r, c := s.queue[0].request, s.queue[0].creation;
            && c < |s.creations| && !IsMapped(s.creations[c].phase) && !s.creations[c].disposed
            && s.creations[c].creator.token.serial < r.token.serial <= s.track.lastToken
            && s.creations[c].creator.tab == r.tab
            && (IsDesired(s, r.token) ==> !s.creations[c].claimed && r.tab !in s.window.registry && !s.track.taken)
  {
    hide StatusesOk, ReadyOk, AllShownOk, RegistryOk, LedgerOk, ResolvedBySharers, EntriesReady, InitsOk, ResultsOk;
    var r, c := s.queue[0].request, s.queue[0].creation;
    assert TaskOk(s.queue[0], s.creations, s.initializations, s.track);
  }

  lemma ResumeWaiterKeeps(s: State)
    requires Good(s) && s.queue != [] && s.queue[0].ResumeWaiter?
    ensures Inv(RunMicrotask(s))
  {
    hide Core, ResultsOk, JobsQueued, InitJobsQueued, InitRequestsOk;
    var r, c := s.queue[0].request, s.queue[0].creation;
    SharerFinds(s);
    PopResume(s);
    var s1 := Wake(s.(queue := s.queue[1..]), r.token);
    var creation := s.creations[c];
    if !creation.result.Fulfilled? {
      EmitErrorKeeps(s1, r);
    } else if !IsDesired(s1, r.token) {
      YieldKeeps(s1, DisposeCheck(r, c));
    } else {
      DesiredIsLatest(s, r);
      ClaimKeeps(s1, c, creation.(claimed := true));
      var s2 := Adopt(SetCreation(s1, c, creation.(claimed := true)), creation.result.view);
      FulfilledTab(s, c);
      PrepareKeeps(s2, r, creation.result.view);
    }
  }

  lemma DesiredIsLatest(s: State, r: Request)
    requires Inv(s) && IsDesired(s, r.token)
    ensures r.token.serial == s.track.lastToken && r.token.revision == s.lastRevision
  {
    hide StatusesOk, ReadyOk, AllShownOk, RegistryOk, LedgerOk, CreationsOk, ResolvedBySharers, EntriesReady,
      InitsOk, ResultsOk, QueueOk;
  }

  lemma FulfilledTab(s: State, c: nat)
    requires Inv(s) && c < |s.creations| && s.creations[c].result.Fulfilled?
    ensures s.creations[c].result.view.terminalTabId == s.creations[c].creator.tab
  {
    hide Core;
    assert ResultOk(s.creations[c], s.disposedViews, s.window.registry, s.ledger);
  }

  /** A stale sharer yields once: its check goes to the end of the queue. */
  lemma YieldKeeps(s: State, task: Task)
    requires Inv(s)
    requires task.DisposeCheck? && TaskOk(task, s.creations, s.initializations, s.track)
    ensures Inv(s.(queue := s.queue + [task]))
  {
    AppendKeeps(s, [task]);
  }

  /** First-in first-out order: no sharer of the creation is still queued behind such a task. */
  lemma NoSharerBehind(s: State, c: nat)
    requires QueueOk(s.queue, s.creations, s.initializations, s.track) && s.queue != []
    requires (s.queue[0].DisposeCheck? && s.queue[0].creation == c)
             || (s.queue[0] == CreationJob(c) && c < |s.creations| && !s.creations[c].phase.Settled?)
    ensures forall k | 1 <= k < |s.queue| :: s.queue[k].ResumeWaiter? ==> s.queue[k].creation != c
    ensures s.queue[0] == CreationJob(c) ==> forall k | 1 <= k < |s.queue| :: s.queue[k] != CreationJob(c)
  {
    assert forall k | 1 <= k < |s.queue| :: OrderOk(s.queue[0], s.queue[k], s.creations);
  }

  lemma DisposeCheckKeeps(s: State)
    requires Inv(s) && s.queue != [] && s.queue[0].DisposeCheck?
    ensures Inv(RunMicrotask(s))
  {
    var c := s.queue[0].creation;
    assert TaskOk(s.queue[0], s.creations, s.initializations, s.track);
    NoSharerBehind(s, c);
    PopKeeps(s);
    hide Core, ResultsOk;
    GiveUpKeeps(s.(queue := s.queue[1..]), c);
  }

  // ---- Jobs of a creation ----

  /** A creation record moves to a later phase and its next job is queued. */
  lemma NextJobKeeps(s: State, c: nat, after: Creation)
    requires Core(s) && c < |s.creations| && MovesOn(s.creations[c], after)
    requires after == s.creations[c].(phase := after.phase) && !after.phase.Finished?
    requires (after.claimed || after.disposed) && CreatorPending(after.phase) ==>
               after.creator.token.serial < s.track.lastToken
    requires CreationJob(c) !in s.queue
    ensures Core(SetCreation(s, c, after).(queue := s.queue + [CreationJob(c)]))
  {
    MoveOnKeeps(s, c, after);
    AppendKeeps(SetCreation(s, c, after), [CreationJob(c)]);
  }

  lemma PhaseResults(creations: seq<Creation>, c: nat, after: Creation, disposed: set<View>,
                     registry: map<TabId, View>, ledger: Ledger)
    requires ResultsOk(creations, disposed, registry, ledger) && c < |creations|
    requires after == creations[c].(phase := after.phase, waiters := after.waiters)
    requires after.phase.Finished? && after.result.Fulfilled? ==> after.claimed || after.disposed
    requires IsMapped(after.phase) ==> IsMapped(creations[c].phase)
    ensures ResultsOk(creations[c := after], disposed, registry, ledger)
  {
  }

  function SettlingTasks(creation: Creation, c: nat): seq<Task> {
    [CreationJob(c)] + ResumeWaiters(creation.waiters, c)
  }

  lemma SettlingTasksOk(creations: seq<Creation>, promises: map<OwnerKey, nat>, inits: seq<Initialization>,
                        track: Track, c: nat)
    requires CreationsOk(creations, promises, track) && c < |creations| && creations[c].phase.Settling?
    requires !creations[c].claimed && !creations[c].disposed
    ensures var tasks := SettlingTasks(creations[c], c);
            var creations' := creations[c := creations[c].(phase := Settled, waiters := [])];
            && (forall k | 0 <= k < |tasks| :: !tasks[k].ResumeInit? && TaskOk(tasks[k], creations', inits, track))
            && (forall j, k | 0 <= j < k < |tasks| :: OrderOk(tasks[j], tasks[k], creations'))
  {
    assert CreationOk(creations[c], c, promises, track);
  }

  lemma SettlingKeeps(s: State, c: nat)
    requires Inv(s) && c < |s.creations| && s.creations[c].phase.Settling? && CreationJob(c) !in s.queue
    ensures Inv(RunCreationJob(s, c))
  {
    hide StatusesOk, ReadyOk, AllShownOk, RegistryOk, LedgerOk, EntriesReady, InitsOk, QueueOk, CreationsOk, PlaceOk;
    var creation := s.creations[c];
    var after := creation.(phase := Settled, waiters := []);
    PhaseResults(s.creations, c, after, s.disposedViews, s.window.registry, s.ledger);
    assert ResultOk(creation, s.disposedViews, s.window.registry, s.ledger);
    SettlingCore(s, c);
    SettlingQueue(s.queue, s.creations, s.initializations, s.track, c);
    SettlingTasksOk(s.creations, s.creationPromises, s.initializations, s.track, c);
    var tasks := SettlingTasks(creation, c);
    assert s.queue + tasks == s.queue + [CreationJob(c)] + ResumeWaiters(creation.waiters, c);
    AppendKeeps(SetCreation(s, c, after), tasks);
  }

  lemma SettlingQueue(queue: seq<Task>, creations: seq<Creation>, inits: seq<Initialization>, track: Track, c: nat)
    requires QueueOk(queue, creations, inits, track) && c < |creations| && creations[c].phase.Settling?
    requires CreationJob(c) !in queue
    ensures QueueOk(queue, creations[c := creations[c].(phase := Settled, waiters := [])], inits, track)
    ensures forall task | task in queue && (task.ResumeWaiter? || task.DisposeCheck?) :: task.creation != c
  {
    assert forall k | 0 <= k < |queue| :: TaskOk(queue[k], creations, inits, track);
  }

  lemma SettlingCore(s: State, c: nat)
    requires Core(s) && c < |s.creations| && s.creations[c].phase.Settling? && CreationJob(c) !in s.queue
    requires !s.creations[c].claimed && !s.creations[c].disposed
    ensures Core(SetCreation(s, c, s.creations[c].(phase := Settled, waiters := [])))
  {
    hide StatusesOk, ReadyOk, AllShownOk, RegistryOk, LedgerOk, EntriesReady, InitsOk, QueueOk;
    SettlingQueue(s.queue, s.creations, s.initializations, s.track, c);
  }

  lemma SettledKeeps(s: State, c: nat)
    requires Inv(s) && c < |s.creations| && s.creations[c].phase.Settled? && CreationJob(c) !in s.queue
    ensures Inv(RunCreationJob(s, c))
  {
    var after := s.creations[c].(phase := Adopting);
    PhaseResults(s.creations, c, after, s.disposedViews, s.window.registry, s.ledger);
    assert ResultOk(s.creations[c], s.disposedViews, s.window.registry, s.ledger);
    SettledCore(s, c);
    AppendKeeps(SetCreation(s, c, after).(creationPromises := s.creationPromises - {after.key}), [CreationJob(c)]);
  }

  lemma SettledCore(s: State, c: nat)
    requires Core(s) && c < |s.creations| && s.creations[c].phase.Settled? && CreationJob(c) !in s.queue
    requires !s.creations[c].claimed && !s.creations[c].disposed
    ensures Core(SetCreation(s, c, s.creations[c].(phase := Adopting))
                   .(creationPromises := s.creationPromises - {s.creations[c].key}))
  {
    hide StatusesOk, ReadyOk, AllShownOk, RegistryOk, LedgerOk, EntriesReady, InitsOk, VisibleOk,
      CreationsOk, QueueOk, ResolvedBySharers;
    SettledRecords(s.creations, s.creationPromises, s.track, c);
    SettledQueue(s.queue, s.creations, s.initializations, s.track, c);
  }

  lemma SettledRecords(creations: seq<Creation>, promises: map<OwnerKey, nat>, track: Track, c: nat)
    requires CreationsOk(creations, promises, track) && ResolvedBySharers(creations, track)
    requires c < |creations| && creations[c].phase.Settled? && !creations[c].claimed && !creations[c].disposed
    ensures var after := creations[c := creations[c].(phase := Adopting)];
            CreationsOk(after, promises - {creations[c].key}, track) && ResolvedBySharers(after, track)
  {
  }

  lemma SettledQueue(queue: seq<Task>, creations: seq<Creation>, inits: seq<Initialization>, track: Track, c: nat)
    requires QueueOk(queue, creations, inits, track)
    requires c < |creations| && creations[c].phase.Settled? && CreationJob(c) !in queue
    ensures QueueOk(queue, creations[c := creations[c].(phase := Adopting)], inits, track)
  {
  }

  /** The creator runs again: it gives up its place, and a desired creator finds the view unclaimed. */
  lemma CreatorWakes(s: State, c: nat)
    requires Inv(s) && c < |s.creations| && s.creations[c].phase.Resuming? && CreationJob(c) !in s.queue
    ensures var r := s.creations[c].creator;
            var s' := Wake(SetPhase(s, c, Checking), r.token);
            && Inv(s') && IsAwake(s', r)
            && (IsDesired(s, r.token) ==>
                  && s'.track.place == Nowhere && !s'.track.taken && r.tab !in s.window.registry
                  && !s.creations[c].claimed && !s.creations[c].disposed)
  {
    var r := s.creations[c].creator;
    var t := SetPhase(s, c, Checking);
    PhaseResults(s.creations, c, t.creations[c], s.disposedViews, s.window.registry, s.ledger);
    MoveOnKeeps(s, c, t.creations[c]);
    assert CreationOk(s.creations[c], c, s.creationPromises, s.track);
    if r.token.serial == s.track.lastToken {
      CreatorIsAwake(s, c);
      ForgetPlace(t.creations, t.creationPromises, t.initializations, t.initializationEntries, t.queue, t.track);
    }
    hide StatusesOk, ReadyOk, AllShownOk, RegistryOk, LedgerOk, EntriesReady, InitsOk, CreationsOk, QueueOk, ResultsOk;
  }

  lemma CreatorIsAwake(s: State, c: nat)
    requires Core(s) && c < |s.creations| && s.creations[c].phase.Resuming?
    requires s.creations[c].creator.token.serial == s.track.lastToken
    ensures LatestIsAwake(SetPhase(s, c, Checking).creations, s.initializations, s.queue, s.track.lastToken)
  {
    hide StatusesOk, ReadyOk, AllShownOk, RegistryOk, LedgerOk, EntriesReady, PlaceOk;
    assert CreationOk(s.creations[c], c, s.creationPromises, s.track);
    assert forall k | 0 <= k < |s.queue| :: TaskOk(s.queue[k], s.creations, s.initializations, s.track);
  }

  lemma RejectedKeeps(s: State, c: nat)
    requires Inv(s) && c < |s.creations| && s.creations[c].phase.Resuming? && CreationJob(c) !in s.queue
    requires !s.creations[c].result.Fulfilled?
    ensures Inv(RunCreationJob(s, c))
  {
    hide Core, ResultsOk;
    CreatorWakes(s, c);
    var r := s.creations[c].creator;
    var s', after := Wake(SetPhase(s, c, Checking), r.token), s.creations[c].(phase := Finished);
    MoveOnKeeps(s', c, after);
    PhaseResults(s'.creations, c, after, s'.disposedViews, s'.window.registry, s'.ledger);
    EmitErrorKeeps(SetCreation(s', c, after), r);
    assert s'.creations[c := after] == s.creations[c := after];
  }

  lemma ClaimingKeeps(s: State, c: nat)
    requires Inv(s) && c < |s.creations| && s.creations[c].phase.Resuming? && CreationJob(c) !in s.queue
    requires s.creations[c].result.Fulfilled? && IsDesired(s, s.creations[c].creator.token)
    ensures Inv(RunCreationJob(s, c))
  {
    hide Core, ResultsOk;
    CreatorWakes(s, c);
    var creation := s.creations[c];
    var r := creation.creator;
    var s', after := Wake(SetPhase(s, c, Checking), r.token), creation.(claimed := true, phase := Finished);
    FulfilledTab(s, c);
    DesiredIsLatest(s, r);
    ClaimKeeps(s', c, after);
    assert s'.creations[c := after] == s.creations[c := after];
    PrepareKeeps(Adopt(SetCreation(s', c, after), creation.result.view), r, creation.result.view);
    hide Prepare, Adopt;
  }

  lemma ResumingKeeps(s: State, c: nat)
    requires Inv(s) && c < |s.creations| && s.creations[c].phase.Resuming? && CreationJob(c) !in s.queue
    ensures Inv(RunCreationJob(s, c))
  {
    hide Core, ResultsOk;
    var r := s.creations[c].creator;
    if !s.creations[c].result.Fulfilled? {
      RejectedKeeps(s, c);
      hide RunCreationJob;
    } else if IsDesired(s, r.token) {
      ClaimingKeeps(s, c);
      hide RunCreationJob;
    } else {
      CreatorWakes(s, c);
      AppendKeeps(Wake(SetPhase(s, c, Checking), r.token), [CreationJob(c)]);
    }
  }

  lemma CheckingKeeps(s: State, c: nat)
    requires Inv(s) && c < |s.creations| && s.creations[c].phase.Checking? && CreationJob(c) !in s.queue
    requires forall k | 0 <= k < |s.queue| :: s.queue[k].ResumeWaiter? ==> s.queue[k].creation != c
    ensures Inv(RunCreationJob(s, c))
  {
    hide Core, ResultsOk;
    GiveUpKeeps(s, c);
    var t := DisposeUnclaimed(s, c);
    var after := t.creations[c].(phase := Finished);
    MoveOnKeeps(t, c, after);
    PhaseResults(t.creations, c, after, t.disposedViews, t.window.registry, t.ledger);
  }

  lemma RelayingKeeps(s: State, c: nat, phase: CreationPhase)
    requires Inv(s) && c < |s.creations| && CreationJob(c) !in s.queue
    requires (s.creations[c].phase.Adopting? && phase.Delivering?)
             || (s.creations[c].phase.Delivering? && phase.Resuming?)
    ensures Inv(SetCreation(s, c, s.creations[c].(phase := phase)).(queue := s.queue + [CreationJob(c)]))
  {
    var after := s.creations[c].(phase := phase);
    NextJobKeeps(s, c, after);
    PhaseResults(s.creations, c, after, s.disposedViews, s.window.registry, s.ledger);
  }

  lemma CreationJobKeeps(s: State)
    requires Inv(s) && s.queue != [] && s.queue[0].CreationJob?
    ensures Inv(RunMicrotask(s))
  {
    var c := s.queue[0].creation;
    assert TaskOk(s.queue[0], s.creations, s.initializations, s.track);
    assert forall k | 1 <= k < |s.queue| :: OrderOk(s.queue[0], s.queue[k], s.creations);
    PopKeeps(s);
    if !s.creations[c].phase.Settled? {
      NoSharerBehind(s, c);
    }
    hide Core, ResultsOk;
    var s1 := s.(queue := s.queue[1..]);
    match s.creations[c].phase {
      case Settling => SettlingKeeps(s1, c);
      case Settled => SettledKeeps(s1, c);
      case Adopting => RelayingKeeps(s1, c, Delivering);
      case Delivering => RelayingKeeps(s1, c, Resuming);
      case Resuming => ResumingKeeps(s1, c);
      case Checking => CheckingKeeps(s1, c);
      case _ =>
    }
  }

  // ---- Jobs of an initialisation ----

  /** An initialisation moves to its next phase; the entry map may lose it. */
  lemma InitMovesQueue(queue: seq<Task>, creations: seq<Creation>, inits: seq<Initialization>, track: Track,
                       i: nat, after: Initialization)
    requires QueueOk(queue, creations, inits, track) && i < |inits|
    requires InitJob(i) !in queue && !inits[i].phase.Over?
    requires after == inits[i].(phase := after.phase, outcome := after.outcome, waiters := after.waiters)
    ensures QueueOk(queue, creations, inits[i := after], track)
  {
  }

  lemma InitMovesInits(inits: seq<Initialization>, entries: map<TabId, nat>, entries': map<TabId, nat>, track: Track,
                       i: nat, after: Initialization)
    requires InitsOk(inits, entries, track) && i < |inits| && !inits[i].phase.Over?
    requires after == inits[i].(phase := after.phase, outcome := after.outcome)
    requires !after.phase.Over? && (after.phase.Running? <==> after.outcome.Undecided?)
    requires forall tab | tab in entries' :: tab in entries && entries'[tab] == entries[tab]
    requires !IsUnhandled(after.phase) ==> forall tab | tab in entries' :: entries'[tab] != i
    ensures InitsOk(inits[i := after], entries', track)
  {
  }

  function NextPhase(phase: InitPhase): InitPhase {
    match phase
    case Running => Reacting
    case Reacting => Handled
    case Handled => Relaying
    case _ => Releasing
  }

  function EntriesAfter(s: State, i: nat, after: Initialization): map<TabId, nat>
    requires i < |s.initializations|
  {
    if after.phase.Relaying? && IsCurrentEntry(s, i) then s.initializationEntries - {after.tab}
    else s.initializationEntries
  }

  /** The next phase of an initialisation; once its handler has run, a current success is ready. */
  predicate Advances(s: State, i: nat, after: Initialization)
    requires i < |s.initializations|
  {
    var before := s.initializations[i];
    && !before.phase.Over? && !before.phase.Releasing?
    && after == before.(phase := NextPhase(before.phase), outcome := after.outcome)
    && !after.outcome.Undecided?
    && (!before.phase.Running? ==> after.outcome == before.outcome)
    && (after.phase.Handled? && after.outcome.Succeeded? && IsCurrentEntry(s, i) ==> after.view !in s.unreadyViews)
  }

  lemma AdvancePlace(s: State, i: nat, after: Initialization)
    requires PlaceOk(s) && i < |s.initializations| && Advances(s, i, after)
    requires s.initializations[i].phase.Running? ==> s.initializations[i].outcome.Undecided?
    ensures PlaceOk(SetInit(s, i, after).(initializationEntries := EntriesAfter(s, i, after)))
  {
  }

  lemma AdvanceEntries(s: State, i: nat, after: Initialization)
    requires EntriesReady(s.initializations, s.initializationEntries, s.unreadyViews)
    requires i < |s.initializations| && Advances(s, i, after)
    requires forall tab | tab in s.initializationEntries && s.initializationEntries[tab] == i ::
               tab == s.initializations[i].tab
    ensures EntriesReady(SetInit(s, i, after).initializations, EntriesAfter(s, i, after), s.unreadyViews)
  {
  }

  lemma InitAdvances(s: State, i: nat, after: Initialization)
    requires Inv(s) && i < |s.initializations| && InitJob(i) !in s.queue && Advances(s, i, after)
    ensures Inv(SetInit(s, i, after).(initializationEntries := EntriesAfter(s, i, after)))
  {
    AdvancePlace(s, i, after);
    AdvanceEntries(s, i, after);
    hide StatusesOk, ReadyOk, AllShownOk, CreationsOk, ResolvedBySharers, QueueOk, RegistryOk, LedgerOk, ResultsOk,
      PlaceOk, EntriesReady;
    InitMovesQueue(s.queue, s.creations, s.initializations, s.track, i, after);
    InitMovesInits(s.initializations, s.initializationEntries, EntriesAfter(s, i, after), s.track, i, after);
  }

  lemma InitNextJob(s: State, i: nat, after: Initialization)
    requires Inv(s) && i < |s.initializations| && InitJob(i) !in s.queue && Advances(s, i, after)
    ensures Inv(SetInit(s, i, after).(initializationEntries := EntriesAfter(s, i, after),
                                      queue := s.queue + [InitJob(i)]))
  {
    InitAdvances(s, i, after);
    hide Core, ResultsOk;
    AppendKeeps(SetInit(s, i, after).(initializationEntries := EntriesAfter(s, i, after)), [InitJob(i)]);
  }

  /** The handler of a current, successful initialisation makes its view ready. */
  lemma MakeReadyKeeps(s: State, view: View)
    requires Inv(s)
    ensures Inv(s.(unreadyViews := s.unreadyViews - {view},
                   ledger := s.ledger.(initialised := s.ledger.initialised + {view})))
  {
    hide StatusesOk, ReadyOk, AllShownOk, CreationsOk, ResolvedBySharers, QueueOk;
  }

  lemma ReleasingQueue(queue: seq<Task>, creations: seq<Creation>, inits: seq<Initialization>, entries: map<TabId, nat>,
                       track: Track, i: nat)
    requires QueueOk(queue, creations, inits, track) && InitsOk(inits, entries, track) && i < |inits|
    requires inits[i].phase.Releasing? && InitJob(i) !in queue
    ensures var after := inits[i].(phase := Over, waiters := []);
            QueueOk(queue + ResumeInits(inits[i].waiters, i), creations, inits[i := after], track)
  {
    var after := inits[i].(phase := Over, waiters := []);
    var tasks := ResumeInits(inits[i].waiters, i);
    InitMovesQueue(queue, creations, inits, track, i, after);
    assert InitOk(inits[i], i, track);
    assert forall k | 0 <= k < |queue| :: TaskOk(queue[k], creations, inits, track);
  }

  lemma ReleasingAwaited(inits: seq<Initialization>, queue: seq<Task>, i: nat, after: Initialization)
    requires i < |inits| && after.waiters == []
    ensures forall k, token: nat | 0 <= k < |inits| ::
              HoldsLatest(inits[k], queue, k, token) ==>
                HoldsLatest(inits[i := after][k], queue + ResumeInits(inits[i].waiters, i), k, token)
  {
    var queue' := queue + ResumeInits(inits[i].waiters, i);
    assert forall k | 0 <= k < |queue| :: queue'[k] == queue[k];
    assert forall k | 0 <= k < |inits[i].waiters| :: queue'[|queue| + k] == ResumeInit(inits[i].waiters[k], i);
  }

  lemma ReleasingPlace(s: State, i: nat)
    requires PlaceOk(s) && i < |s.initializations| && s.initializations[i].phase.Releasing?
    ensures PlaceOk(RunInitJob(s, i))
  {
    ReleasingAwaited(s.initializations, s.queue, i, s.initializations[i].(phase := Over, waiters := []));
    hide ResumeInits, HoldsLatest;
  }

  lemma ReleasingKeeps(s: State, i: nat)
    requires Inv(s) && i < |s.initializations| && s.initializations[i].phase.Releasing? && InitJob(i) !in s.queue
    ensures Inv(RunInitJob(s, i))
  {
    hide StatusesOk, ReadyOk, AllShownOk, CreationsOk, ResolvedBySharers, QueueOk, RegistryOk, LedgerOk, ResultsOk,
      VisibleOk, DesiredOk, Strays, PlaceOk, ResumeInits;
    ReleasingPlace(s, i);
    ReleasingQueue(s.queue, s.creations, s.initializations, s.initializationEntries, s.track, i);
  }

  lemma HeadInitJob(s: State)
    requires Inv(s) && s.queue != [] && s.queue[0].InitJob?
    ensures var i := s.queue[0].init;
            && i < |s.initializations| && InitJob(i) !in s.queue[1..]
            && !s.initializations[i].phase.Running? && !s.initializations[i].phase.Over?
            && !s.initializations[i].outcome.Undecided?
  {
    hide StatusesOk, ReadyOk, AllShownOk, CreationsOk, ResolvedBySharers, RegistryOk, LedgerOk, ResultsOk, PlaceOk,
      EntriesReady;
    assert TaskOk(s.queue[0], s.creations, s.initializations, s.track);
    assert forall k | 1 <= k < |s.queue| :: OrderOk(s.queue[0], s.queue[k], s.creations);
  }

  lemma InitJobKeeps(s: State)
    requires Inv(s) && s.queue != [] && s.queue[0].InitJob?
    ensures Inv(RunMicrotask(s))
  {
    hide Core, ResultsOk;
    var i := s.queue[0].init;
    HeadInitJob(s);
    PopKeeps(s);
    var s1, init := s.(queue := s.queue[1..]), s.initializations[i];
    if init.phase.Releasing? {
      ReleasingKeeps(s1, i);
    } else {
      var after := init.(phase := NextPhase(init.phase));
      if init.phase.Reacting? && init.outcome.Succeeded? && IsCurrentEntry(s1, i) {
        MakeReadyKeeps(s1, init.view);
        InitNextJob(s1.(unreadyViews := s1.unreadyViews - {init.view},
                        ledger := s1.ledger.(initialised := s1.ledger.initialised + {init.view})), i, after);
      } else {
        InitNextJob(s1, i, after);
      }
    }
  }
}
