/** The properties of the terminal surface controller, for every run. */
module SurfaceTheorems {
  import opened Wrappers
  import opened SurfaceModel
  import opened SurfaceInvariant
  import opened SurfaceSteps
  import opened SurfaceTasks
  import opened SurfaceRuns
  import opened SurfaceJobs

  lemma EventKeeps(s: State, e: Event)
    requires Good(s)
    ensures Good(Apply(s, e))
  {
    hide Core, ResultsOk, JobsQueued, InitJobsQueued, InitRequestsOk;
    match e {
      case Requested(surface, created) =>
        RequestKeeps(s, surface, created);
        RequestJobs(s, surface, created);
        RequestInitJobs(s, surface, created);
        RequestInitRequests(s, surface, created);
      case Microtask =>
        MicrotaskKeeps(s);
        MicrotaskJobs(s);
        MicrotaskInitJobs(s);
        MicrotaskInitRequests(s);
      case CreationSettled(c, ok) =>
        SettleCreationKeeps(s, c, ok);
        SettledJobs(s, e);
        SettledInitJobs(s, e);
        OthersInitRequests(s, e);
      case InitSettled(i, outcome) =>
        SettleInitKeeps(s, i, outcome);
        SettledJobs(s, e);
        SettledInitJobs(s, e);
        OthersInitRequests(s, e);
      case IdentityChanged(identity) => ChangeIdentityKeeps(s, identity);
      case KindsChanged(views) => KindsKeep(s, views);
      case WasReset =>
        ResetKeeps(s);
        OthersInitRequests(s, e);
      case WasDestroyed =>
        DestroyKeeps(s);
        OthersInitRequests(s, e);
    }
  }

  lemma MicrotaskKeeps(s: State)
    requires Good(s)
    ensures Inv(RunMicrotask(s))
  {
    hide Core, ResultsOk, JobsQueued, InitJobsQueued, InitRequestsOk;
    if s.queue != [] {
      match s.queue[0] {
        case CreationJob(_) => CreationJobKeeps(s);
        case ResumeWaiter(_, _) => ResumeWaiterKeeps(s);
        case DisposeCheck(_, _) => DisposeCheckKeeps(s);
        case InitJob(_) => InitJobKeeps(s);
        case ResumeInit(_, _) => ResumeInitKeeps(s);
      }
    }
  }

  lemma {:induction false} RunKeeps(s: State, events: seq<Event>)
    requires Good(s)
    ensures Good(Run(s, events))
    decreases |events|
  {
    if events != [] {
      EventKeeps(s, events[0]);
      RunKeeps(Apply(s, events[0]), events[1..]);
    }
  }

  // ---- Creations ----

  /**
   However many requests shared a creation: the created view is claimed and then registered exactly
   once, or given up and then disposed of exactly once and never registered; when no microtask is
   left, one of the two has happened.
   */
  lemma CreationsResolved(initial: State, events: seq<Event>, c: nat)
    requires Initial(initial)
    requires c < |Run(initial, events).creations| && Run(initial, events).creations[c].result.Fulfilled?
    ensures var s := Run(initial, events);
            var creation := s.creations[c];
            var view := creation.result.view;
            && !(creation.claimed && creation.disposed)
            && s.ledger.registrations[view] == (if creation.claimed then 1 else 0)
            && s.ledger.disposals[view] <= 1
            && (creation.disposed ==> s.ledger.disposals[view] == 1)
            && (s.queue == [] ==> creation.claimed || creation.disposed)
  {
    InitialInv(initial);
    RunKeeps(initial, events);
    var s := Run(initial, events);
    assert ResultOk(s.creations[c], s.disposedViews, s.window.registry, s.ledger);
    assert CreationOk(s.creations[c], c, s.creationPromises, s.track);
    if s.queue == [] {
      assert s.creations[c].phase.Finished?;
    }
  }

  /** A registered view stays the view of its tab until it is disposed of: nothing is registered over it. */
  lemma NeverOverwritten(initial: State, events: seq<Event>, view: View)
    requires Initial(initial)
    requires view in Run(initial, events).ledger.registrations && view !in Run(initial, events).disposedViews
    ensures Maps(Run(initial, events).window.registry, view)
    ensures Run(initial, events).ledger.registrations[view] == 1
  {
    InitialInv(initial);
    RunKeeps(initial, events);
  }

  // ---- What is shown and announced ----

  /**
   Whenever a view was put on screen, it was for the latest accepted request under the current
   identity, of terminal kind and ready. It was the registered view of its tab, made ready by an
   initialisation that was still current, and never disposed of, exactly unless another attempt at
   initialising it had taken it from the request; then it was neither registered nor alive.
   */
  lemma ShownForDesired(initial: State, events: seq<Event>, k: nat)
    requires Initial(initial) && k < |Run(initial, events).ledger.shown|
    ensures var s := Run(initial, events);
            var shown := s.ledger.shown[k];
            && shown.token.serial == shown.lastToken
            && shown.token.identity == shown.window.identity
            && shown.token.terminalTabId == Some(shown.view.terminalTabId)
            && shown.view in shown.window.terminalViews
            && shown.view !in shown.unreadyViews
            && (!shown.taken <==> Maps(shown.window.registry, shown.view))
            && (!shown.taken <==> shown.view !in shown.disposedViews)
            && (!shown.taken ==> shown.view in shown.initialised || shown.view.serial < s.ledger.warmLimit)
  {
    InitialInv(initial);
    RunKeeps(initial, events);
    assert ShownOk(Run(initial, events).ledger.shown[k]);
  }

  /** "ready" is announced only for a view that was put on screen for the same request. */
  lemma ReadyWasShown(initial: State, events: seq<Event>, k: nat)
    requires Initial(initial) && k < |Run(initial, events).window.statuses|
    requires Run(initial, events).window.statuses[k].state.Ready?
    ensures var s := Run(initial, events);
            exists j | 0 <= j < |s.ledger.shown| :: Announces(s.window.statuses[k], s.ledger.shown[j])
  {
    InitialInv(initial);
    RunKeeps(initial, events);
  }

  /** Between resets, revisions never go down and each gets at most one of ready, error and idle. */
  lemma StatusesInOrder(initial: State, events: seq<Event>, j: nat, k: nat)
    requires Initial(initial) && j < k < |Run(initial, events).window.statuses|
    ensures var statuses := Run(initial, events).window.statuses;
            && statuses[j].revision <= statuses[k].revision
            && (statuses[j].revision == statuses[k].revision ==>
                  statuses[j].state.Loading? || statuses[k].state.Loading?)
  {
    InitialInv(initial);
    RunKeeps(initial, events);
  }

  /**
   On screen are all views that were shown after they had been taken, and at most one other view,
   which is registered.
   */
  lemma OneViewVisible(initial: State, events: seq<Event>)
    requires Initial(initial)
    ensures var s := Run(initial, events);
            && Strays(s.ledger.shown) <= s.window.visible
            && |s.window.visible - Strays(s.ledger.shown)| <= 1
            && (forall v | v in s.window.visible && v !in Strays(s.ledger.shown) :: Maps(s.window.registry, v))
  {
    InitialInv(initial);
    RunKeeps(initial, events);
    hide Good, Run;
    OneRegisteredVisible(Run(initial, events));
  }

  lemma OneRegisteredVisible(s: State)
    requires Good(s)
    ensures Strays(s.ledger.shown) <= s.window.visible && |s.window.visible - Strays(s.ledger.shown)| <= 1
    ensures forall v | v in s.window.visible && v !in Strays(s.ledger.shown) :: Maps(s.window.registry, v)
  {
    hide StatusesOk, ReadyOk, AllShownOk, RegistryOk, LedgerOk, ResolvedBySharers, EntriesReady, ResultsOk, PlaceOk,
      JobsQueued, InitJobsQueued, InitRequestsOk, CreationsOk, QueueOk, InitsOk, Strays;
    var rest := s.window.visible - Strays(s.ledger.shown);
    if v :| v in rest {
      assert rest == {v};
    }
  }

  /**
   After a non-terminal surface, a reset or a destruction nothing is on screen but what was shown
   after it had been taken; so nothing at all exactly if that never happened.
   */
  lemma NothingVisible(initial: State, events: seq<Event>, e: Event)
    requires Initial(initial)
    requires e.WasReset? || e.WasDestroyed?
             || (e.Requested? && e.surface.terminalTabId.None? && Accepts(Run(initial, events), e.surface))
    ensures var s := Run(initial, events);
            && Apply(s, e).window.visible == Strays(s.ledger.shown)
            && (Apply(s, e).window.visible == {} <==> forall k | 0 <= k < |s.ledger.shown| :: !s.ledger.shown[k].taken)
  {
    InitialInv(initial);
    RunKeeps(initial, events);
    hide Good, Run, Apply, Accepts, Strays;
    NothingVisibleAfter(Run(initial, events), e);
  }

  lemma NothingVisibleAfter(s: State, e: Event)
    requires Good(s)
    requires e.WasReset? || e.WasDestroyed?
             || (e.Requested? && e.surface.terminalTabId.None? && Accepts(s, e.surface))
    ensures Apply(s, e).window.visible == Strays(s.ledger.shown)
    ensures Apply(s, e).window.visible == {} <==> forall k | 0 <= k < |s.ledger.shown| :: !s.ledger.shown[k].taken
  {
    hide Good, Accepts, Strays;
    NoStrays(s.ledger.shown);
    hide Reset, Destroy, RequestSurface;
    match e {
      case WasReset => WithdrawnHides(s);
      case WasDestroyed => WithdrawnHides(s);
      case Requested(surface, created) => OtherSurfaceHides(s, surface, created);
    }
  }

  lemma NoStrays(shown: seq<Shown>)
    ensures Strays(shown) == {} <==> forall k | 0 <= k < |shown| :: !shown[k].taken
  {
    forall k | 0 <= k < |shown| && shown[k].taken
      ensures shown[k].view in Strays(shown)
    {
    }
  }

  lemma WithdrawnHides(s: State)
    requires Good(s)
    ensures Reset(s).window.visible == Strays(s.ledger.shown) && Destroy(s).window.visible == Strays(s.ledger.shown)
  {
    hide Core, ResultsOk;
    ResetKeeps(s);
    DestroyKeeps(s);
  }

  lemma OtherSurfaceHides(s: State, surface: Surface, created: CreateOutcome)
    requires Good(s) && surface.terminalTabId.None? && Accepts(s, surface)
    ensures RequestSurface(s, surface, created).window.visible == Strays(s.ledger.shown)
  {
    hide Core, ResultsOk;
    AcceptKeeps(s, surface);
    HideAllKeeps(Accepted(s, surface));
  }

  /** Nor after the desired request reaches the end with a surface of no size. */
  lemma NoSizeHidesAll(s: State, r: Request, view: View)
    requires Good(s) && IsDesired(s, r.token)
    requires view in s.window.terminalViews && (r.width <= 0 || r.height <= 0)
    ensures Present(s, r, view).window.visible == Strays(s.ledger.shown)
    ensures Present(s, r, view).window.statuses == s.window.statuses
  {
    HideAllKeeps(s);
  }

  // ---- Stale requests ----

  /** The next microtask continues no call of `request` that is still desired. */
  predicate NextIsStale(s: State) {
    && s.queue != []
    && (s.queue[0].ResumeWaiter? || s.queue[0].ResumeInit? ==> !IsDesired(s, s.queue[0].request.token))
  }

  lemma UnclaimedIsNot(s: State, c: nat, view: View)
    requires Inv(s) && c < |s.creations| && Maps(s.window.registry, view)
    requires !IsMapped(s.creations[c].phase)
    ensures view !in s.disposedViews
    ensures view !in DisposeUnclaimed(s, c).disposedViews
  {
    hide StatusesOk, ReadyOk, AllShownOk, LedgerOk, CreationsOk, ResolvedBySharers, QueueOk, InitsOk,
      EntriesReady, PlaceOk;
    assert ResultOk(s.creations[c], s.disposedViews, s.window.registry, s.ledger);
  }

  lemma CreationJobSpares(s: State, c: nat, view: View)
    requires Inv(s) && c < |s.creations| && Maps(s.window.registry, view)
    requires s.desired.Some? && s.desired.value.terminalTabId == Some(view.terminalTabId)
    requires CreationJob(c) !in s.queue && !s.creations[c].phase.Open? && !s.creations[c].phase.Finished?
    ensures view !in RunCreationJob(s, c).disposedViews
  {
    hide Core, ResultsOk;
    LiveIsNotDisposed(s, view);
    match s.creations[c].phase {
      case Checking => UnclaimedIsNot(s, c, view);
      case Resuming => CreatorIsStale(s, c, view);
      case _ =>
    }
    hide DisposeUnclaimed, Prepare;
  }

  lemma LiveIsNotDisposed(s: State, view: View)
    requires Inv(s) && Maps(s.window.registry, view)
    ensures view !in s.disposedViews
  {
    hide StatusesOk, ReadyOk, AllShownOk, CreationsOk, QueueOk, InitsOk, EntriesReady, PlaceOk, ResultsOk;
  }

  /** A creator that is about to run again is not the desired request of a tab that has a view. */
  lemma CreatorIsStale(s: State, c: nat, view: View)
    requires Inv(s) && c < |s.creations| && Maps(s.window.registry, view)
    requires s.desired.Some? && s.desired.value.terminalTabId == Some(view.terminalTabId)
    requires CreationJob(c) !in s.queue && s.creations[c].phase.Resuming?
    ensures !IsDesired(s, s.creations[c].creator.token)
  {
    CreatorWakes(s, c);
    CreatorTab(s, c);
    hide Core, ResultsOk, Wake, SetPhase;
  }

  lemma CreatorTab(s: State, c: nat)
    requires Inv(s) && c < |s.creations|
    ensures s.creations[c].creator.token.terminalTabId == Some(s.creations[c].creator.tab)
  {
    hide StatusesOk, ReadyOk, AllShownOk, RegistryOk, LedgerOk, ResolvedBySharers, QueueOk, InitsOk,
      EntriesReady, PlaceOk, ResultsOk;
    assert CreationOk(s.creations[c], c, s.creationPromises, s.track);
  }

  /**
   A stale continuation disposes of the view the desired request owns in exactly one case: an
   initialisation of that very view, started under the desired request's own key, failed because
   the renderer is of the wrong kind.
   */
  lemma StaleTakesViewExactlyWhen(s: State, view: View)
    requires Good(s) && NextIsStale(s)
    requires IsLive(s) && s.desired.value.terminalTabId == Some(view.terminalTabId) && Maps(s.window.registry, view)
    ensures view in RunMicrotask(s).disposedViews <==>
              && s.queue[0].ResumeInit? && s.queue[0].init < |s.initializations|
              && var init := s.initializations[s.queue[0].init];
                 SharesOwner(init, CreationKey(s.desired.value), view) && init.outcome == Failed(true)
  {
    HeadTaskOk(s);
    LiveIsNotDisposed(s, view);
    PopKeepsUnlessResumed(s);
    hide Core, ResultsOk, JobsQueued, InitJobsQueued, InitRequestsOk, RunCreationJob, ResumeAfterInit, RunInitJob,
      ResumeSharer, DisposeUnclaimed;
    var s1 := s.(queue := s.queue[1..]);
    match s.queue[0] {
      case CreationJob(c) =>
        HeadCreationJob(s);
        CreationJobSpares(s1, c, view);
      case DisposeCheck(_, c) => UnclaimedIsNot(s1, c, view);
      case ResumeInit(r, i) => StaleInit(Wake(s1, r.token), r, i, view);
      case ResumeWaiter(r, c) => StaleSharerSpares(Wake(s1, r.token), r, c);
      case InitJob(i) => InitJobSpares(s1, i);
    }
  }

  lemma HeadTaskOk(s: State)
    requires Inv(s) && s.queue != []
    ensures TaskOk(s.queue[0], s.creations, s.initializations, s.track)
  {
    hide StatusesOk, ReadyOk, AllShownOk, CreationsOk, RegistryOk, LedgerOk, ResultsOk, PlaceOk, EntriesReady, InitsOk;
  }

  lemma StaleSharerSpares(s: State, r: Request, c: nat)
    requires c < |s.creations| && !IsDesired(s, r.token)
    ensures ResumeSharer(s, r, c).disposedViews == s.disposedViews
  {
  }

  lemma InitJobSpares(s: State, i: nat)
    requires i < |s.initializations|
    ensures RunInitJob(s, i).disposedViews == s.disposedViews
  {
  }

  lemma PopKeepsUnlessResumed(s: State)
    requires Inv(s) && s.queue != []
    ensures !s.queue[0].ResumeInit? ==> Inv(s.(queue := s.queue[1..]))
  {
    hide Core, ResultsOk;
    if !s.queue[0].ResumeInit? {
      PopKeeps(s);
    }
  }

  lemma HeadCreationJob(s: State)
    requires Inv(s) && s.queue != [] && s.queue[0].CreationJob?
    ensures var c := s.queue[0].creation;
            && c < |s.creations| && CreationJob(c) !in s.queue[1..]
            && !s.creations[c].phase.Open? && !s.creations[c].phase.Finished?
  {
    hide StatusesOk, ReadyOk, AllShownOk, CreationsOk, ResolvedBySharers, RegistryOk, LedgerOk, ResultsOk,
      PlaceOk, EntriesReady, InitsOk;
    assert TaskOk(s.queue[0], s.creations, s.initializations, s.track);
    assert forall k | 1 <= k < |s.queue| :: OrderOk(s.queue[0], s.queue[k], s.creations);
  }

  lemma StaleInit(s: State, r: Request, i: nat, view: View)
    requires i < |s.initializations| && !IsDesired(s, r.token) && view !in s.disposedViews
    requires IsLive(s) && s.desired.value.terminalTabId == Some(view.terminalTabId) && Maps(s.window.registry, view)
    ensures view in ResumeAfterInit(s, r, i).disposedViews <==>
              SharesOwner(s.initializations[i], CreationKey(s.desired.value), view)
              && s.initializations[i].outcome == Failed(true)
  {
    assert IsViewOwned(s, view);
  }
}
