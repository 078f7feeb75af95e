/**
 What the terminal surface controller does for the request it works for: what an arriving surface sets
 going, what the request gets when its creation or its initialisation has settled, and what becomes of
 a view that nobody works for any more.
 */
module SurfaceOutcomes {
  import opened Wrappers
  import opened SurfaceModel
  import opened SurfaceInvariant
  import opened SurfaceSteps
  import opened SurfaceTasks
  import opened SurfaceJobs
  import opened SurfaceTheorems
  import opened SurfaceRivals

  function StatusOf(state: StatusState, token: Token): Status {
    Status(state, token.identity, token.revision, token.terminalTabId)
  }

  /** The request has ended with an error and nothing was shown. */
  predicate EndsInError(s: State, t: State, r: Request) {
    && t.window.statuses == s.window.statuses + [StatusOf(Error, r.token)] && t.ledger.shown == s.ledger.shown
  }

  /** The view alone is on screen, next to what the registry has lost sight of, and that is announced. */
  predicate IsShownReady(s: State, t: State, r: Request, view: View) {
    && t.window.statuses == s.window.statuses + [StatusOf(Ready, r.token)]
    && t.window.visible == (s.window.visible - s.window.registry.Values) + {view}
    && |t.ledger.shown| == |s.ledger.shown| + 1 && s.ledger.shown <= t.ledger.shown
    && t.ledger.shown[|s.ledger.shown|].view == view && t.ledger.shown[|s.ledger.shown|].token == r.token
  }

  /** A surface without size: everything is hidden and nothing announced. */
  predicate IsHidden(s: State, t: State) {
    && t.window.statuses == s.window.statuses && t.ledger.shown == s.ledger.shown
    && t.window.visible == s.window.visible - s.window.registry.Values
  }

  /** How a request ends that has got a ready view. */
  predicate EndsWith(s: State, t: State, r: Request, view: View) {
    if view !in s.window.terminalViews then EndsInError(s, t, r) && view in t.disposedViews
    else if r.width > 0 && r.height > 0 then IsShownReady(s, t, r, view)
    else IsHidden(s, t)
  }

  lemma PresentEnds(s: State, r: Request, view: View)
    requires IsDesired(s, r.token)
    ensures EndsWith(s, Present(s, r, view), r, view)
    ensures Present(s, r, view).track == s.track
  {
  }

  // ---- After the creation ----

  /** The request awaits an attempt at this view, which is registered. */
  predicate AwaitsView(t: State, r: Request, view: View) {
    && Maps(t.window.registry, view) && t.track.place.AtInit? && t.track.place.init < |t.initializations|
    && var init := t.initializations[t.track.place.init];
       init.view == view && init.tab == r.tab && init.ownerKey == CreationKey(r.token) && r in init.waiters
  }

  /** Of a view that nobody has tried to initialise, the desired request starts an initialisation. */
  lemma AdoptedIsAwaited(s: State, r: Request, view: View)
    requires IsDesired(s, r.token) && r.tab == view.terminalTabId
    requires forall j | 0 <= j < |s.initializations| :: s.initializations[j].view != view
    ensures var t := Prepare(Adopt(s, view), r, view);
            && AwaitsView(t, r, view) && t.creations == s.creations && t.queue == s.queue
            && t.initializations == s.initializations +
                 [Initialization(CreationKey(r.token), r.tab, view, Running, Undecided, [r])]
            && t.window.statuses == s.window.statuses && t.ledger.shown == s.ledger.shown
  {
    hide Present, ReleaseIfUnowned, JoinInitialization;
    assert view in Adopt(s, view).unreadyViews;
  }

  /** What the request whose call goes on finds: its creation, unclaimed, for its own tab. */
  lemma OwnFinds(s: State, c: nat)
    requires Good(s) && IsLive(s) && s.track.place == AtCreation(c)
    requires s.queue != [] && IsOwnContinuation(s, s.queue[0])
    ensures c < |s.creations| && (s.queue[0].CreationJob? || s.queue[0].ResumeWaiter?)
    ensures s.queue[0].creation == c && !s.creations[c].claimed && !s.track.taken
    ensures s.creations[c].result.Fulfilled? || s.creations[c].result.Rejected?
    ensures var r := Resumes(s, s.queue[0]).value;
            r.token.serial == s.track.lastToken && r.token.terminalTabId == Some(r.tab)
            && s.creations[c].creator.tab == r.tab
  {
    OwnContinuation(s);
    hide StatusesOk, ReadyOk, AllShownOk, RegistryOk, LedgerOk, VisibleOk, EntriesReady, ResultsOk, InitsOk,
      JobsQueued, InitJobsQueued, InitRequestsOk, ResolvedBySharers, PlaceOk;
    assert TaskOk(s.queue[0], s.creations, s.initializations, s.track);
    assert CreationOk(s.creations[s.queue[0].creation], s.queue[0].creation, s.creationPromises, s.track);
  }

  /** The microtask that resumes the request once its creation has settled. */
  predicate IsClaimed(s: State, t: State, c: nat) {
    && s.queue != [] && Resumes(s, s.queue[0]).Some?
    && c < |s.creations| && c < |t.creations| && t.creations[c].result == s.creations[c].result
    && var r := Resumes(s, s.queue[0]).value;
       if s.creations[c].result.Fulfilled? then
         && t.creations[c].claimed && AwaitsView(t, r, s.creations[c].result.view)
         && t.window.statuses == s.window.statuses && t.ledger.shown == s.ledger.shown
         && |t.initializations| == |s.initializations| + 1
       else
         EndsInError(s, t, r) && t.track.place == Nowhere
  }

  lemma SharerClaims(s: State, r: Request, c: nat)
    requires c < |s.creations| && s.track.place == Nowhere && IsDesired(s, r.token)
    requires !s.creations[c].claimed
    requires s.creations[c].result.Fulfilled? ==>
               && r.tab == s.creations[c].result.view.terminalTabId
               && forall j | 0 <= j < |s.initializations| :: s.initializations[j].view != s.creations[c].result.view
    ensures var t := ResumeSharer(s, r, c);
            && |t.creations| == |s.creations| && t.creations[c].result == s.creations[c].result
            && (s.creations[c].result.Fulfilled? ==>
                  && t.creations[c].claimed && AwaitsView(t, r, s.creations[c].result.view)
                  && t.window.statuses == s.window.statuses && t.ledger.shown == s.ledger.shown
                  && |t.initializations| == |s.initializations| + 1)
            && (!s.creations[c].result.Fulfilled? ==> EndsInError(s, t, r) && t.track.place == Nowhere)
  {
    var creation := s.creations[c];
    if creation.result.Fulfilled? {
      AdoptedIsAwaited(SetCreation(s, c, creation.(claimed := true)), r, creation.result.view);
    }
    hide Prepare, Adopt;
  }

  lemma CreatorClaims(s: State, c: nat)
    requires c < |s.creations| && s.track.place == Nowhere && IsDesired(s, s.creations[c].creator.token)
    requires s.creations[c].result.Fulfilled? ==>
               && s.creations[c].creator.tab == s.creations[c].result.view.terminalTabId
               && forall j | 0 <= j < |s.initializations| :: s.initializations[j].view != s.creations[c].result.view
    ensures var t, r := ResumeCreator(s, c), s.creations[c].creator;
            && |t.creations| == |s.creations| && t.creations[c].result == s.creations[c].result
            && (s.creations[c].result.Fulfilled? ==>
                  && t.creations[c].claimed && AwaitsView(t, r, s.creations[c].result.view)
                  && t.window.statuses == s.window.statuses && t.ledger.shown == s.ledger.shown
                  && |t.initializations| == |s.initializations| + 1)
            && (!s.creations[c].result.Fulfilled? ==> EndsInError(s, t, r) && t.track.place == Nowhere)
  {
    var creation := s.creations[c];
    if creation.result.Fulfilled? {
      AdoptedIsAwaited(SetCreation(s, c, creation.(claimed := true, phase := Finished)),
                       creation.creator, creation.result.view);
    }
    hide Prepare, Adopt;
  }

  /**
   The request the controller works for gets its view: the microtask that resumes it claims the created
   view, registers it, and leaves the request awaiting an initialisation of that very view. If the
   creation failed, the request ends with an error instead.
   */
  lemma ResumedRequestClaims(s: State, c: nat)
    requires Good(s) && IsLive(s) && s.track.place == AtCreation(c)
    requires s.queue != [] && IsOwnContinuation(s, s.queue[0])
    ensures c < |s.creations| && IsClaimed(s, RunMicrotask(s), c)
  {
    OwnFinds(s, c);
    if s.creations[c].result.Fulfilled? {
      UnclaimedWasNotTried(s, c);
      FulfilledTab(s, c);
    }
    hide Good, RunMicrotask, IsClaimed, IsDesired;
    TaskClaims(s, c);
  }

  lemma TaskClaims(s: State, c: nat)
    requires s.queue != [] && (s.queue[0].CreationJob? || s.queue[0].ResumeWaiter?) && s.queue[0].creation == c
    requires c < |s.creations| && IsOwnContinuation(s, s.queue[0]) && !s.creations[c].claimed
    requires var r := Resumes(s, s.queue[0]).value;
             && r.token.serial == s.track.lastToken
             && (s.creations[c].result.Fulfilled? ==>
                   && r.tab == s.creations[c].result.view.terminalTabId
                   && forall j | 0 <= j < |s.initializations| ::
                        s.initializations[j].view != s.creations[c].result.view)
    ensures IsClaimed(s, RunMicrotask(s), c)
  {
    var s1 := s.(queue := s.queue[1..]);
    hide ResumeCreator, ResumeSharer, AwaitsView;
    if s.queue[0].CreationJob? {
      CreatorClaims(Wake(s1, s.creations[c].creator.token), c);
    } else {
      SharerClaims(Wake(s1, s.queue[0].request.token), s.queue[0].request, c);
    }
  }

  // ---- After the initialisation ----

  /** How the request ends when its attempt has come to an end. */
  predicate EndsAfter(s: State, t: State, r: Request, init: Initialization) {
    match init.outcome
    case Failed(kindMismatch) => EndsInError(s, t, r) && (kindMismatch ==> init.view in t.disposedViews)
    case _ => EndsWith(s, t, r, init.view)
  }

  lemma FailureEnds(s: State, r: Request, i: nat, kindMismatch: bool)
    requires i < |s.initializations| && IsDesired(s, r.token)
    requires kindMismatch ==>
               IsDesiredInitialization(s, s.initializations[i], s.initializations[i].view)
               || !IsViewOwned(s, s.initializations[i].view)
               || s.initializations[i].view in s.disposedViews
    ensures var t := FailInitialization(s, r, i, kindMismatch);
            && EndsInError(s, t, r) && t.track.place == s.track.place
            && (kindMismatch ==> s.initializations[i].view in t.disposedViews)
  {
  }

  lemma SuccessEnds(s: State, r: Request, i: nat)
    requires i < |s.initializations| && IsDesired(s, r.token) && s.initializations[i].outcome.Succeeded?
    ensures EndsWith(s, ResumeAfterInit(s, r, i), r, s.initializations[i].view)
    ensures ResumeAfterInit(s, r, i).track == s.track
  {
    PresentEnds(s, r, s.initializations[i].view);
    hide Present;
  }

  /** The view the request awaits is its tab's, or has been disposed of. */
  lemma AwaitedStands(s: State, i: nat)
    requires Suspended(s, i)
    ensures var (view, token) := (s.initializations[i].view, s.desired.value);
            && token.terminalTabId == Some(view.terminalTabId) && CreationKey(token) == s.initializations[i].ownerKey
            && (view in s.disposedViews || Maps(s.window.registry, view))
  {
    ViewStands(s, i);
    hide StatusesOk, ReadyOk, AllShownOk, LedgerOk, VisibleOk, ResolvedBySharers, EntriesReady, ResultsOk,
      JobsQueued, InitJobsQueued, InitRequestsOk, CreationsOk, QueueOk, InitsOk, PlaceOk;
    assert WasRegistered(s.ledger, s.initializations[i].view);
  }

  /**
   Once its attempt has come to an end the request does too: with an error if it failed or the view is
   of the wrong kind, with its view on screen and "ready" if it succeeded, and with nothing on screen
   if the surface has no size.
   */
  lemma ResumedRequestEnds(s: State, i: nat)
    requires Suspended(s, i) && s.queue != [] && IsOwnResume(s, s.queue[0])
    ensures var t := RunMicrotask(s);
            && EndsAfter(s, t, s.queue[0].request, s.initializations[i]) && t.track.place == Nowhere
            && t.initializations == s.initializations
  {
    var r, s1 := s.queue[0].request, s.(queue := s.queue[1..]);
    OwnResumeIsOwn(s, i);
    OwnIsDesired(s, i);
    TasksOf(s, i);
    AwaitedStands(s, i);
    hide Good;
    ResumeFrame(Wake(s1, r.token), r, i);
    if s.initializations[i].outcome.Failed? {
      OwnerStands(Wake(s1, r.token), r, i);
      FailureEnds(Wake(s1, r.token), r, i, s.initializations[i].outcome.kindMismatch);
    } else {
      SuccessEnds(Wake(s1, r.token), r, i);
    }
    hide FailInitialization, Present;
  }

  lemma OwnerStands(s: State, r: Request, i: nat)
    requires i < |s.initializations| && IsDesired(s, r.token)
    requires var (view, token) := (s.initializations[i].view, r.token);
             && token.terminalTabId == Some(view.terminalTabId) && CreationKey(token) == s.initializations[i].ownerKey
             && (view in s.disposedViews || Maps(s.window.registry, view))
    ensures s.initializations[i].view in s.disposedViews
            || IsDesiredInitialization(s, s.initializations[i], s.initializations[i].view)
  {
  }

  // ---- A surface arrives ----

  /** The request awaits the creation of its tab's view, as its creator or as a sharer. */
  predicate AwaitsCreation(t: State, r: Request, c: nat) {
    && t.track.place == AtCreation(c) && c < |t.creations| && t.creations[c].key == CreationKey(r.token)
    && ((t.creations[c].creator == r && t.creations[c].phase.Open?)
        || r in t.creations[c].waiters || ResumeWaiter(r, c) in t.queue)
  }

  /** For a view that exists but is not ready the request joins the attempt of its own kind, or starts one. */
  predicate StartsWaiting(s: State, t: State, r: Request, view: View) {
    && t.window.statuses == s.window.statuses + [StatusOf(Loading, r.token)] && t.ledger.shown == s.ledger.shown
    && AwaitsView(t, r, view) && t.creations == s.creations && t.queue == s.queue
    && var entries := s.initializationEntries;
       if r.tab in entries && entries[r.tab] < |s.initializations|
          && SharesOwner(s.initializations[entries[r.tab]], CreationKey(r.token), view)
       then t.track.place.init == entries[r.tab] && |t.initializations| == |s.initializations|
       else t.track.place.init == |s.initializations| == |t.initializations| - 1
  }

  /** Without a view the request shares the creation under way for its key, or has one started. */
  predicate StartsCreating(s: State, t: State, r: Request, created: CreateOutcome) {
    var key, loading := CreationKey(r.token), s.window.statuses + [StatusOf(Loading, r.token)];
    && t.ledger.shown == s.ledger.shown
    && if key in s.creationPromises then
         && t.window.statuses == loading && |t.creations| == |s.creations| && t.initializations == s.initializations
         && AwaitsCreation(t, r, s.creationPromises[key])
       else match created
         case Throws => t.window.statuses == loading + [StatusOf(Error, r.token)] && t.track.place == Nowhere
         case ReturnsView => t.window.statuses == loading && AwaitsView(t, r, View(r.tab, s.ledger.nextView))
         case ReturnsPromise =>
           && t.window.statuses == loading && t.initializations == s.initializations && t.queue == s.queue
           && |t.creations| == |s.creations| + 1 && t.creations[|s.creations|].creator == r
           && AwaitsCreation(t, r, |s.creations|)
           && t.creationPromises == s.creationPromises[key := |s.creations|]
  }

  function NewToken(s: State, surface: Surface): Token {
    Token(s.track.lastToken + 1, surface.identity, surface.revision, surface.terminalTabId)
  }

  /** What an accepted surface sets going. */
  predicate Starts(s: State, t: State, surface: Surface, created: CreateOutcome) {
    var token := NewToken(s, surface);
    && t.desired == Some(token) && t.lastRevision == surface.revision
    && t.track.lastToken == token.serial && !t.track.taken
    && match surface.terminalTabId
       case None =>
         && t.window.statuses == s.window.statuses + [StatusOf(Idle, token)] && t.ledger.shown == s.ledger.shown
         && t.window.visible == s.window.visible - s.window.registry.Values && t.track.place == Nowhere
       case Some(tab) =>
         var r := Request(token, tab, surface.width, surface.height);
         if tab !in s.window.registry then StartsCreating(s, t, r, created)
         else if s.window.registry[tab] in s.unreadyViews then StartsWaiting(s, t, r, s.window.registry[tab])
         else EndsWith(s, t, r, s.window.registry[tab]) && t.track.place == Nowhere
  }

  lemma CreatingStarts(s: State, r: Request, created: CreateOutcome)
    requires IsDesired(s, r.token) && r.tab !in s.window.registry && s.track.place == Nowhere
    requires var key := CreationKey(r.token);
             key in s.creationPromises ==>
               s.creationPromises[key] < |s.creations| && s.creations[s.creationPromises[key]].key == key
    requires forall j | 0 <= j < |s.initializations| :: s.initializations[j].view != View(r.tab, s.ledger.nextView)
    ensures StartsCreating(s, RequestCreation(Emit(s, Loading, r.token), r, created), r, created)
  {
    var loading := Emit(s, Loading, r.token);
    var key := CreationKey(r.token);
    if created.ReturnsView? && key !in s.creationPromises {
      var more := loading.(ledger := loading.ledger.(nextView := loading.ledger.nextView + 1));
      AdoptedIsAwaited(more, r, View(r.tab, s.ledger.nextView));
    }
    if key in s.creationPromises {
      JoinedIsAwaited(loading, r, s.creationPromises[key]);
      hide JoinCreation;
    }
    hide Prepare, Adopt, AwaitsView;
  }

  lemma JoinedIsAwaited(s: State, r: Request, c: nat)
    requires c < |s.creations| && s.creations[c].key == CreationKey(r.token)
    ensures var t := JoinCreation(s, r, c);
            && AwaitsCreation(t, r, c) && |t.creations| == |s.creations| && t.initializations == s.initializations
            && t.window == s.window && t.ledger == s.ledger
  {
    var t := JoinCreation(s, r, c);
    if IsEarly(s.creations[c].phase) {
      assert t.creations[c].waiters[|s.creations[c].waiters|] == r;
    } else {
      assert t.queue[|s.queue|] == ResumeWaiter(r, c);
    }
  }

  lemma WaitingStarts(s: State, r: Request, view: View)
    requires IsDesired(s, r.token) && Maps(s.window.registry, view) && r.tab == view.terminalTabId
    requires view in s.unreadyViews && s.track.place == Nowhere
    requires r.tab in s.initializationEntries ==>
               && s.initializationEntries[r.tab] < |s.initializations|
               && s.initializations[s.initializationEntries[r.tab]].tab == r.tab
    ensures StartsWaiting(s, Prepare(Emit(s, Loading, r.token), r, view), r, view)
  {
    hide Present, ReleaseIfUnowned;
  }

  /** What the invariant says about the tab of a request that arrives. */
  lemma ArrivingFinds(s: State, tab: TabId, key: OwnerKey)
    requires Good(s)
    ensures tab in s.window.registry ==> s.window.registry[tab].terminalTabId == tab
    ensures key in s.creationPromises ==>
              s.creationPromises[key] < |s.creations| && s.creations[s.creationPromises[key]].key == key
    ensures tab in s.initializationEntries ==>
              && s.initializationEntries[tab] < |s.initializations|
              && s.initializations[s.initializationEntries[tab]].tab == tab
    ensures forall j | 0 <= j < |s.initializations| :: s.initializations[j].view.serial < s.ledger.nextView
  {
    hide StatusesOk, ReadyOk, AllShownOk, VisibleOk, ResolvedBySharers, EntriesReady, ResultsOk, PlaceOk,
      JobsQueued, InitJobsQueued, InitRequestsOk, QueueOk;
    assert forall j | 0 <= j < |s.initializations| :: WasRegistered(s.ledger, s.initializations[j].view);
  }

  /** Exactly what an arriving surface sets going; one that is not accepted changes nothing. */
  lemma RequestStarts(s: State, surface: Surface, created: CreateOutcome)
    requires Good(s)
    ensures var t := RequestSurface(s, surface, created);
            if surface.revision > s.lastRevision && surface.identity == s.window.identity && !s.destroyed
            then Starts(s, t, surface, created) else t == s
  {
    if Accepts(s, surface) {
      var s1 := Accepted(s, surface);
      match surface.terminalTabId {
        case None =>
        case Some(tab) =>
          var r := Request(s1.desired.value, tab, surface.width, surface.height);
          ArrivingFinds(s, tab, CreationKey(r.token));
          hide Good;
          TerminalStarts(s, surface, s1, r, created);
          hide RequestTerminal, StartsCreating, StartsWaiting, EndsWith;
      }
    }
  }

  lemma TerminalStarts(s: State, surface: Surface, s1: State, r: Request, created: CreateOutcome)
    requires Accepts(s, surface) && s1 == Accepted(s, surface)
    requires surface.terminalTabId.Some?
             && r == Request(s1.desired.value, surface.terminalTabId.value, surface.width, surface.height)
    requires r.tab in s.window.registry ==> s.window.registry[r.tab].terminalTabId == r.tab
    requires var key := CreationKey(r.token);
             key in s.creationPromises ==>
               s.creationPromises[key] < |s.creations| && s.creations[s.creationPromises[key]].key == key
    requires r.tab in s.initializationEntries ==>
               && s.initializationEntries[r.tab] < |s.initializations|
               && s.initializations[s.initializationEntries[r.tab]].tab == r.tab
    requires forall j | 0 <= j < |s.initializations| :: s.initializations[j].view.serial < s.ledger.nextView
    ensures Starts(s, RequestTerminal(s1, r, created), surface, created)
  {
    var t := RequestTerminal(s1, r, created);
    if r.tab !in s.window.registry {
      CreatingStarts(s1, r, created);
      assert StartsCreating(s, t, r, created) by { hide RequestCreation, AwaitsView, AwaitsCreation; }
      RequestCreationGrows(Emit(s1, Loading, r.token), r, created);
    } else {
      var view := s.window.registry[r.tab];
      if view in s.unreadyViews {
        WaitingStarts(s1, r, view);
        PrepareGrows(Emit(s1, Loading, r.token), r, view);
      } else {
        PresentEnds(s1, r, view);
        PrepareGrows(s1, r, view);
      }
    }
    hide RequestCreation, Prepare, Present, AwaitsView, AwaitsCreation;
    KeepsRevision(s1, r, created);
  }

  predicate SameRevision(s: State, t: State) {
    t.lastRevision == s.lastRevision && t.track.taken == s.track.taken
  }

  lemma KeepsRevision(s: State, r: Request, created: CreateOutcome)
    ensures SameRevision(s, RequestTerminal(s, r, created))
  {
    var loading := Emit(s, Loading, r.token);
    if r.tab in s.window.registry {
      PrepareKeepsRevision(s, r, s.window.registry[r.tab]);
      PrepareKeepsRevision(loading, r, s.window.registry[r.tab]);
    } else if created.ReturnsView? {
      var view := View(r.tab, s.ledger.nextView);
      PrepareKeepsRevision(Adopt(loading.(ledger := loading.ledger.(nextView := loading.ledger.nextView + 1)), view),
                           r, view);
    }
    hide Prepare;
  }

  lemma PrepareKeepsRevision(s: State, r: Request, view: View)
    ensures SameRevision(s, Prepare(s, r, view))
  {
    PresentKeepsRevision(s, r, view);
    hide Present, DisposeView;
    DisposeKeepsRevision(s, view);
  }

  lemma PresentKeepsRevision(s: State, r: Request, view: View)
    ensures SameRevision(s, Present(s, r, view))
  {
    DisposeKeepsRevision(s, view);
    hide DisposeView;
  }

  lemma DisposeKeepsRevision(s: State, view: View)
    ensures SameRevision(s, DisposeView(s, view))
  {
  }

  // ---- A view nobody works for any more ----

  /** A current attempt is at the view, or it is the view of the tab the controller works for. */
  ghost predicate IsNeeded(s: State, view: View) {
    && !s.destroyed
    && (|| (exists j | 0 <= j < |s.initializations| :: IsCurrentEntry(s, j) && s.initializations[j].view == view)
        || (IsLive(s) && s.desired.value.terminalTabId == Some(view.terminalTabId) && Maps(s.window.registry, view)))
  }

  lemma NeededIsOwned(s: State, view: View)
    requires InitsOk(s.initializations, s.initializationEntries, s.track)
    requires forall tab | tab in s.window.registry :: s.window.registry[tab].terminalTabId == tab
    ensures IsViewOwned(s, view) == IsNeeded(s, view)
  {
    if IsInitializing(s, view) {
      var tab :| tab in s.initializationEntries && s.initializationEntries[tab] < |s.initializations|
                 && s.initializations[s.initializationEntries[tab]].view == view;
      assert IsCurrentEntry(s, s.initializationEntries[tab]);
    }
  }

  /**
   A stale request whose attempt has come to an end disposes of the view exactly if nobody needs it any
   more, or it was of the wrong kind and the controller works for the same view under the same key.
   */
  lemma StaleLetsGo(s: State)
    requires Good(s) && s.queue != [] && s.queue[0].ResumeInit? && !IsDesired(s, s.queue[0].request.token)
    ensures s.queue[0].init < |s.initializations|
    ensures var init := s.initializations[s.queue[0].init];
            var sharesKind := init.outcome == Failed(true) && s.desired.Some?
                              && s.desired.value.terminalTabId == Some(init.view.terminalTabId)
                              && init.ownerKey == CreationKey(s.desired.value);
            RunMicrotask(s).disposedViews ==
              s.disposedViews + if IsNeeded(s, init.view) && !sharesKind then {} else {init.view}
  {
    HeadIsInit(s);
    var i, r := s.queue[0].init, s.queue[0].request;
    var s1 := Wake(s.(queue := s.queue[1..]), r.token);
    OwnersAreKnown(s);
    TasksOf(s, i);
    hide Good, StatusesOk;
    StaleDisposes(s1, r, i);
    NeededIsOwned(s1, s.initializations[i].view);
    SameNeed(s, s1, s.initializations[i].view);
    hide ResumeAfterInit, IsViewOwned, IsNeeded;
  }

  lemma SameNeed(s: State, t: State, view: View)
    requires t == s.(queue := t.queue, track := t.track)
    ensures IsNeeded(t, view) == IsNeeded(s, view)
  {
  }

  lemma StaleDisposes(s: State, r: Request, i: nat)
    requires i < |s.initializations| && !IsDesired(s, r.token) && !s.initializations[i].outcome.Undecided?
    ensures var init := s.initializations[i];
            var sharesKind := init.outcome == Failed(true) && s.desired.Some?
                              && s.desired.value.terminalTabId == Some(init.view.terminalTabId)
                              && init.ownerKey == CreationKey(s.desired.value);
            ResumeAfterInit(s, r, i).disposedViews ==
              s.disposedViews + if IsViewOwned(s, init.view) && !sharesKind then {} else {init.view}
  {
    hide IsViewOwned;
    DisposedMore(s, s.initializations[i].view);
    hide DisposeView;
  }

  lemma DisposedMore(s: State, view: View)
    ensures DisposeView(s, view).disposedViews == s.disposedViews + {view}
  {
  }

  lemma OwnersAreKnown(s: State)
    requires Good(s)
    ensures InitsOk(s.initializations, s.initializationEntries, s.track)
    ensures forall tab | tab in s.window.registry :: s.window.registry[tab].terminalTabId == tab
  {
    hide StatusesOk, ReadyOk, AllShownOk, LedgerOk, VisibleOk, ResolvedBySharers, EntriesReady, ResultsOk, PlaceOk,
      JobsQueued, InitJobsQueued, InitRequestsOk, QueueOk, CreationsOk, InitsOk;
  }

  // ---- Promises, and requests nobody works for ----

  /**
   A creation that is still open settles once, with a fresh view of its tab or with a failure, and its
   job is queued.
   */
  lemma CreationSettlesOnce(s: State, c: nat, ok: bool)
    requires c < |s.creations|
    ensures var t := SettleCreation(s, c, ok);
            if s.creations[c].phase.Open? then
              && t.queue == s.queue + [CreationJob(c)] && t.creations[c].phase.Settling?
              && t.creations[c].result ==
                   (if ok then Fulfilled(View(s.creations[c].creator.tab, s.ledger.nextView)) else Rejected)
              && (ok ==> t.ledger.nextView == s.ledger.nextView + 1)
            else t == s
  {
  }

  lemma InitialisationSettlesOnce(s: State, i: nat, outcome: InitOutcome)
    requires i < |s.initializations| && !outcome.Undecided?
    ensures var t := SettleInit(s, i, outcome);
            if s.initializations[i].phase.Running? then
              && t.queue == s.queue + [InitJob(i)] && t.initializations[i].outcome == outcome
              && t.initializations[i].phase.Reacting?
            else t == s
  {
  }

  /** How many jobs of a settled creation come before its creator runs again. */
  function JobsLeft(phase: CreationPhase): nat {
    match phase
    case Settling => 4
    case Settled => 3
    case Adopting => 2
    case Delivering => 1
    case _ => 0
  }

  /**
   The creator runs four jobs after the promise has settled, each queued by the one before; with the
   first of them the sharers are queued, with the second the creation can no longer be shared.
   */
  lemma CreatorComesFourJobsLater(s: State, c: nat)
    requires s.queue != [] && s.queue[0] == CreationJob(c) && c < |s.creations| && JobsLeft(s.creations[c].phase) > 0
    ensures var t := RunMicrotask(s);
            && |t.creations| == |s.creations|
            && JobsLeft(t.creations[c].phase) == JobsLeft(s.creations[c].phase) - 1
            && (JobsLeft(t.creations[c].phase) == 0 ==> t.creations[c].phase.Resuming?)
            && t.queue == s.queue[1..] + [CreationJob(c)] +
                 (if s.creations[c].phase.Settling? then ResumeWaiters(s.creations[c].waiters, c) else [])
            && t.creationPromises ==
                 s.creationPromises - (if s.creations[c].phase.Settled? then {s.creations[c].key} else {})
  {
    hide ResumeCreator, DisposeUnclaimed;
    assert s.creationPromises - {} == s.creationPromises;
    assert s.queue[1..] + [CreationJob(c)] + [] == s.queue[1..] + [CreationJob(c)];
  }

  /** What a stale request that yields leaves as it is. */
  predicate OnlyYields(s: State, t: State) {
    t.window == s.window && t.disposedViews == s.disposedViews && t.initializations == s.initializations
  }

  /** A stale sharer of a created view yields once before it gives the view up. */
  lemma StaleSharerYields(s: State)
    requires s.queue != [] && s.queue[0].ResumeWaiter? && s.queue[0].creation < |s.creations|
    requires !IsDesired(s, s.queue[0].request.token)
    ensures var (t, c, r) := (RunMicrotask(s), s.queue[0].creation, s.queue[0].request);
            && OnlyYields(s, t) && t.creations == s.creations
            && t.queue == s.queue[1..] + (if s.creations[c].result.Fulfilled? then [DisposeCheck(r, c)] else [])
  {
    hide Prepare, Adopt;
    assert s.queue[1..] + [] == s.queue[1..];
  }

  /** So does a stale creator. */
  lemma StaleCreatorYields(s: State, c: nat)
    requires s.queue != [] && s.queue[0] == CreationJob(c) && c < |s.creations| && s.creations[c].phase.Resuming?
    requires !IsDesired(s, s.creations[c].creator.token)
    ensures var t, fulfilled := RunMicrotask(s), s.creations[c].result.Fulfilled?;
            && OnlyYields(s, t) && |t.creations| == |s.creations|
            && (if fulfilled then t.creations[c].phase.Checking? else t.creations[c].phase.Finished?)
            && t.queue == s.queue[1..] + (if fulfilled then [CreationJob(c)] else [])
  {
    StaleCreatorGivesUp(Wake(s.(queue := s.queue[1..]), s.creations[c].creator.token), c);
    hide ResumeCreator, DisposeUnclaimed;
    assert s.queue[1..] + [] == s.queue[1..];
  }

  lemma StaleCreatorGivesUp(s: State, c: nat)
    requires c < |s.creations| && !IsDesired(s, s.creations[c].creator.token)
    ensures var t, fulfilled := ResumeCreator(s, c), s.creations[c].result.Fulfilled?;
            && OnlyYields(s, t) && |t.creations| == |s.creations|
            && (if fulfilled then t.creations[c].phase.Checking? else t.creations[c].phase.Finished?)
            && t.queue == s.queue + (if fulfilled then [CreationJob(c)] else [])
  {
    hide Prepare, Adopt;
    assert s.queue + [] == s.queue;
  }

  /** After that yield the view has been claimed, or it is given up and disposed of. */
  lemma YieldedGivesUp(s: State, c: nat)
    requires s.queue != [] && c < |s.creations|
    requires (s.queue[0] == CreationJob(c) && s.creations[c].phase.Checking?)
             || (s.queue[0].DisposeCheck? && s.queue[0].creation == c)
    ensures var t, creation := RunMicrotask(s), s.creations[c];
            && c < |t.creations|
            && (s.queue[0].CreationJob? ==> t.creations[c].phase.Finished?)
            && if creation.result.Fulfilled? && !creation.claimed && !creation.disposed
               then t.creations[c].disposed && creation.result.view in t.disposedViews
               else t.disposedViews == s.disposedViews && t.window == s.window
  {
    if s.creations[c].result.Fulfilled? {
      var marked := SetCreation(s.(queue := s.queue[1..]), c, s.creations[c].(disposed := true));
      DisposedMore(marked, s.creations[c].result.view);
      DisposeFrame(marked, s.creations[c].result.view);
    }
    hide DisposeView;
  }

  /** A reset forgets the surface and its revision, a destruction accepts no surface any more. */
  lemma WithdrawalForgets(s: State, surface: Surface)
    ensures var t := Apply(s, WasReset);
            && t.desired.None? && t.initializationEntries == map[]
            && (Accepts(t, surface) <==> !s.destroyed && surface.revision > 0 && surface.identity == s.window.identity)
    ensures var t := Apply(s, WasDestroyed);
            t.desired.None? && t.initializationEntries == map[] && !Accepts(t, surface)
  {
  }
}
