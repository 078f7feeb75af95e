/** Every event of the terminal surface controller keeps the invariant. */
module SurfaceSteps {
  import opened Wrappers
  import opened SurfaceModel
  import opened SurfaceInvariant

  ghost predicate IsLive(s: State) {
    s.desired.Some? && IsDesired(s, s.desired.value)
  }

  /** The view the desired request is suspended on, which nobody else may dispose of. */
  ghost predicate Protected(s: State, view: View) {
    && IsLive(s)
    && s.track.place.AtInit? && s.track.place.init < |s.initializations|
    && !s.track.taken
    && s.initializations[s.track.place.init].view == view
    && s.initializations[s.track.place.init].outcome != Failed(true)
  }

  lemma HideAllKeeps(s: State)
    requires Inv(s)
    ensures Inv(HideAll(s))
    ensures HideAll(s).window.visible == Strays(s.ledger.shown)
  {
    var s' := HideAll(s);
    forall v | v in s.window.visible && Maps(s.window.registry, v)
      ensures v in s.window.registry.Values
    {
      assert s.window.registry[v.terminalTabId] == v;
    }
  }

  function Disposed(ledger: Ledger, view: View): Ledger {
    ledger.(disposals := ledger.disposals + multiset{view})
  }

  lemma DisposeViews(registry: map<TabId, View>, unready: set<View>, disposed: set<View>, ledger: Ledger, view: View)
    requires RegistryOk(registry, unready, disposed, ledger) && LedgerOk(disposed, ledger)
    requires WasRegistered(ledger, view) && view !in disposed
    ensures RegistryOk(Unregister(registry, view), unready - {view}, disposed + {view}, Disposed(ledger, view))
    ensures LedgerOk(disposed + {view}, Disposed(ledger, view))
  {
  }

  lemma DisposeResults(creations: seq<Creation>, registry: map<TabId, View>, disposed: set<View>,
                       ledger: Ledger, view: View)
    requires ResultsOk(creations, disposed, registry, ledger)
    requires WasRegistered(ledger, view)
    ensures ResultsOk(creations, disposed + {view}, Unregister(registry, view), Disposed(ledger, view))
  {
  }

  lemma DisposeKeeps(s: State, view: View)
    requires Inv(s)
    requires WasRegistered(s.ledger, view)
    requires !Protected(s, view)
    ensures Inv(DisposeView(s, view))
  {
    if view !in s.disposedViews {
      DisposeViews(s.window.registry, s.unreadyViews, s.disposedViews, s.ledger, view);
      DisposeResults(s.creations, s.window.registry, s.disposedViews, s.ledger, view);
    }
  }

  /** Another attempt takes the view: from then on the latest request awaits a disposed one. */
  lemma TakeKeeps(s: State, i: nat, view: View)
    requires Inv(s) && WasRegistered(s.ledger, view) && TakesPlace(s, i, view)
    ensures Inv(DisposeMismatched(s, i, view))
  {
    if view !in s.disposedViews {
      DisposeViews(s.window.registry, s.unreadyViews, s.disposedViews, s.ledger, view);
      DisposeResults(s.creations, s.window.registry, s.disposedViews, s.ledger, view);
    }
    TakenMoves(s);
  }

  /** The record of a taken view says nothing about where anybody waits. */
  lemma TakenMoves(s: State)
    requires Inv(s)
    ensures var track := s.track.(taken := true);
            && CreationsOk(s.creations, s.creationPromises, track) && ResolvedBySharers(s.creations, track)
            && InitsOk(s.initializations, s.initializationEntries, track)
            && QueueOk(s.queue, s.creations, s.initializations, track)
  {
  }

  lemma ProtectedIsOwned(s: State, view: View)
    requires Inv(s) && Protected(s, view)
    ensures IsViewOwned(s, view)
  {
    hide StatusesOk, ReadyOk, AllShownOk, RegistryOk, LedgerOk, ResultsOk, CreationsOk, ResolvedBySharers, QueueOk;
  }

  lemma ReleaseKeeps(s: State, view: View)
    requires Inv(s)
    requires WasRegistered(s.ledger, view)
    ensures Inv(ReleaseIfUnowned(s, view))
  {
    hide Core, ResultsOk;
    if !IsViewOwned(s, view) {
      if Protected(s, view) {
        ProtectedIsOwned(s, view);
      }
      DisposeKeeps(s, view);
    }
  }

  lemma EmitKeeps(s: State, state: StatusState, token: Token)
    requires Inv(s)
    requires s.track.place == Nowhere && NoFinalYet(s.window.statuses, s.lastRevision)
    requires token.revision == s.lastRevision
    requires state == Ready ==> |s.ledger.shown| > 0 && s.ledger.shown[|s.ledger.shown| - 1].token == token
    ensures Inv(Emit(s, state, token))
    ensures state == Loading ==> NoFinalYet(Emit(s, state, token).window.statuses, s.lastRevision)
  {
    hide AllShownOk, RegistryOk, LedgerOk, ResultsOk, CreationsOk, ResolvedBySharers, QueueOk, InitsOk, EntriesReady;
    EmittedReady(s.window.statuses, s.ledger.shown, Status(state, token.identity, token.revision, token.terminalTabId));
  }

  lemma EmittedReady(statuses: seq<Status>, shown: seq<Shown>, status: Status)
    requires ReadyOk(statuses, shown)
    requires status.state.Ready? ==> |shown| > 0 && Announces(status, shown[|shown| - 1])
    ensures ReadyOk(statuses + [status], shown)
  {
  }

  lemma ShownMore(statuses: seq<Status>, shown: seq<Shown>, more: Shown)
    requires ReadyOk(statuses, shown)
    ensures ReadyOk(statuses, shown + [more])
  {
    forall k | 0 <= k < |statuses| && statuses[k].state.Ready?
      ensures exists j | 0 <= j < |shown + [more]| :: Announces(statuses[k], (shown + [more])[j])
    {
      var j :| 0 <= j < |shown| && Announces(statuses[k], shown[j]);
      assert (shown + [more])[j] == shown[j];
    }
  }

  lemma StraysMore(shown: seq<Shown>, more: Shown)
    ensures Strays(shown + [more]) == Strays(shown) + (if more.taken then {more.view} else {})
  {
    forall v
      ensures v in Strays(shown + [more]) <==> v in Strays(shown) || (more.taken && v == more.view)
    {
      if v in Strays(shown) {
        var k :| 0 <= k < |shown| && shown[k].taken && shown[k].view == v;
        assert (shown + [more])[k] == shown[k];
      }
      if more.taken && v == more.view {
        assert (shown + [more])[|shown|] == more;
      }
    }
  }

  /** A request whose continuation is running: if it is the desired one, it is not suspended anywhere. */
  ghost predicate IsAwake(s: State, r: Request) {
    IsDesired(s, r.token) ==>
      && s.track.place == Nowhere
      && NoFinalYet(s.window.statuses, s.lastRevision)
      && r.token.terminalTabId == Some(r.tab)
  }

  lemma EmitErrorKeeps(s: State, r: Request)
    requires Inv(s) && IsAwake(s, r)
    ensures Inv(EmitErrorIfDesired(s, r.token))
  {
    if IsDesired(s, r.token) {
      EmitKeeps(s, Error, r.token);
    }
  }

  lemma PresentKeeps(s: State, r: Request, view: View)
    requires Inv(s) && IsAwake(s, r)
    requires WasRegistered(s.ledger, view)
    requires IsDesired(s, r.token) ==>
               && r.tab == view.terminalTabId && view !in s.unreadyViews
               && (if s.track.taken then view in s.disposedViews else Maps(s.window.registry, view))
    ensures Inv(Present(s, r, view))
  {
    if !IsDesired(s, r.token) {
      ReleaseKeeps(s, view);
    } else if view !in s.window.terminalViews {
      DisposeKeeps(s, view);
      EmitErrorKeeps(DisposeView(s, view), r);
    } else if r.width <= 0 || r.height <= 0 {
      HideAllKeeps(s);
    } else {
      ShowAndTell(s, r, view);
    }
    hide Inv;
  }

  lemma ShowAndTell(s: State, r: Request, view: View)
    requires Inv(s) && IsAwake(s, r) && IsDesired(s, r.token) && r.tab == view.terminalTabId
    requires view in s.window.terminalViews && view !in s.unreadyViews
    requires if s.track.taken then view in s.disposedViews else Maps(s.window.registry, view)
    ensures Inv(Emit(Show(s, r.token, view), Ready, r.token))
  {
    ShowKeeps(s, r.token, view);
    EmitKeeps(Show(s, r.token, view), Ready, r.token);
  }

  lemma ShowKeeps(s: State, token: Token, view: View)
    requires Inv(s) && IsDesired(s, token) && token.terminalTabId == Some(view.terminalTabId)
    requires view in s.window.terminalViews && view !in s.unreadyViews
    requires if s.track.taken then view in s.disposedViews else Maps(s.window.registry, view)
    ensures Inv(Show(s, token, view))
  {
    hide StatusesOk, CreationsOk, ResolvedBySharers, QueueOk, InitsOk, EntriesReady, ReadyOk, VisibleOk, Strays;
    var s' := Show(s, token, view);
    var more := s'.ledger.shown[|s.ledger.shown|];
    ShownMore(s.window.statuses, s.ledger.shown, more);
    StraysMore(s.ledger.shown, more);
    ShownVisible(s.window.visible, s.window.registry, Strays(s.ledger.shown), s.disposedViews, view, s.track.taken);
  }

  /** The new view hides the one before it. */
  lemma ShownVisible(visible: set<View>, registry: map<TabId, View>, strays: set<View>, disposed: set<View>,
                     view: View, taken: bool)
    requires VisibleOk(visible, registry, strays, disposed)
    requires forall v | v in disposed :: !Maps(registry, v)
    requires forall tab | tab in registry :: registry[tab].terminalTabId == tab
    requires if taken then view in disposed else Maps(registry, view)
    ensures VisibleOk((visible - registry.Values) + {view}, registry, strays + (if taken then {view} else {}), disposed)
  {
    forall v | v in visible && Maps(registry, v)
      ensures v in registry.Values
    {
      assert registry[v.terminalTabId] == v;
    }
  }

  /** While nobody latest is suspended, the latest request may be given any place. */
  predicate Moves(track: Track, track': Track) {
    && track.lastToken <= track'.lastToken
    && (track.place == Nowhere || track.lastToken < track'.lastToken)
  }

  lemma MoveKeeps(s: State, track': Track)
    requires Inv(s) && Moves(s.track, track')
    ensures CreationsOk(s.creations, s.creationPromises, track')
    ensures ResolvedBySharers(s.creations, track')
    ensures InitsOk(s.initializations, s.initializationEntries, track')
    ensures QueueOk(s.queue, s.creations, s.initializations, track')
  {
  }

  function WithWaiter(inits: seq<Initialization>, i: nat, r: Request): seq<Initialization>
    requires i < |inits|
  {
    inits[i := inits[i].(waiters := inits[i].waiters + [r])]
  }

  lemma JoinInits(inits: seq<Initialization>, entries: map<TabId, nat>, track: Track, i: nat, r: Request)
    requires InitsOk(inits, entries, track) && i < |inits| && track.place == Nowhere
    requires IsUnhandled(inits[i].phase) && AwaitsInit(track.(place := AtInit(i)), r, i, inits[i])
    requires r.token.serial == track.lastToken
    ensures InitsOk(WithWaiter(inits, i, r), entries, track.(place := AtInit(i)))
  {
  }

  lemma JoinQueue(s: State, i: nat, r: Request)
    requires QueueOk(s.queue, s.creations, s.initializations, s.track) && i < |s.initializations|
    ensures QueueOk(s.queue, s.creations, WithWaiter(s.initializations, i, r), s.track)
  {
  }

  lemma JoinKeeps(s: State, r: Request, view: View, i: nat)
    requires Inv(s) && IsAwake(s, r) && IsDesired(s, r.token) && !s.track.taken
    requires Maps(s.window.registry, view) && view.terminalTabId == r.tab
    requires i < |s.initializations| && r.tab in s.initializationEntries && s.initializationEntries[r.tab] == i
    requires SharesOwner(s.initializations[i], CreationKey(r.token), view)
    requires view in s.unreadyViews
    ensures Inv(JoinInitialization(s, r, i))
  {
    hide StatusesOk, ReadyOk, AllShownOk, RegistryOk, LedgerOk, ResultsOk, CreationsOk, ResolvedBySharers, QueueOk,
      VisibleOk;
    var t := s.(track := s.track.(place := AtInit(i)));
    MoveKeeps(s, t.track);
    JoinInits(s.initializations, s.initializationEntries, s.track, i, r);
    JoinQueue(t, i, r);
    assert WithWaiter(s.initializations, i, r)[i].waiters[|s.initializations[i].waiters|] == r;
  }

  lemma StartInits(inits: seq<Initialization>, entries: map<TabId, nat>, track: Track, init: Initialization)
    requires InitsOk(inits, entries, track)
    requires InitOk(init, |inits|, track) && IsUnhandled(init.phase)
    ensures InitsOk(inits + [init], entries[init.tab := |inits|], track)
  {
  }

  lemma StartQueue(s: State, init: Initialization)
    requires QueueOk(s.queue, s.creations, s.initializations, s.track)
    ensures QueueOk(s.queue, s.creations, s.initializations + [init], s.track)
  {
  }

  lemma StartKeeps(s: State, r: Request, view: View)
    requires Inv(s) && IsAwake(s, r) && IsDesired(s, r.token) && !s.track.taken
    requires Maps(s.window.registry, view) && view.terminalTabId == r.tab && WasRegistered(s.ledger, view)
    ensures Inv(StartInitialization(s, r, view))
  {
    hide StatusesOk, ReadyOk, RegistryOk, LedgerOk, ResultsOk, CreationsOk, ResolvedBySharers, QueueOk;
    var t := s.(track := StartInitialization(s, r, view).track);
    var init := Initialization(CreationKey(r.token), r.tab, view, Running, Undecided, [r]);
    MoveKeeps(s, t.track);
    StartInits(s.initializations, s.initializationEntries, t.track, init);
    StartQueue(t, init);
    assert init.waiters[0] == r;
  }

  lemma PrepareKeeps(s: State, r: Request, view: View)
    requires Inv(s) && IsAwake(s, r)
    requires WasRegistered(s.ledger, view)
    requires IsDesired(s, r.token) ==>
               Maps(s.window.registry, view) && view.terminalTabId == r.tab && !s.track.taken
    ensures Inv(Prepare(s, r, view))
  {
    if !IsDesired(s, r.token) {
      ReleaseKeeps(s, view);
    } else if view !in s.unreadyViews {
      PresentKeeps(s, r, view);
    } else if r.tab in s.initializationEntries
              && SharesOwner(s.initializations[s.initializationEntries[r.tab]], CreationKey(r.token), view) {
      JoinKeeps(s, r, view, s.initializationEntries[r.tab]);
    } else {
      StartKeeps(s, r, view);
    }
  }

  // ---- Registering a new view ----

  function Registered(ledger: Ledger, view: View): Ledger {
    ledger.(registrations := ledger.registrations + multiset{view})
  }

  lemma AdoptViews(registry: map<TabId, View>, unready: set<View>, disposed: set<View>, ledger: Ledger, view: View)
    requires RegistryOk(registry, unready, disposed, ledger) && LedgerOk(disposed, ledger)
    requires ledger.registrations[view] == 0 && view !in disposed && view.serial < ledger.nextView
    requires view.terminalTabId !in registry
    ensures RegistryOk(registry[view.terminalTabId := view], unready + {view}, disposed, Registered(ledger, view))
    ensures LedgerOk(disposed, Registered(ledger, view))
  {
  }

  lemma AdoptVisible(visible: set<View>, registry: map<TabId, View>, strays: set<View>, disposed: set<View>, view: View)
    requires VisibleOk(visible, registry, strays, disposed) && view.terminalTabId !in registry && view !in disposed
    ensures VisibleOk(visible - {view}, registry[view.terminalTabId := view], strays, disposed)
  {
  }

  lemma AdoptInits(s: State, view: View)
    requires InitViewsOk(s.initializations, s.ledger)
    requires InitsOk(s.initializations, s.initializationEntries, s.track)
    requires EntriesReady(s.initializations, s.initializationEntries, s.unreadyViews)
    requires s.ledger.warmLimit <= view.serial && s.ledger.registrations[view] == 0
    ensures InitViewsOk(s.initializations, Registered(s.ledger, view))
    ensures EntriesReady(s.initializations, s.initializationEntries, s.unreadyViews + {view})
  {
    assert forall i | 0 <= i < |s.initializations| :: s.initializations[i].view != view;
  }

  lemma AdoptKeeps(s: State, view: View)
    requires Core(s)
    requires s.ledger.warmLimit <= view.serial < s.ledger.nextView
    requires s.ledger.registrations[view] == 0 && view !in s.disposedViews
    requires view.terminalTabId !in s.window.registry
    requires s.track.place == Nowhere
    ensures Core(Adopt(s, view))
  {
    hide StatusesOk, ReadyOk, AllShownOk, CreationsOk, ResolvedBySharers, QueueOk;
    AdoptViews(s.window.registry, s.unreadyViews, s.disposedViews, s.ledger, view);
    AdoptVisible(s.window.visible, s.window.registry, Strays(s.ledger.shown), s.disposedViews, view);
    AdoptInits(s, view);
  }

  // ---- Queue steps ----

  lemma AppendKeeps(s: State, tasks: seq<Task>)
    requires Core(s)
    requires forall k | 0 <= k < |tasks| ::
               !tasks[k].ResumeInit? && TaskOk(tasks[k], s.creations, s.initializations, s.track)
    requires forall j, k | 0 <= j < |s.queue| && 0 <= k < |tasks| :: OrderOk(s.queue[j], tasks[k], s.creations)
    requires forall j, k | 0 <= j < k < |tasks| :: OrderOk(tasks[j], tasks[k], s.creations)
    ensures Core(s.(queue := s.queue + tasks))
  {
    hide StatusesOk, ReadyOk, AllShownOk, RegistryOk, LedgerOk, CreationsOk, ResolvedBySharers, InitsOk;
    var queue := s.queue + tasks;
    assert QueueOk(queue, s.creations, s.initializations, s.track);
    assert forall k | 0 <= k < |s.queue| :: queue[k] == s.queue[k];
  }

  /** Taking the first task out; the request it carries, if any, wakes up. */
  lemma PopKeeps(s: State)
    requires Inv(s) && s.queue != []
    requires !s.queue[0].ResumeInit?
    ensures Inv(s.(queue := s.queue[1..]))
  {
    hide StatusesOk, ReadyOk, AllShownOk, RegistryOk, LedgerOk, CreationsOk, ResolvedBySharers, InitsOk, ResultsOk;
    var queue := s.queue[1..];
    assert QueueOk(queue, s.creations, s.initializations, s.track);
    assert forall k | 1 <= k < |s.queue| :: queue[k - 1] == s.queue[k];
  }

  /** No suspended request is the latest one any more, so it has no place. */
  ghost predicate LatestIsAwake(creations: seq<Creation>, inits: seq<Initialization>,
                                queue: seq<Task>, lastToken: nat) {
    && (forall c | 0 <= c < |creations| ::
          && (CreatorPending(creations[c].phase) ==> creations[c].creator.token.serial < lastToken)
          && (forall k | 0 <= k < |creations[c].waiters| :: creations[c].waiters[k].token.serial < lastToken))
    && (forall i | 0 <= i < |inits| ::
          forall k | 0 <= k < |inits[i].waiters| :: inits[i].waiters[k].token.serial < lastToken)
    && (forall k | 0 <= k < |queue| ::
          queue[k].ResumeWaiter? || queue[k].ResumeInit? ==> queue[k].request.token.serial < lastToken)
  }

  lemma ForgetPlace(creations: seq<Creation>, promises: map<OwnerKey, nat>, inits: seq<Initialization>,
                    entries: map<TabId, nat>, queue: seq<Task>, track: Track)
    requires CreationsOk(creations, promises, track) && ResolvedBySharers(creations, track)
    requires InitsOk(inits, entries, track) && QueueOk(queue, creations, inits, track)
    requires LatestIsAwake(creations, inits, queue, track.lastToken)
    ensures CreationsOk(creations, promises, track.(place := Nowhere))
    ensures ResolvedBySharers(creations, track.(place := Nowhere))
    ensures InitsOk(inits, entries, track.(place := Nowhere))
    ensures QueueOk(queue, creations, inits, track.(place := Nowhere))
  {
  }

  lemma PoppedQueue(s: State)
    requires QueueOk(s.queue, s.creations, s.initializations, s.track) && s.queue != []
    ensures QueueOk(s.queue[1..], s.creations, s.initializations, s.track)
  {
    assert forall k | 1 <= k < |s.queue| :: s.queue[1..][k - 1] == s.queue[k];
  }

  /** A task that resumes a suspended request is taken out and the request wakes up. */
  lemma PopResume(s: State)
    requires Inv(s) && s.queue != []
    requires s.queue[0].ResumeWaiter? || s.queue[0].ResumeInit?
    ensures var s' := Wake(s.(queue := s.queue[1..]), s.queue[0].request.token);
            Inv(s') && IsAwake(s', s.queue[0].request)
  {
    var r := s.queue[0].request;
    PoppedQueue(s);
    if r.token.serial == s.track.lastToken {
      LatestResumed(s);
      ForgetPlace(s.creations, s.creationPromises, s.initializations, s.initializationEntries, s.queue[1..], s.track);
    }
    ResumedCore(s);
  }

  lemma LatestResumed(s: State)
    requires CreationsOk(s.creations, s.creationPromises, s.track)
    requires InitsOk(s.initializations, s.initializationEntries, s.track)
    requires QueueOk(s.queue, s.creations, s.initializations, s.track) && s.queue != []
    requires s.queue[0].ResumeWaiter? || s.queue[0].ResumeInit?
    requires s.queue[0].request.token.serial == s.track.lastToken
    ensures LatestIsAwake(s.creations, s.initializations, s.queue[1..], s.track.lastToken)
  {
    assert TaskOk(s.queue[0], s.creations, s.initializations, s.track);
    forall k | 1 <= k < |s.queue| && (s.queue[k].ResumeWaiter? || s.queue[k].ResumeInit?)
      ensures s.queue[k].request.token.serial < s.track.lastToken
    {
      assert OrderOk(s.queue[0], s.queue[k], s.creations);
      assert TaskOk(s.queue[k], s.creations, s.initializations, s.track);
    }
  }

  lemma ResumedCore(s: State)
    requires Inv(s) && s.queue != []
    requires s.queue[0].ResumeWaiter? || s.queue[0].ResumeInit?
    requires var t := Wake(s, s.queue[0].request.token).track;
             && CreationsOk(s.creations, s.creationPromises, t) && ResolvedBySharers(s.creations, t)
             && InitsOk(s.initializations, s.initializationEntries, t)
             && QueueOk(s.queue[1..], s.creations, s.initializations, t)
    ensures var s' := Wake(s.(queue := s.queue[1..]), s.queue[0].request.token);
            Inv(s') && IsAwake(s', s.queue[0].request)
  {
    hide StatusesOk, ReadyOk, AllShownOk, RegistryOk, LedgerOk, CreationsOk, ResolvedBySharers, InitsOk,
      EntriesReady, ResultsOk;
    assert TaskOk(s.queue[0], s.creations, s.initializations, s.track);
    assert forall k | 1 <= k < |s.queue| :: s.queue[1..][k - 1] == s.queue[k];
  }
}
