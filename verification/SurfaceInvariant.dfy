/** What every event of the terminal surface controller keeps. */
module SurfaceInvariant {
  import opened Wrappers
  import opened SurfaceModel

  // ---- Statuses ----

  predicate IsFinal(status: Status) {
    status.state != Loading
  }

  /** Revisions never go down, and a revision gets at most one final status. */
  ghost predicate StatusesOk(statuses: seq<Status>, lastRevision: int) {
    && (forall k | 0 <= k < |statuses| :: statuses[k].revision <= lastRevision)
    && (forall j, k | 0 <= j < k < |statuses| :: statuses[j].revision <= statuses[k].revision)
    && (forall j, k | 0 <= j < k < |statuses| ::
          IsFinal(statuses[j]) && IsFinal(statuses[k]) ==> statuses[j].revision < statuses[k].revision)
  }

  ghost predicate NoFinalYet(statuses: seq<Status>, lastRevision: int) {
    forall k | 0 <= k < |statuses| :: IsFinal(statuses[k]) ==> statuses[k].revision < lastRevision
  }

  ghost predicate DesiredOk(desired: Option<Token>, lastRevision: int, identity: Identity, track: Track) {
    desired.Some? ==>
      && desired.value.serial == track.lastToken
      && desired.value.revision == lastRevision
      && desired.value.identity.generation <= identity.generation
  }

  // ---- Views ----

  predicate Maps(registry: map<TabId, View>, view: View) {
    view.terminalTabId in registry && registry[view.terminalTabId] == view
  }

  /** Ready because an initialisation that was still current made it so, or because it was when it came. */
  predicate IsReady(ledger: Ledger, view: View) {
    view in ledger.initialised || view.serial < ledger.warmLimit
  }

  predicate WasRegistered(ledger: Ledger, view: View) {
    view.serial < ledger.nextView && ledger.registrations[view] == 1
  }

  ghost predicate RegistryOk(registry: map<TabId, View>, unready: set<View>, disposed: set<View>, ledger: Ledger) {
    && (forall tab | tab in registry ::
          && registry[tab].terminalTabId == tab
          && registry[tab] !in disposed
          && WasRegistered(ledger, registry[tab])
          && (registry[tab] in unready || IsReady(ledger, registry[tab])))
    && (forall v | v in unready :: Maps(registry, v))
    && (forall v | v in ledger.registrations :: Maps(registry, v) || v in disposed)
  }

  ghost predicate LedgerOk(disposed: set<View>, ledger: Ledger) {
    && (forall v | v in disposed :: v.serial < ledger.nextView)
    && (forall v :: ledger.disposals[v] == if v in disposed then 1 else 0)
    && (forall v :: ledger.registrations[v] <= if v.serial < ledger.nextView then 1 else 0)
    && ledger.warmLimit <= ledger.nextView
  }

  /** At most one view of the registry is on screen, and all strays are, which are disposed of. */
  ghost predicate VisibleOk(visible: set<View>, registry: map<TabId, View>, strays: set<View>, disposed: set<View>) {
    && strays <= visible && strays <= disposed
    && (forall v | v in visible && v !in strays :: Maps(registry, v))
    && (forall v, w | v in visible && w in visible && v !in strays && w !in strays :: v == w)
  }

  /** A view is shown only for the latest accepted request, under the current identity, and ready. */
  predicate ShownOk(shown: Shown) {
    && shown.token.serial == shown.lastToken
    && shown.token.identity == shown.window.identity
    && shown.token.terminalTabId == Some(shown.view.terminalTabId)
    && shown.view in shown.window.terminalViews
    && shown.view !in shown.unreadyViews
  }

  /** The registered view of its tab, properly initialised and never disposed of. */
  predicate ShownAlive(shown: Shown, warmLimit: nat) {
    && Maps(shown.window.registry, shown.view)
    && shown.view !in shown.disposedViews
    && (shown.view in shown.initialised || shown.view.serial < warmLimit)
  }

  /** It is, unless it was taken from the request; then it is neither registered nor alive. */
  ghost predicate AllShownOk(shown: seq<Shown>, warmLimit: nat) {
    forall k | 0 <= k < |shown| ::
      && ShownOk(shown[k])
      && (if shown[k].taken then !Maps(shown[k].window.registry, shown[k].view)
                             && shown[k].view in shown[k].disposedViews
          else ShownAlive(shown[k], warmLimit))
  }

  predicate Announces(status: Status, shown: Shown) {
    && status.identity == shown.token.identity
    && status.revision == shown.token.revision
    && status.terminalTabId == shown.token.terminalTabId
  }

  /** "ready" is only emitted for a view that was put on screen. */
  ghost predicate ReadyOk(statuses: seq<Status>, shown: seq<Shown>) {
    forall k | 0 <= k < |statuses| && statuses[k].state.Ready? ::
      exists j | 0 <= j < |shown| :: Announces(statuses[k], shown[j])
  }

  // ---- Suspended requests ----

  /** Only the latest request can still be desired, and its place is known. */
  predicate HeldAt(track: Track, r: Request, place: Place) {
    && r.token.serial <= track.lastToken
    && r.token.terminalTabId == Some(r.tab)
    && (r.token.serial == track.lastToken ==> track.place == place)
  }

  ghost predicate InArrivalOrder(waiters: seq<Request>) {
    forall j, k | 0 <= j < k < |waiters| :: waiters[j].token.serial < waiters[k].token.serial
  }

  // ---- Creations ----

  predicate SharesCreation(track: Track, r: Request, c: nat, creation: Creation) {
    && HeldAt(track, r, AtCreation(c))
    && CreationKey(r.token) == creation.key
    && creation.creator.token.serial < r.token.serial
  }

  predicate IsEarly(phase: CreationPhase) {
    phase.Open? || phase.Settling?
  }

  predicate IsMapped(phase: CreationPhase) {
    phase.Open? || phase.Settling? || phase.Settled?
  }

  predicate CreatorPending(phase: CreationPhase) {
    !phase.Checking? && !phase.Finished?
  }

  ghost predicate CreationOk(creation: Creation, c: nat, promises: map<OwnerKey, nat>, track: Track) {
    && creation.creator.token.serial <= track.lastToken
    && creation.creator.token.terminalTabId == Some(creation.creator.tab)
    && CreationKey(creation.creator.token) == creation.key
    && (CreatorPending(creation.phase) ==> HeldAt(track, creation.creator, AtCreation(c)))
    && (creation.phase.Open? <==> creation.result.Unsettled?)
    && (IsMapped(creation.phase) <==> creation.key in promises && promises[creation.key] == c)
    && (!IsEarly(creation.phase) ==> creation.waiters == [])
    && (forall k | 0 <= k < |creation.waiters| :: SharesCreation(track, creation.waiters[k], c, creation))
    && InArrivalOrder(creation.waiters)
  }

  ghost predicate CreationsOk(creations: seq<Creation>, promises: map<OwnerKey, nat>, track: Track) {
    && (forall c | 0 <= c < |creations| :: CreationOk(creations[c], c, promises, track))
    && (forall key | key in promises ::
          && promises[key] < |creations|
          && creations[promises[key]].key == key
          && IsMapped(creations[promises[key]].phase))
  }

  /** A created view is registered if it was claimed, disposed if it was given up, and never both. */
  predicate ResultOk(creation: Creation, disposed: set<View>, registry: map<TabId, View>, ledger: Ledger) {
    && !(creation.claimed && creation.disposed)
    && (creation.claimed || creation.disposed ==> creation.result.Fulfilled? && !IsMapped(creation.phase))
    && (creation.result.Fulfilled? ==>
          var view := creation.result.view;
          && view.terminalTabId == creation.creator.tab
          && ledger.warmLimit <= view.serial < ledger.nextView
          && ledger.registrations[view] == (if creation.claimed then 1 else 0)
          && (!creation.claimed ==> (view in disposed <==> creation.disposed) && !Maps(registry, view))
          && (creation.phase.Finished? ==> creation.claimed || creation.disposed))
  }

  ghost predicate ResultsOk(creations: seq<Creation>, disposed: set<View>, registry: map<TabId, View>, ledger: Ledger) {
    && (forall c | 0 <= c < |creations| :: ResultOk(creations[c], disposed, registry, ledger))
    && (forall c, d | 0 <= c < |creations| && 0 <= d < |creations| && c != d ::
          creations[c].result.Fulfilled? ==> creations[c].result != creations[d].result)
  }

  /** Only a sharer can have resolved a creation before its creator runs again. */
  ghost predicate ResolvedBySharers(creations: seq<Creation>, track: Track) {
    forall c | 0 <= c < |creations| ::
      (creations[c].claimed || creations[c].disposed) && CreatorPending(creations[c].phase) ==>
        creations[c].creator.token.serial < track.lastToken
  }

  // ---- Initialisations ----

  predicate AwaitsInit(track: Track, r: Request, i: nat, init: Initialization) {
    && HeldAt(track, r, AtInit(i))
    && CreationKey(r.token) == init.ownerKey
    && r.tab == init.tab
  }

  predicate IsUnhandled(phase: InitPhase) {
    phase.Running? || phase.Reacting? || phase.Handled?
  }

  ghost predicate InitOk(init: Initialization, i: nat, track: Track) {
    && init.tab == init.view.terminalTabId
    && (init.phase.Running? <==> init.outcome.Undecided?)
    && (init.phase.Over? <==> init.waiters == [])
    && (forall k | 0 <= k < |init.waiters| :: AwaitsInit(track, init.waiters[k], i, init))
    && InArrivalOrder(init.waiters)
  }

  ghost predicate IsNewestFor(inits: seq<Initialization>, i: nat)
    requires i < |inits|
  {
    forall j | i < j < |inits| :: inits[j].tab != inits[i].tab
  }

  ghost predicate InitsOk(inits: seq<Initialization>, entries: map<TabId, nat>, track: Track) {
    && (forall i | 0 <= i < |inits| :: InitOk(inits[i], i, track))
    && (forall tab | tab in entries ::
          && entries[tab] < |inits|
          && inits[entries[tab]].tab == tab
          && IsUnhandled(inits[entries[tab]].phase)
          && IsNewestFor(inits, entries[tab]))
  }

  /** A current attempt that succeeded has already made its view ready. */
  ghost predicate EntriesReady(inits: seq<Initialization>, entries: map<TabId, nat>, unready: set<View>) {
    forall tab | tab in entries && entries[tab] < |inits| ::
      inits[entries[tab]].phase.Handled? && inits[entries[tab]].outcome.Succeeded? ==>
        inits[entries[tab]].view !in unready
  }

  ghost predicate InitViewsOk(inits: seq<Initialization>, ledger: Ledger) {
    forall i | 0 <= i < |inits| :: WasRegistered(ledger, inits[i].view)
  }

  // ---- The queue ----

  predicate TaskOk(task: Task, creations: seq<Creation>, inits: seq<Initialization>, track: Track) {
    match task
    case CreationJob(c) => c < |creations| && !creations[c].phase.Open? && !creations[c].phase.Finished?
    case ResumeWaiter(r, c) =>
      && c < |creations| && SharesCreation(track, r, c, creations[c])
      && !IsEarly(creations[c].phase) && !creations[c].disposed
      && (creations[c].claimed ==> r.token.serial < track.lastToken)
    case DisposeCheck(r, c) =>
      && c < |creations| && !IsMapped(creations[c].phase)
      && creations[c].creator.token.serial < r.token.serial <= track.lastToken
    case InitJob(i) =>
      && i < |inits| && !inits[i].phase.Running? && !inits[i].phase.Over?
    case ResumeInit(r, i) =>
      && i < |inits| && inits[i].phase.Over? && AwaitsInit(track, r, i, inits[i])
  }

  /** What first-in first-out order gives for a task queued before another. */
  predicate OrderOk(first: Task, second: Task, creations: seq<Creation>) {
    match first
    case CreationJob(c) =>
      && second != CreationJob(c)
      && (second.ResumeWaiter? && second.creation == c ==> c < |creations| && creations[c].phase.Settled?)
    case ResumeWaiter(r, c) =>
      && (second == CreationJob(c) ==> c < |creations| && !creations[c].phase.Settled?)
      && (second.ResumeWaiter? && second.creation == c ==> r.token.serial < second.request.token.serial)
    case DisposeCheck(_, c) => !(second.ResumeWaiter? && second.creation == c)
    case InitJob(i) => second != InitJob(i)
    case ResumeInit(r, i) => second.ResumeInit? && second.init == i ==> r.token.serial < second.request.token.serial
  }

  ghost predicate QueueOk(queue: seq<Task>, creations: seq<Creation>, inits: seq<Initialization>, track: Track) {
    && (forall k | 0 <= k < |queue| :: TaskOk(queue[k], creations, inits, track))
    && (forall j, k | 0 <= j < k < |queue| :: OrderOk(queue[j], queue[k], creations))
  }

  ghost predicate JobsQueued(queue: seq<Task>, creations: seq<Creation>) {
    forall c | 0 <= c < |creations| ::
      !creations[c].phase.Open? && !creations[c].phase.Finished? ==> CreationJob(c) in queue
  }

  ghost predicate InitJobsQueued(queue: seq<Task>, inits: seq<Initialization>) {
    forall i | 0 <= i < |inits| :: !inits[i].phase.Running? && !inits[i].phase.Over? ==> InitJob(i) in queue
  }

  /** Of the requests that await an initialisation, only the desired one has the latest serial number. */
  predicate IsKnown(desired: Option<Token>, lastToken: nat, r: Request) {
    desired.Some? && r.token.serial == lastToken ==> desired == Some(r.token)
  }

  ghost predicate InitRequestsOk(desired: Option<Token>, lastToken: nat, inits: seq<Initialization>, queue: seq<Task>) {
    && (forall i | 0 <= i < |inits| ::
          forall k | 0 <= k < |inits[i].waiters| :: IsKnown(desired, lastToken, inits[i].waiters[k]))
    && (forall k | 0 <= k < |queue| && queue[k].ResumeInit? :: IsKnown(desired, lastToken, queue[k].request))
  }

  // ---- The desired request ----

  ghost predicate PlaceOk(s: State) {
    s.desired.Some? && IsDesired(s, s.desired.value) ==>
      match s.track.place
      case Nowhere => true
      case AtCreation(c) =>
        && NoFinalYet(s.window.statuses, s.lastRevision) && !s.track.taken
        && s.desired.value.terminalTabId.Some?
        && s.desired.value.terminalTabId.value !in s.window.registry
      case AtInit(i) =>
        && NoFinalYet(s.window.statuses, s.lastRevision)
        && i < |s.initializations|
        && s.desired.value.terminalTabId == Some(s.initializations[i].tab)
        && CreationKey(s.desired.value) == s.initializations[i].ownerKey
        && DesiredInitOk(s, i)
  }

  predicate HoldsLatest(init: Initialization, queue: seq<Task>, i: nat, lastToken: nat) {
    || (exists k | 0 <= k < |init.waiters| :: init.waiters[k].token.serial == lastToken)
    || (exists k | 0 <= k < |queue| ::
          queue[k].ResumeInit? && queue[k].init == i && queue[k].request.token.serial == lastToken)
  }

  ghost predicate DesiredInitOk(s: State, i: nat)
    requires i < |s.initializations|
  {
    var init := s.initializations[i];
    && HoldsLatest(init, s.queue, i, s.track.lastToken)
    && IsNewestFor(s.initializations, i)
    && (IsUnhandled(init.phase) ==> IsCurrentEntry(s, i))
    && (!init.phase.Running? && !init.phase.Reacting? && init.outcome.Succeeded? ==> init.view !in s.unreadyViews)
    && (s.track.taken ==> init.view in s.disposedViews)
    && (!s.track.taken && init.outcome != Failed(true) ==> Maps(s.window.registry, init.view))
  }

  ghost predicate Inv(s: State) {
    Core(s) && ResultsOk(s.creations, s.disposedViews, s.window.registry, s.ledger)
  }

  /** The invariant apart from what the creation records say of their results. */
  ghost predicate Core(s: State) {
    && StatusesOk(s.window.statuses, s.lastRevision)
    && DesiredOk(s.desired, s.lastRevision, s.window.identity, s.track)
    && RegistryOk(s.window.registry, s.unreadyViews, s.disposedViews, s.ledger)
    && LedgerOk(s.disposedViews, s.ledger)
    && AllShownOk(s.ledger.shown, s.ledger.warmLimit)
    && ReadyOk(s.window.statuses, s.ledger.shown)
    && VisibleOk(s.window.visible, s.window.registry, Strays(s.ledger.shown), s.disposedViews)
    && CreationsOk(s.creations, s.creationPromises, s.track)
    && ResolvedBySharers(s.creations, s.track)
    && InitsOk(s.initializations, s.initializationEntries, s.track)
    && EntriesReady(s.initializations, s.initializationEntries, s.unreadyViews)
    && InitViewsOk(s.initializations, s.ledger)
    && QueueOk(s.queue, s.creations, s.initializations, s.track)
    && PlaceOk(s)
  }

  lemma InitialInv(s: State)
    requires Initial(s)
    ensures Inv(s) && JobsQueued(s.queue, s.creations) && InitJobsQueued(s.queue, s.initializations)
    ensures InitRequestsOk(s.desired, s.track.lastToken, s.initializations, s.queue)
  {
  }
}
