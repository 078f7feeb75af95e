/**
 The terminal surface controller of emain/emain-terminal-surface.ts as a state machine.

 Every function below is one uninterrupted stretch of the source: the part of `request` up to
 its first await, the part between two awaits, or one reaction job of a promise it waits on.
 The jobs sit in one first-in first-out queue, as microtasks do; other code of the process may
 run between any two of them, so every event can occur in every state.
 */
module SurfaceModel {
  import opened Wrappers

  type TabId = s: string | s != "" witness "t"

  datatype Identity = Identity(workspaceId: string, generation: nat)

  /** A view object: the tab it was made for, and a serial number standing for object identity. */
  datatype View = View(terminalTabId: TabId, serial: nat)

  datatype OwnerKey = OwnerKey(identity: Identity, terminalTabId: Option<TabId>)

  datatype Surface = Surface(identity: Identity, revision: int, terminalTabId: Option<TabId>,
                             width: int, height: int)

  /** A token object; `serial` stands for object identity. */
  datatype Token = Token(serial: nat, identity: Identity, revision: int, terminalTabId: Option<TabId>)

  /** What a suspended `request` call for a terminal remembers. */
  datatype Request = Request(token: Token, tab: TabId, width: int, height: int)

  datatype StatusState = Loading | Ready | Error | Idle
  datatype Status = Status(state: StatusState, identity: Identity, revision: int, terminalTabId: Option<TabId>)

  /**
   How far the jobs of one view creation have come. The creator awaits `creation.finally(..)`,
   so its continuation runs three jobs after the handler that deletes the map entry.
   */
  datatype CreationPhase =
    | Open        // the view is still being created
    | Settling    // the job that wraps the view in a result record is queued
    | Settled     // the handler that deletes the map entry is queued
    | Adopting    // the outer promise is adopting the handler's result
    | Delivering  // the outer promise is about to settle
    | Resuming    // the creator's continuation is queued
    | Checking    // the creator found itself stale and yielded once
    | Finished

  datatype CreationResult = Unsettled | Rejected | Fulfilled(view: View)

  datatype Creation = Creation(key: OwnerKey, creator: Request, waiters: seq<Request>, phase: CreationPhase,
                               result: CreationResult, claimed: bool, disposed: bool)

  /** How far the jobs of one initialisation have come; its requests await `.then(..).finally(..)`. */
  datatype InitPhase = Running | Reacting | Handled | Relaying | Releasing | Over
  datatype InitOutcome = Undecided | Succeeded | Failed(kindMismatch: bool)

  datatype Initialization = Initialization(ownerKey: OwnerKey, tab: TabId, view: View, phase: InitPhase,
                                           outcome: InitOutcome, waiters: seq<Request>)

  datatype Task =
    | CreationJob(creation: nat)                      // the next job of that creation's chain
    | ResumeWaiter(request: Request, creation: nat)   // a request that shared the creation
    | DisposeCheck(request: Request, creation: nat)   // a stale sharer, after yielding once
    | InitJob(init: nat)                              // the next job of that initialisation's chain
    | ResumeInit(request: Request, init: nat)         // a request that awaited the initialisation

  /** What lies behind the controller's dependencies. */
  datatype Window = Window(
    identity: Identity,
    registry: map<TabId, View>,
    visible: set<View>,
    terminalViews: set<View>,     // the views `isTerminalView` currently accepts
    statuses: seq<Status>)        // emitted since the last reset

  /** Which views exist and what was ever done to them; no code reads it. */
  datatype Ledger = Ledger(
    nextView: nat,                // serial numbers from here on are unused
    warmLimit: nat,               // views below this serial existed before the controller
    registrations: multiset<View>, // counting the views that were there at the start
    disposals: multiset<View>,
    initialised: set<View>,       // made ready by an initialisation that was still current
    shown: seq<Shown>)

  /** A view put on screen: by which request, and how things stood at that moment. */
  datatype Shown = Shown(view: View, token: Token, lastToken: nat, taken: bool, window: Window,
                         unreadyViews: set<View>, disposedViews: set<View>, initialised: set<View>)

  /** Where the latest accepted request is suspended; no code reads it. */
  datatype Place = Nowhere | AtCreation(creation: nat) | AtInit(init: nat)

  /**
   `taken` records that the view whose initialisation the latest request awaits was disposed of by
   another attempt at initialising it, which failed over the renderer kind.
   */
  datatype Track = Track(lastToken: nat, place: Place, taken: bool)

  datatype State = State(
    desired: Option<Token>,
    lastRevision: int,
    destroyed: bool,
    creationPromises: map<OwnerKey, nat>,
    initializationEntries: map<TabId, nat>,
    unreadyViews: set<View>,
    disposedViews: set<View>,
    creations: seq<Creation>,
    initializations: seq<Initialization>,
    queue: seq<Task>,
    window: Window,
    ledger: Ledger,
    track: Track)

  /** `isDesired`: the token is still the one the controller works for. */
  predicate IsDesired(s: State, token: Token) {
    && !s.destroyed
    && s.desired == Some(token)
    && token.identity == s.window.identity
  }

  predicate Accepts(s: State, surface: Surface) {
    && !s.destroyed
    && surface.revision > s.lastRevision
    && surface.identity == s.window.identity
  }

  function CreationKey(token: Token): OwnerKey {
    OwnerKey(token.identity, token.terminalTabId)
  }

  function Lookup(s: State, tab: TabId): Option<View> {
    if tab in s.window.registry then Some(s.window.registry[tab]) else None
  }

  function Emit(s: State, state: StatusState, token: Token): State {
    var status := Status(state, token.identity, token.revision, token.terminalTabId);
    s.(window := s.window.(statuses := s.window.statuses + [status]))
  }

  function HideAll(s: State): State {
    s.(window := s.window.(visible := s.window.visible - s.window.registry.Values))
  }

  /** The `disposeView` dependency: leaves the registry only if the tab still maps to this view. */
  function Unregister(registry: map<TabId, View>, view: View): map<TabId, View> {
    if view.terminalTabId in registry && registry[view.terminalTabId] == view
    then registry - {view.terminalTabId} else registry
  }

  function DisposeView(s: State, view: View): State {
    if view in s.disposedViews then s else
      s.(disposedViews := s.disposedViews + {view},
         unreadyViews := s.unreadyViews - {view},
         window := s.window.(registry := Unregister(s.window.registry, view), visible := s.window.visible - {view}),
         ledger := s.ledger.(disposals := s.ledger.disposals + multiset{view}))
  }

  /** `registerView`, `hideView` and `unreadyViews.add`, which always come together. */
  function Adopt(s: State, view: View): State {
    s.(unreadyViews := s.unreadyViews + {view},
       window := s.window.(registry := s.window.registry[view.terminalTabId := view],
                           visible := s.window.visible - {view}),
       ledger := s.ledger.(registrations := s.ledger.registrations + multiset{view}))
  }

  predicate IsInitializing(s: State, view: View) {
    exists tab | tab in s.initializationEntries ::
      s.initializationEntries[tab] < |s.initializations| &&
      s.initializations[s.initializationEntries[tab]].view == view
  }

  predicate IsViewOwned(s: State, view: View) {
    && !s.destroyed
    && (|| IsInitializing(s, view)
        || (&& s.desired.Some? && s.desired.value.terminalTabId.Some?
            && Lookup(s, s.desired.value.terminalTabId.value) == Some(view)
            && s.desired.value.identity == s.window.identity))
  }

  predicate IsDesiredInitialization(s: State, init: Initialization, view: View) {
    && s.desired.Some?
    && init.view == view
    && s.desired.value.terminalTabId == Some(view.terminalTabId)
    && init.ownerKey == CreationKey(s.desired.value)
    && IsViewOwned(s, view)
  }

  function ReleaseIfUnowned(s: State, view: View): State {
    if IsViewOwned(s, view) then s else DisposeView(s, view)
  }

  function EmitErrorIfDesired(s: State, token: Token): State {
    if IsDesired(s, token) then Emit(s, Error, token) else s
  }

  /** The call of `request` holding this token runs again. */
  function Wake(s: State, token: Token): State {
    if token.serial == s.track.lastToken then s.(track := s.track.(place := Nowhere)) else s
  }

  /** emain-terminal-surface.ts:198-225, after every await of `request`. */
  function Present(s: State, r: Request, view: View): State {
    if !IsDesired(s, r.token) then
      ReleaseIfUnowned(s, view)
    else if view !in s.window.terminalViews then
      EmitErrorIfDesired(DisposeView(s, view), r.token)
    else if r.width <= 0 || r.height <= 0 then
      HideAll(s)
    else
      Emit(Show(s, r.token, view), Ready, r.token)
  }

  /** `showView`, then `hideView` for every other registered view. */
  function Show(s: State, token: Token, view: View): State {
    var shown := Shown(view, token, s.track.lastToken, s.track.taken,
                       s.window, s.unreadyViews, s.disposedViews, s.ledger.initialised);
    s.(window := s.window.(visible := (s.window.visible - s.window.registry.Values) + {view}),
       ledger := s.ledger.(shown := s.ledger.shown + [shown]))
  }

  /** The views that were put on screen after they had been taken from their request. */
  function Strays(shown: seq<Shown>): set<View> {
    set k | 0 <= k < |shown| && shown[k].taken :: shown[k].view
  }

  predicate SharesOwner(init: Initialization, key: OwnerKey, view: View) {
    init.ownerKey == key && init.view == view
  }

  /** emain-terminal-surface.ts:155-197, up to the await of the initialisation. */
  function Prepare(s: State, r: Request, view: View): State {
    if !IsDesired(s, r.token) then
      ReleaseIfUnowned(s, view)
    else if view !in s.unreadyViews then
      Present(s, r, view)
    else
      var key := CreationKey(r.token);
      if r.tab in s.initializationEntries && s.initializationEntries[r.tab] < |s.initializations|
         && SharesOwner(s.initializations[s.initializationEntries[r.tab]], key, view)
      then JoinInitialization(s, r, s.initializationEntries[r.tab])
      else StartInitialization(s, r, view)
  }

  function JoinInitialization(s: State, r: Request, i: nat): State
    requires i < |s.initializations|
  {
    var init := s.initializations[i];
    s.(initializations := s.initializations[i := init.(waiters := init.waiters + [r])],
       track := s.track.(place := AtInit(i)))
  }

  function StartInitialization(s: State, r: Request, view: View): State {
    var key := CreationKey(r.token);
    s.(initializations := s.initializations + [Initialization(key, r.tab, view, Running, Undecided, [r])],
       initializationEntries := s.initializationEntries[r.tab := |s.initializations|],
       track := s.track.(place := AtInit(|s.initializations|)))
  }

  /** What the `createView` dependency does when it is called. */
  datatype CreateOutcome = Throws | ReturnsView | ReturnsPromise

  /** A new token becomes the desired one. */
  function Accepted(s: State, surface: Surface): State {
    var token := Token(s.track.lastToken + 1, surface.identity, surface.revision, surface.terminalTabId);
    s.(lastRevision := surface.revision, desired := Some(token),
       track := Track(token.serial, Nowhere, false))
  }

  /** The synchronous part of `request`. */
  function RequestSurface(s: State, surface: Surface, created: CreateOutcome): State {
    if !Accepts(s, surface) then s else
      var s1 := Accepted(s, surface);
      var token := s1.desired.value;
      match surface.terminalTabId
      case None => Emit(HideAll(s1), Idle, token)
      case Some(tab) => RequestTerminal(s1, Request(token, tab, surface.width, surface.height), created)
  }

  function RequestTerminal(s: State, r: Request, created: CreateOutcome): State {
    match Lookup(s, r.tab)
    case Some(view) => Prepare(if view in s.unreadyViews then Emit(s, Loading, r.token) else s, r, view)
    case None => RequestCreation(Emit(s, Loading, r.token), r, created)
  }

  function RequestCreation(s: State, r: Request, created: CreateOutcome): State {
    var key := CreationKey(r.token);
    if key in s.creationPromises && s.creationPromises[key] < |s.creations| then
      JoinCreation(s, r, s.creationPromises[key])
    else match created
      case Throws => EmitErrorIfDesired(s, r.token)
      case ReturnsView =>
        var view := View(r.tab, s.ledger.nextView);
        Prepare(Adopt(s.(ledger := s.ledger.(nextView := s.ledger.nextView + 1)), view), r, view)
      case ReturnsPromise =>
        s.(creations := s.creations + [Creation(key, r, [], Open, Unsettled, false, false)],
           creationPromises := s.creationPromises[key := |s.creations|],
           track := s.track.(place := AtCreation(|s.creations|)))
  }

  /** Awaiting a promise that has already settled queues the continuation at once. */
  function JoinCreation(s: State, r: Request, c: nat): State
    requires c < |s.creations|
  {
    var creation := s.creations[c];
    var s1 := s.(track := s.track.(place := AtCreation(c)));
    if creation.phase.Open? || creation.phase.Settling?
    then s1.(creations := s.creations[c := creation.(waiters := creation.waiters + [r])])
    else s1.(queue := s.queue + [ResumeWaiter(r, c)])
  }

  function ResumeWaiters(waiters: seq<Request>, c: nat): (tasks: seq<Task>)
    ensures |tasks| == |waiters|
    ensures forall k | 0 <= k < |tasks| :: tasks[k] == ResumeWaiter(waiters[k], c)
  {
    seq(|waiters|, k requires 0 <= k < |waiters| => ResumeWaiter(waiters[k], c))
  }

  function ResumeInits(waiters: seq<Request>, i: nat): (tasks: seq<Task>)
    ensures |tasks| == |waiters|
    ensures forall k | 0 <= k < |tasks| :: tasks[k] == ResumeInit(waiters[k], i)
  {
    seq(|waiters|, k requires 0 <= k < |waiters| => ResumeInit(waiters[k], i))
  }

  function SetCreation(s: State, c: nat, creation: Creation): State
    requires c < |s.creations|
  {
    s.(creations := s.creations[c := creation])
  }

  function DisposeUnclaimed(s: State, c: nat): State
    requires c < |s.creations|
  {
    var creation := s.creations[c];
    if creation.claimed || creation.disposed || !creation.result.Fulfilled? then s
    else DisposeView(SetCreation(s, c, creation.(disposed := true)), creation.result.view)
  }

  /** One job of a creation's promise chain; that job itself has already left the queue. */
  function RunCreationJob(s: State, c: nat): State
    requires c < |s.creations|
  {
    var creation := s.creations[c];
    match creation.phase
    case Open => s
    case Settling =>
      SetCreation(s, c, creation.(phase := Settled, waiters := []))
        .(queue := s.queue + [CreationJob(c)] + ResumeWaiters(creation.waiters, c))
    case Settled =>
      SetCreation(s, c, creation.(phase := Adopting))
        .(queue := s.queue + [CreationJob(c)], creationPromises := s.creationPromises - {creation.key})
    case Adopting =>
      SetCreation(s, c, creation.(phase := Delivering)).(queue := s.queue + [CreationJob(c)])
    case Delivering =>
      SetCreation(s, c, creation.(phase := Resuming)).(queue := s.queue + [CreationJob(c)])
    case Resuming => ResumeCreator(Wake(s, creation.creator.token), c)
    case Checking => SetPhase(DisposeUnclaimed(s, c), c, Finished)
    case Finished => s
  }

  function SetPhase(s: State, c: nat, phase: CreationPhase): State
    requires c < |s.creations|
  {
    SetCreation(s, c, s.creations[c].(phase := phase))
  }

  function ResumeCreator(s: State, c: nat): State
    requires c < |s.creations|
  {
    var creation := s.creations[c];
    var r := creation.creator;
    if !creation.result.Fulfilled? then
      EmitErrorIfDesired(SetPhase(s, c, Finished), r.token)
    else if !IsDesired(s, r.token) then
      SetPhase(s, c, Checking).(queue := s.queue + [CreationJob(c)])
    else
      var claimed := SetCreation(s, c, creation.(claimed := true, phase := Finished));
      Prepare(Adopt(claimed, creation.result.view), r, creation.result.view)
  }

  function ResumeSharer(s: State, r: Request, c: nat): State
    requires c < |s.creations|
  {
    var creation := s.creations[c];
    if !creation.result.Fulfilled? then
      EmitErrorIfDesired(s, r.token)
    else if !IsDesired(s, r.token) then
      s.(queue := s.queue + [DisposeCheck(r, c)])
    else if creation.claimed then
      Prepare(s, r, creation.result.view)
    else
      Prepare(Adopt(SetCreation(s, c, creation.(claimed := true)), creation.result.view), r, creation.result.view)
  }

  function SetInit(s: State, i: nat, init: Initialization): State
    requires i < |s.initializations|
  {
    s.(initializations := s.initializations[i := init])
  }

  predicate IsCurrentEntry(s: State, i: nat)
    requires i < |s.initializations|
  {
    var tab := s.initializations[i].tab;
    tab in s.initializationEntries && s.initializationEntries[tab] == i
  }

  /** One job of an initialisation's promise chain. */
  function RunInitJob(s: State, i: nat): State
    requires i < |s.initializations|
  {
    var init := s.initializations[i];
    match init.phase
    case Running => s
    case Reacting =>
      var s1 := SetInit(s, i, init.(phase := Handled)).(queue := s.queue + [InitJob(i)]);
      if init.outcome.Succeeded? && IsCurrentEntry(s, i)
      then s1.(unreadyViews := s.unreadyViews - {init.view},
               ledger := s.ledger.(initialised := s.ledger.initialised + {init.view}))
      else s1
    case Handled =>
      var s1 := SetInit(s, i, init.(phase := Relaying)).(queue := s.queue + [InitJob(i)]);
      if IsCurrentEntry(s, i)
      then s1.(initializationEntries := s.initializationEntries - {init.tab}) else s1
    case Relaying =>
      SetInit(s, i, init.(phase := Releasing)).(queue := s.queue + [InitJob(i)])
    case Releasing =>
      SetInit(s, i, init.(phase := Over, waiters := [])).(queue := s.queue + ResumeInits(init.waiters, i))
    case Over => s
  }

  /** The continuation of `await initialization.promise`. */
  function ResumeAfterInit(s: State, r: Request, i: nat): State
    requires i < |s.initializations|
  {
    var init := s.initializations[i];
    match init.outcome
    case Failed(kindMismatch) => FailInitialization(s, r, i, kindMismatch)
    case _ => Present(s, r, init.view)
  }

  /** The latest request awaits another attempt at this view than attempt `i`. */
  predicate TakesPlace(s: State, i: nat, view: View) {
    && s.track.place.AtInit? && s.track.place.init != i
    && s.track.place.init < |s.initializations|
    && s.initializations[s.track.place.init].view == view
  }

  /** Attempt `i` failed over the renderer kind and disposes of its view. */
  function DisposeMismatched(s: State, i: nat, view: View): State {
    DisposeView(s, view).(track := s.track.(taken := s.track.taken || TakesPlace(s, i, view)))
  }

  function FailInitialization(s: State, r: Request, i: nat, kindMismatch: bool): State
    requires i < |s.initializations|
  {
    var view := s.initializations[i].view;
    var s1 :=
      if kindMismatch then
        if IsDesiredInitialization(s, s.initializations[i], view) || !IsViewOwned(s, view)
        then DisposeMismatched(s, i, view) else s
      else if !IsDesired(s, r.token) then ReleaseIfUnowned(s, view)
      else s;
    EmitErrorIfDesired(s1, r.token)
  }

  function RunTask(s: State, task: Task): State {
    match task
    case CreationJob(c) => if c < |s.creations| then RunCreationJob(s, c) else s
    case ResumeWaiter(r, c) => if c < |s.creations| then ResumeSharer(Wake(s, r.token), r, c) else s
    case DisposeCheck(r, c) => if c < |s.creations| then DisposeUnclaimed(s, c) else s
    case InitJob(i) => if i < |s.initializations| then RunInitJob(s, i) else s
    case ResumeInit(r, i) => if i < |s.initializations| then ResumeAfterInit(Wake(s, r.token), r, i) else s
  }

  function RunMicrotask(s: State): State {
    if s.queue == [] then s else RunTask(s.(queue := s.queue[1..]), s.queue[0])
  }

  /** The promise returned by `createView` settles. */
  function SettleCreation(s: State, c: nat, ok: bool): State {
    if c >= |s.creations| || !s.creations[c].phase.Open? then s else
      var creation := s.creations[c];
      var result := if ok then Fulfilled(View(creation.creator.tab, s.ledger.nextView)) else Rejected;
      SetCreation(s, c, creation.(phase := Settling, result := result))
        .(queue := s.queue + [CreationJob(c)],
          ledger := s.ledger.(nextView := s.ledger.nextView + if ok then 1 else 0))
  }

  /** The promise returned by `initializeView` settles. */
  function SettleInit(s: State, i: nat, outcome: InitOutcome): State {
    if i >= |s.initializations| || !s.initializations[i].phase.Running? || outcome.Undecided? then s else
      SetInit(s, i, s.initializations[i].(phase := Reacting, outcome := outcome))
        .(queue := s.queue + [InitJob(i)])
  }

  /** `updateWorkspace` gives the renderer a new identity; its generation only grows. */
  function ChangeIdentity(s: State, identity: Identity): State {
    if identity.generation <= s.window.identity.generation then s
    else s.(window := s.window.(identity := identity))
  }

  function Reset(s: State): State {
    var s1 := HideAll(s.(desired := None, lastRevision := 0, initializationEntries := map[]));
    s1.(window := s1.window.(statuses := []))
  }

  function Destroy(s: State): State {
    HideAll(s.(destroyed := true, desired := None, initializationEntries := map[]))
  }

  datatype Event =
    | Requested(surface: Surface, created: CreateOutcome)
    | Microtask
    | CreationSettled(creation: nat, ok: bool)
    | InitSettled(init: nat, outcome: InitOutcome)
    | IdentityChanged(identity: Identity)
    | KindsChanged(terminalViews: set<View>)
    | WasReset
    | WasDestroyed

  function Apply(s: State, e: Event): State {
    match e
    case Requested(surface, created) => RequestSurface(s, surface, created)
    case Microtask => RunMicrotask(s)
    case CreationSettled(c, ok) => SettleCreation(s, c, ok)
    case InitSettled(i, outcome) => SettleInit(s, i, outcome)
    case IdentityChanged(identity) => ChangeIdentity(s, identity)
    case KindsChanged(views) => s.(window := s.window.(terminalViews := views))
    case WasReset => Reset(s)
    case WasDestroyed => Destroy(s)
  }

  function Run(s: State, events: seq<Event>): State
    decreases |events|
  {
    if events == [] then s else Run(Apply(s, events[0]), events[1..])
  }

  /** A new controller over a window that may already hold ready views, none of them on screen. */
  predicate Initial(s: State) {
    && s.desired.None? && s.lastRevision == 0 && !s.destroyed
    && s.creationPromises == map[] && s.initializationEntries == map[]
    && s.unreadyViews == {} && s.disposedViews == {}
    && s.creations == [] && s.initializations == [] && s.queue == []
    && (forall tab | tab in s.window.registry ::
          s.window.registry[tab].terminalTabId == tab && s.window.registry[tab].serial < s.ledger.nextView)
    && s.window.visible == {} && s.track.lastToken == 0 && s.window.statuses == []
    && s.ledger.registrations == multiset(s.window.registry.Values) && s.ledger.disposals == multiset{}
    && s.ledger.initialised == {} && s.ledger.shown == [] && s.ledger.warmLimit == s.ledger.nextView
    && s.track.place == Nowhere && !s.track.taken
  }
}
