/**
 A run in which the terminal surface controller shows a view it has disposed of.

 A first request's initialisation fails over the renderer kind; before that request runs again, a
 second request for the same tab starts a new initialisation of the same view. The first request
 then disposes of the view, and the second, whose initialisation succeeds, shows it.
 */
module SurfaceRace {
  import opened Wrappers
  import opened SurfaceModel
  import opened SurfaceInvariant

  const IDENTITY := Identity("w", 1)
  const OTHER := View("u", 0)
  const VIEW := View("t", 1)

  function Ask(revision: int): Event {
    Requested(Surface(IDENTITY, revision, Some("t"), 10, 10), ReturnsView)
  }

  function AskOther(): Event {
    Requested(Surface(IDENTITY, 3, Some("u"), 10, 10), ReturnsView)
  }

  /** A window that already has a ready view of another tab. */
  function Start(): State {
    State(None, 0, false, map[], map[], {}, {}, [], [], [],
          SurfaceModel.Window(IDENTITY, map["u" := OTHER], {}, {VIEW, OTHER}, []),
          Ledger(1, 1, multiset{OTHER}, multiset{}, {}, []),
          Track(0, Nowhere, false))
  }

  const FAILED := [InitSettled(0, Failed(true)), Microtask, Microtask]
  const RACE := [Ask(1)] + FAILED + [Ask(2)]
  const TAKEN := [Microtask, Microtask, Microtask, InitSettled(1, Succeeded)]
  const READY := [Microtask, Microtask, Microtask]
  const SHOWN := [Microtask, Microtask]

  function Call(serial: nat): Request {
    Request(Token(serial, IDENTITY, serial, Some("t")), "t", 10, 10)
  }

  function Attempt(serial: nat, phase: InitPhase, outcome: InitOutcome, waiters: seq<Request>): Initialization {
    Initialization(OwnerKey(IDENTITY, Some("t")), "t", VIEW, phase, outcome, waiters)
  }

  /** The second request has started its own initialisation while the first still awaits the failed one. */
  predicate Racing(s: State) {
    && !s.track.taken && !s.destroyed && s.lastRevision == 2 && s.desired == Some(Call(2).token)
    && s.window.identity == IDENTITY
    && s.track.lastToken == 2 && s.track.place == AtInit(1)
    && s.window.registry == map["u" := OTHER, "t" := VIEW] && s.disposedViews == {}
    && s.window.terminalViews == {VIEW, OTHER} && s.unreadyViews == {VIEW} && s.ledger.shown == []
    && s.initializationEntries == map["t" := 1] && s.queue == [InitJob(0)]
    && s.initializations == [Attempt(1, Relaying, Failed(true), [Call(1)]), Attempt(2, Running, Undecided, [Call(2)])]
  }

  /** The first request has disposed of the view and the second initialisation has succeeded. */
  predicate Taken(s: State) {
    && s.track.taken && !s.destroyed && s.lastRevision == 2 && s.desired == Some(Call(2).token)
    && s.window.identity == IDENTITY
    && s.track.lastToken == 2 && s.track.place == AtInit(1)
    && s.window.registry == map["u" := OTHER] && s.disposedViews == {VIEW}
    && s.window.terminalViews == {VIEW, OTHER} && s.unreadyViews == {} && s.ledger.shown == []
    && s.initializationEntries == map["t" := 1] && s.queue == [InitJob(1)]
    && |s.initializations| == 2 && s.initializations[1] == Attempt(2, Reacting, Succeeded, [Call(2)])
  }

  lemma {:induction false} RunAppend(s: State, first: seq<Event>, second: seq<Event>)
    ensures Run(s, first + second) == Run(Run(s, first), second)
    decreases |first|
  {
    if first == [] {
      assert first + second == second;
    } else {
      assert (first + second)[1..] == first[1..] + second;
      RunAppend(Apply(s, first[0]), first[1..], second);
    }
  }

  lemma RunThree(s: State, a: Event, b: Event, c: Event)
    ensures Run(s, [a, b, c]) == Apply(Apply(Apply(s, a), b), c)
  {
    hide Apply;
    assert [a, b, c][1..] == [b, c] && [b, c][1..] == [c] && [c][1..] == [];
    var s1 := Apply(s, a);
    var s2 := Apply(s1, b);
    assert Run(s2, [c]) == Run(Apply(s2, c), []);
    assert Run(s1, [b, c]) == Run(s2, [c]);
  }

  lemma OneTask(s: State, task: Task)
    requires s.queue == [task]
    ensures Apply(s, Microtask) == RunTask(s.(queue := []), task)
  {
    assert s.queue[1..] == [];
  }

  /** The next job of an initialisation that is alone in the queue. */
  lemma OneInitJob(s: State, i: nat)
    requires s.queue == [InitJob(i)] && i < |s.initializations|
    ensures Apply(s, Microtask) == RunInitJob(s.(queue := []), i)
  {
    OneTask(s, InitJob(i));
  }

  /** The first initialisation has failed and left the entry map; its request has not run yet. */
  predicate Unwinding(s: State) {
    && !s.track.taken && !s.destroyed && s.window.identity == IDENTITY && s.lastRevision == 1
    && s.track.lastToken == 1 && s.window.registry == map["u" := OTHER, "t" := VIEW] && s.disposedViews == {}
    && s.window.terminalViews == {VIEW, OTHER} && s.unreadyViews == {VIEW} && s.ledger.shown == []
    && s.initializationEntries == map[] && s.queue == [InitJob(0)]
    && s.initializations == [Attempt(1, Relaying, Failed(true), [Call(1)])]
  }

  /** The first initialisation is running. */
  predicate Trying(s: State) {
    && !s.track.taken && !s.destroyed && s.window.identity == IDENTITY && s.lastRevision == 1
    && s.track.lastToken == 1 && s.window.registry == map["u" := OTHER, "t" := VIEW] && s.disposedViews == {}
    && s.window.terminalViews == {VIEW, OTHER} && s.unreadyViews == {VIEW} && s.ledger.shown == []
    && s.initializationEntries == map["t" := 0] && s.queue == []
    && s.initializations == [Attempt(1, Running, Undecided, [Call(1)])]
  }

  lemma FirstTries()
    ensures Trying(Run(Start(), [Ask(1)]))
  {
    assert Run(Start(), [Ask(1)]) == Apply(Start(), Ask(1));
  }

  lemma FirstFails(s: State)
    requires Trying(s)
    ensures Unwinding(Run(s, FAILED))
  {
    RunThree(s, InitSettled(0, Failed(true)), Microtask, Microtask);
    var s1 := Apply(s, InitSettled(0, Failed(true)));
    var s2 := Apply(s1, Microtask);
    var s3 := Apply(s2, Microtask);
    assert s1 == SettleInit(s, 0, Failed(true));
    hide Apply, Run;
    OneInitJob(s1, 0);
    assert s2.queue == [InitJob(0)] && s2.initializations[0].phase.Handled?;
    OneInitJob(s2, 0);
  }

  lemma SecondStarts(s: State)
    requires Unwinding(s)
    ensures Racing(Run(s, [Ask(2)]))
  {
    assert Run(s, [Ask(2)]) == Apply(s, Ask(2));
  }

  /** The first request is about to find out that its initialisation failed. */
  predicate Warned(s: State) {
    && !s.track.taken && !s.destroyed && s.lastRevision == 2 && s.desired == Some(Call(2).token)
    && s.window.identity == IDENTITY
    && s.track.lastToken == 2 && s.track.place == AtInit(1)
    && s.window.registry == map["u" := OTHER, "t" := VIEW] && s.disposedViews == {}
    && s.window.terminalViews == {VIEW, OTHER} && s.unreadyViews == {VIEW} && s.ledger.shown == []
    && s.initializationEntries == map["t" := 1] && s.queue == [ResumeInit(Call(1), 0)]
    && s.initializations == [Attempt(1, Over, Failed(true), []), Attempt(2, Running, Undecided, [Call(2)])]
  }

  lemma FirstIsWarned(s: State)
    requires Racing(s)
    ensures Warned(Apply(Apply(s, Microtask), Microtask))
  {
    var s1 := Apply(s, Microtask);
    hide Apply;
    OneInitJob(s, 0);
    assert s1.queue == [InitJob(0)] && s1.initializations[0].phase.Releasing?;
    OneInitJob(s1, 0);
  }

  lemma WarnedDisposes(s: State)
    requires Warned(s)
    ensures Taken(SettleInit(Apply(s, Microtask), 1, Succeeded))
  {
    OneTask(s, ResumeInit(Call(1), 0));
    WarnedFails(s.(queue := []));
    hide Apply, Run, FailInitialization;
  }

  lemma WarnedFails(s: State)
    requires Warned(s.(queue := [ResumeInit(Call(1), 0)])) && s.queue == []
    ensures Taken(SettleInit(FailInitialization(s, Call(1), 0, true), 1, Succeeded))
  {
    assert IsDesiredInitialization(s, s.initializations[0], VIEW);
    hide Run, Apply;
  }

  lemma ViewIsTaken(s: State)
    requires Racing(s)
    ensures Taken(Run(s, TAKEN))
  {
    RunThree(s, Microtask, Microtask, Microtask);
    RunAppend(s, [Microtask, Microtask, Microtask], [InitSettled(1, Succeeded)]);
    FirstIsWarned(s);
    WarnedDisposes(Apply(Apply(s, Microtask), Microtask));
    var s3 := Apply(Apply(Apply(s, Microtask), Microtask), Microtask);
    hide RunMicrotask, SettleInit, Racing, Warned, Taken;
    assert Run(s3, [InitSettled(1, Succeeded)]) == SettleInit(s3, 1, Succeeded);
    assert TAKEN == [Microtask, Microtask, Microtask] + [InitSettled(1, Succeeded)];
  }

  /** The view is gone and the second initialisation, which succeeded, is on its way back to its request. */
  predicate Returning(s: State, phase: InitPhase) {
    && !s.destroyed && s.lastRevision == 2 && s.desired == Some(Call(2).token) && s.window.identity == IDENTITY
    && s.window.terminalViews == {VIEW, OTHER} && s.disposedViews == {VIEW} && s.unreadyViews == {}
    && s.ledger.shown == []
    && s.window.registry == map["u" := OTHER] && s.queue == [InitJob(1)]
    && |s.initializations| == 2 && s.initializations[1] == Attempt(2, phase, Succeeded, [Call(2)])
  }

  lemma SecondMoves(s: State, phase: InitPhase)
    requires Returning(s, phase) && (phase.Reacting? || phase.Handled? || phase.Relaying?)
    ensures Returning(Apply(s, Microtask),
                      if phase.Reacting? then Handled else if phase.Handled? then Relaying else Releasing)
  {
    OneInitJob(s, 1);
    hide Apply;
  }

  lemma SecondSucceeds(s: State)
    requires Taken(s)
    ensures Returning(Run(s, READY), Releasing)
  {
    assert Returning(s, Reacting);
    RunThree(s, Microtask, Microtask, Microtask);
    hide Apply, Run, Taken, Returning;
    SecondMoves(s, Reacting);
    SecondMoves(Apply(s, Microtask), Handled);
    SecondMoves(Apply(Apply(s, Microtask), Microtask), Relaying);
  }

  /** The view is on screen though it is disposed of; the other tab's view is as it was. */
  predicate Stranded(s: State) {
    && !s.destroyed && s.lastRevision == 2 && s.window.identity == IDENTITY
    && |s.ledger.shown| == 1 && s.ledger.shown[0].view == VIEW && VIEW in s.ledger.shown[0].disposedViews
    && VIEW in s.window.visible && s.window.registry == map["u" := OTHER]
    && OTHER in s.window.terminalViews && s.unreadyViews == {}
  }

  lemma TakenViewIsShown(s: State)
    requires Returning(s, Releasing)
    ensures Stranded(Run(s, SHOWN))
  {
    hide RequestSurface, RunCreationJob, ResumeSharer, SettleCreation, SettleInit, DisposeUnclaimed, Reset, Destroy;
    var s1 := Apply(s, SHOWN[0]);
    assert s1.queue == [ResumeInit(Call(2), 1)];
    assert Run(s1, SHOWN[1..]) == Apply(s1, SHOWN[1]);
  }

  lemma StartIsInitial()
    ensures Initial(Start())
  {
    var registry: map<TabId, View> := map["u" := OTHER];
    assert registry["u"] == OTHER;
    forall v | v in registry.Values
      ensures v == OTHER
    {
      var tab :| tab in registry && registry[tab] == v;
    }
    assert registry.Values == {OTHER};
  }

  lemma RaceStrandsView()
    ensures Stranded(Run(Start(), RACE + TAKEN + READY + SHOWN))
  {
    hide Run, Start, Trying, Unwinding, Racing, Taken, Returning, Stranded;
    RunAppend(Start(), RACE + TAKEN + READY, SHOWN);
    RunAppend(Start(), RACE + TAKEN, READY);
    RunAppend(Start(), RACE, TAKEN);
    RunAppend(Start(), [Ask(1)] + FAILED, [Ask(2)]);
    RunAppend(Start(), [Ask(1)], FAILED);
    FirstTries();
    FirstFails(Run(Start(), [Ask(1)]));
    SecondStarts(Run(Start(), [Ask(1)] + FAILED));
    ViewIsTaken(Run(Start(), RACE));
    SecondSucceeds(Run(Start(), RACE + TAKEN));
    TakenViewIsShown(Run(Start(), RACE + TAKEN + READY));
  }

  /** A disposed view can be shown, and then neither a reset nor a destruction takes it off the screen. */
  lemma DisposedViewCanBeShown()
    ensures Initial(Start())
    ensures var s := Run(Start(), RACE + TAKEN + READY + SHOWN);
            && (exists k | 0 <= k < |s.ledger.shown| :: s.ledger.shown[k].view in s.ledger.shown[k].disposedViews)
            && VIEW in Reset(s).window.visible && VIEW in SurfaceModel.Destroy(s).window.visible
  {
    StartIsInitial();
    RaceStrandsView();
    var s := Run(Start(), RACE + TAKEN + READY + SHOWN);
    hide Run;
    assert s.ledger.shown[0].view in s.ledger.shown[0].disposedViews;
  }

  /** The next request, for the other tab, then leaves two views on screen. */
  lemma TwoViewsOnScreen()
    ensures Initial(Start())
    ensures var s := Run(Start(), RACE + TAKEN + READY + SHOWN + [AskOther()]);
            VIEW != OTHER && {VIEW, OTHER} <= s.window.visible
  {
    StartIsInitial();
    RaceStrandsView();
    var s := Run(Start(), RACE + TAKEN + READY + SHOWN);
    RunAppend(Start(), RACE + TAKEN + READY + SHOWN, [AskOther()]);
    assert Run(s, [AskOther()]) == Apply(s, AskOther());
    hide Run, Initial;
    assert Accepts(s, AskOther().surface);
  }
}
