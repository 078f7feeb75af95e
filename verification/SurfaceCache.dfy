/**
 What the terminal surface controller does when `createView` gives out a view it still has cached, as
 `getOrCreateWebViewForTab` may (emain/emain-tabview.ts:314-318), where the model's creations always
 get a fresh one.

 Two creations for the same tab, under two generations of the window, get the same view. The second
 request claims it and initialises it; the first, which is stale, gives up its creation, disposes of
 the view, and the second shows it.
 */
module SurfaceCache {
  import opened Wrappers
  import opened SurfaceModel
  import Race = SurfaceRace

  const FIRST := Identity("w", 1)
  const SECOND := Identity("w", 2)
  const CACHED := View("t", 0)

  /** The promise of creation `c` settles with a view that another creation got too. */
  function SettleCached(s: State, c: nat, view: View): State
    requires c < |s.creations|
  {
    SetCreation(s, c, s.creations[c].(phase := Settling, result := Fulfilled(view)))
      .(queue := s.queue + [CreationJob(c)])
  }

  function Start(): State {
    State(None, 0, false, map[], map[], {}, {}, [], [], [],
          SurfaceModel.Window(FIRST, map[], {}, {CACHED}, []),
          Ledger(0, 0, multiset{}, multiset{}, {}, []),
          Track(0, Nowhere, false))
  }

  function Ask(identity: Identity, revision: int): Event {
    Requested(Surface(identity, revision, Some("t"), 10, 10), ReturnsPromise)
  }

  /** Both creations are under way, and the first one's promise has settled. */
  function BothAsked(): State {
    Apply(Apply(Apply(Apply(Start(), Ask(FIRST, 1)), CreationSettled(0, true)), IdentityChanged(SECOND)),
          Ask(SECOND, 2))
  }

  function Call(serial: nat): Request {
    Request(Token(serial, if serial == 1 then FIRST else SECOND, serial, Some("t")), "t", 10, 10)
  }

  function Given(serial: nat, phase: CreationPhase, claimed: bool): Creation {
    Creation(CreationKey(Call(serial).token), Call(serial), [], phase, Fulfilled(CACHED), claimed, false)
  }

  /** What does not change before the view is shown. */
  predicate Waiting(s: State) {
    && !s.destroyed && s.lastRevision == 2 && s.desired == Some(Call(2).token)
    && s.window.identity == SECOND && s.window.terminalViews == {CACHED}
    && s.track.lastToken == 2 && !s.track.taken && s.ledger.shown == []
  }

  /** The jobs of the two creations take turns. */
  predicate SideBySide(s: State, phase: CreationPhase) {
    && Waiting(s) && s.track.place == AtCreation(1) && s.window.registry == map[] && s.disposedViews == {}
    && s.initializations == [] && s.initializationEntries == map[] && s.unreadyViews == {}
    && s.queue == [CreationJob(0), CreationJob(1)]
    && s.creations == [Given(1, phase, false), Given(2, phase, false)]
  }

  function Next(phase: CreationPhase): CreationPhase {
    match phase
    case Settling => Settled
    case Settled => Adopting
    case Adopting => Delivering
    case _ => Resuming
  }

  lemma BothAreGiven()
    ensures |BothAsked().creations| == 2 && SideBySide(SettleCached(BothAsked(), 1, CACHED), Settling)
  {
    var s1 := Apply(Start(), Ask(FIRST, 1));
    var s2 := Apply(s1, CreationSettled(0, true));
    assert s2.queue == [CreationJob(0)] && s2.creations == [Given(1, Settling, false)];
    var s3 := Apply(s2, IdentityChanged(SECOND));
    assert BothAsked() == Apply(s3, Ask(SECOND, 2));
  }

  lemma BothMove(s: State, phase: CreationPhase)
    requires SideBySide(s, phase)
    requires phase.Settling? || phase.Settled? || phase.Adopting? || phase.Delivering?
    ensures SideBySide(RunMicrotask(RunMicrotask(s)), Next(phase))
  {
    var s1 := RunMicrotask(s);
    assert s1.queue == [CreationJob(1), CreationJob(0)];
    assert s1.creations == [Given(1, Next(phase), false), Given(2, phase, false)];
  }

  /** The second request has claimed the view and started its initialisation; the first is about to give up. */
  predicate Claimed(s: State) {
    && Waiting(s) && s.track.place == AtInit(0)
    && s.window.registry == map["t" := CACHED] && s.disposedViews == {} && s.unreadyViews == {CACHED}
    && s.initializationEntries == map["t" := 0]
    && s.initializations == [Attempt(Running, Undecided)]
    && s.queue == [CreationJob(0)]
    && s.creations == [Given(1, Checking, false), Given(2, Finished, true)]
  }

  function Attempt(phase: InitPhase, outcome: InitOutcome): Initialization {
    Initialization(CreationKey(Call(2).token), "t", CACHED, phase, outcome, if phase.Over? then [] else [Call(2)])
  }

  lemma SecondClaims(s: State)
    requires SideBySide(s, Resuming)
    ensures Claimed(RunMicrotask(RunMicrotask(s)))
  {
    var s1 := RunMicrotask(s);
    assert s1.queue == [CreationJob(1), CreationJob(0)];
    assert s1.creations == [Given(1, Checking, false), Given(2, Resuming, false)];
  }

  /** The view is disposed of, and the only attempt at it goes on. */
  predicate Disposed(s: State, phase: InitPhase, outcome: InitOutcome) {
    && Waiting(s) && s.track.place == AtInit(0) && s.disposedViews == {CACHED} && s.unreadyViews == {}
    && s.initializations == [Attempt(phase, outcome)]
    && s.queue == (if phase.Running? then [] else if phase.Over? then [ResumeInit(Call(2), 0)] else [InitJob(0)])
  }

  lemma FirstDisposes(s: State)
    requires Claimed(s)
    ensures Disposed(Apply(s, Microtask), Running, Undecided)
  {
    assert s.creations[0] == Given(1, Checking, false);
  }

  lemma AttemptSucceeds(s: State)
    requires Disposed(s, Running, Undecided)
    ensures Disposed(Apply(s, InitSettled(0, Succeeded)), Reacting, Succeeded)
  {
  }

  lemma AttemptMoves(s: State, phase: InitPhase)
    requires Disposed(s, phase, Succeeded) && !phase.Running? && !phase.Over?
    ensures Disposed(Apply(s, Microtask), if phase.Releasing? then Over else Later(phase), Succeeded)
  {
  }

  function Later(phase: InitPhase): InitPhase {
    match phase
    case Reacting => Handled
    case Handled => Relaying
    case _ => Releasing
  }

  lemma DisposedIsShown(s: State)
    requires Disposed(s, Over, Succeeded)
    ensures var t := RunMicrotask(s);
            && |t.ledger.shown| == 1 && t.ledger.shown[0].view == CACHED && CACHED in t.ledger.shown[0].disposedViews
            && t.ledger.shown[0].token == Call(2).token && |t.initializations| == 1
  {
    assert s.queue[1..] == [];
  }

  ghost predicate LeadsTo(s: State, t: State) {
    exists events: seq<Event> :: (forall e: Event | e in events :: !e.Requested?) && Run(s, events) == t
  }

  lemma LeadsOn(s: State, t: State, e: Event)
    requires LeadsTo(s, t) && !e.Requested?
    ensures LeadsTo(s, Apply(t, e))
  {
    var events: seq<Event> :| (forall d: Event | d in events :: !d.Requested?) && Run(s, events) == t;
    Race.RunAppend(s, events, [e]);
    assert Run(t, [e]) == Run(Apply(t, e), [e][1..]);
    assert Run(s, events + [e]) == Apply(t, e);
  }

  lemma TwoMicrotasks(s: State, t: State)
    requires LeadsTo(s, t)
    ensures LeadsTo(s, RunMicrotask(RunMicrotask(t)))
  {
    LeadsOn(s, t, Microtask);
    LeadsOn(s, RunMicrotask(t), Microtask);
    hide LeadsTo, RunMicrotask;
  }

  lemma ClaimIsReached(s: State) returns (t: State)
    requires SideBySide(s, Settling)
    ensures LeadsTo(s, t) && Claimed(t)
  {
    assert Run(s, []) == s;
    hide RunMicrotask, SideBySide, Claimed, Run;
    t := s;
    var phase := Settling;
    for n := 0 to 4
      invariant LeadsTo(s, t) && SideBySide(t, phase)
      invariant phase == [Settling, Settled, Adopting, Delivering, Resuming][n]
    {
      BothMove(t, phase);
      TwoMicrotasks(s, t);
      t, phase := RunMicrotask(RunMicrotask(t)), Next(phase);
    }
    SecondClaims(t);
    TwoMicrotasks(s, t);
    t := RunMicrotask(RunMicrotask(t));
  }

  lemma AttemptRuns(s: State, trying: State) returns (t: State)
    requires LeadsTo(s, trying) && Disposed(trying, Running, Undecided)
    ensures LeadsTo(s, t) && Disposed(t, Over, Succeeded)
  {
    AttemptSucceeds(trying);
    LeadsOn(s, trying, InitSettled(0, Succeeded));
    hide Apply, Disposed, LeadsTo;
    t := Apply(trying, InitSettled(0, Succeeded));
    var phase := Reacting;
    for n := 0 to 4
      invariant LeadsTo(s, t) && Disposed(t, phase, Succeeded)
      invariant phase == [Reacting, Handled, Relaying, Releasing, Over][n]
    {
      AttemptMoves(t, phase);
      LeadsOn(s, t, Microtask);
      t, phase := Apply(t, Microtask), if phase.Releasing? then Over else Later(phase);
    }
  }

  lemma DisposedIsReached(s: State, claimed: State) returns (t: State)
    requires LeadsTo(s, claimed) && Claimed(claimed)
    ensures LeadsTo(s, t) && Disposed(t, Over, Succeeded)
  {
    FirstDisposes(claimed);
    LeadsOn(s, claimed, Microtask);
    hide Apply, Disposed, Claimed, LeadsTo;
    t := AttemptRuns(s, Apply(claimed, Microtask));
  }

  /**
   Without a new request, and without any second attempt at the view, the desired request shows a view
   that was disposed of.
   */
  lemma CachedViewCanBeShown() returns (t: State)
    ensures |BothAsked().creations| == 2 && LeadsTo(SettleCached(BothAsked(), 1, CACHED), t)
    ensures |t.ledger.shown| == 1 && t.ledger.shown[0].view in t.ledger.shown[0].disposedViews
    ensures t.ledger.shown[0].token == Call(2).token && |t.initializations| == 1
  {
    BothAreGiven();
    var s := SettleCached(BothAsked(), 1, CACHED);
    hide BothAsked, SettleCached, LeadsTo;
    t := ClaimIsReached(s);
    t := DisposedIsReached(s, t);
    DisposedIsShown(t);
    LeadsOn(s, t, Microtask);
    assert Apply(t, Microtask) == RunMicrotask(t);
    t := RunMicrotask(t);
  }
}
