/**
 The controller class itself: its fields, updated in place by its methods across awaits.

 Each method is proved to do what the state machine does, so the theorems about runs of the state
 machine are theorems about any sequence of these calls. The promises the controller waits on, the
 microtask queue and the window behind its dependencies are fields here as well.
 */
module TerminalSurface {
  import opened Wrappers
  import opened SurfaceModel
  import Model = SurfaceModel
  import SurfaceInvariant
  import SurfaceSteps
  import SurfaceTasks
  import SurfaceTheorems

  class TerminalSurfaceController {
    var desired: Option<Token>
    var lastRevision: int
    var destroyed: bool
    var creationPromises: map<OwnerKey, nat>
    var initializationEntries: map<TabId, nat>
    var unreadyViews: set<View>
    var disposedViews: set<View>
    var creations: seq<Creation>
    var initializations: seq<Initialization>
    var queue: seq<Task>
    var window: Model.Window
    var ledger: Ledger
    var track: Track

    function Snapshot(): State
      reads this
    {
      State(desired, lastRevision, destroyed, creationPromises, initializationEntries, unreadyViews, disposedViews,
            creations, initializations, queue, window, ledger, track)
    }

    ghost predicate Valid()
      reads this
    {
      SurfaceTasks.Good(Snapshot())
    }

    /** A controller over a window whose views are ready and hidden. */
    constructor (identity: Identity, registry: map<TabId, View>, terminalViews: set<View>, nextView: nat)
      requires forall tab | tab in registry :: registry[tab].terminalTabId == tab && registry[tab].serial < nextView
      ensures Valid() && Initial(Snapshot())
      ensures window.identity == identity && window.registry == registry
    {
      desired, lastRevision, destroyed := None, 0, false;
      creationPromises, initializationEntries := map[], map[];
      unreadyViews, disposedViews := {}, {};
      creations, initializations, queue := [], [], [];
      window := Model.Window(identity, registry, {}, terminalViews, []);
      ledger := Ledger(nextView, nextView, multiset(registry.Values), multiset{}, {}, []);
      track := Track(0, Nowhere, false);
      new;
      SurfaceInvariant.InitialInv(Snapshot());
    }

    // ---- Dependencies ----

    method EmitStatus(state: StatusState, token: Token)
      modifies this`window
      ensures Snapshot() == Model.Emit(old(Snapshot()), state, token)
    {
      var status := Status(state, token.identity, token.revision, token.terminalTabId);
      window := window.(statuses := window.statuses + [status]);
    }

    method ShowView(token: Token, view: View)
      modifies this`window, this`ledger
      ensures Snapshot() == Model.Show(old(Snapshot()), token, view)
    {
      ledger := ledger.(shown := ledger.shown +
        [Shown(view, token, track.lastToken, track.taken, window, unreadyViews, disposedViews, ledger.initialised)]);
      window := window.(visible := window.visible - window.registry.Values + {view});
    }

    /** `registerView` and `hideView`, then `unreadyViews.add`. */
    method AdoptView(view: View)
      modifies this`window, this`ledger, this`unreadyViews
      ensures Snapshot() == Model.Adopt(old(Snapshot()), view)
    {
      window := window.(registry := window.registry[view.terminalTabId := view]);
      ledger := ledger.(registrations := ledger.registrations + multiset{view});
      window := window.(visible := window.visible - {view});
      unreadyViews := unreadyViews + {view};
    }

    // ---- Queries ----

    predicate IsDesired(token: Token)
      reads this
      ensures IsDesired(token) == Model.IsDesired(Snapshot(), token)
    {
      !(destroyed || desired != Some(token)) && token.identity == window.identity
    }

    predicate Accepts(surface: Surface)
      reads this
      ensures Accepts(surface) == Model.Accepts(Snapshot(), surface)
    {
      !(destroyed || surface.revision <= lastRevision) && surface.identity == window.identity
    }

    /** The loop over the initialisation entries, then the look at the desired request. */
    method IsViewOwnedByCurrentWork(view: View) returns (owned: bool)
      ensures owned == Model.IsViewOwned(Snapshot(), view)
    {
      if destroyed {
        return false;
      }
      var tabs := initializationEntries.Keys;
      while tabs != {}
        invariant tabs <= initializationEntries.Keys
        invariant forall tab | tab in initializationEntries && tab !in tabs ::
                    initializationEntries[tab] < |initializations| ==>
                      initializations[initializationEntries[tab]].view != view
        decreases |tabs|
      {
        var tab :| tab in tabs;
        var i := initializationEntries[tab];
        if i < |initializations| && initializations[i].view == view {
          return true;
        }
        tabs := tabs - {tab};
      }
      if desired.None? || desired.value.terminalTabId.None? {
        return false;
      }
      var tab := desired.value.terminalTabId.value;
      if tab !in window.registry || window.registry[tab] != view {
        return false;
      }
      return desired.value.identity == window.identity;
    }

    method IsDesiredInitialization(init: Initialization, view: View) returns (answer: bool)
      ensures answer == Model.IsDesiredInitialization(Snapshot(), init, view)
    {
      if desired.None? || desired.value.terminalTabId.None? {
        return false;
      }
      if init.view != view || desired.value.terminalTabId != Some(view.terminalTabId)
         || init.ownerKey != CreationKey(desired.value) {
        return false;
      }
      answer := IsViewOwnedByCurrentWork(view);
    }

    // ---- Building blocks ----

    method HideAll()
      modifies this`window
      ensures Snapshot() == Model.HideAll(old(Snapshot()))
    {
      window := window.(visible := window.visible - window.registry.Values);
    }

    method DisposeView(view: View)
      modifies this`disposedViews, this`unreadyViews, this`window, this`ledger
      ensures Snapshot() == Model.DisposeView(old(Snapshot()), view)
    {
      if view in disposedViews {
        return;
      }
      disposedViews := disposedViews + {view};
      unreadyViews := unreadyViews - {view};
      if view.terminalTabId in window.registry && window.registry[view.terminalTabId] == view {
        window := window.(registry := window.registry - {view.terminalTabId});
      }
      window := window.(visible := window.visible - {view});
      ledger := ledger.(disposals := ledger.disposals + multiset{view});
    }

    method DisposeUnclaimed(c: nat)
      requires c < |creations|
      modifies this
      ensures Snapshot() == Model.DisposeUnclaimed(old(Snapshot()), c)
    {
      var creation := creations[c];
      if !creation.claimed && !creation.disposed && creation.result.Fulfilled? {
        creations := creations[c := creation.(disposed := true)];
        DisposeView(creation.result.view);
      }
    }

    method ReleaseIfUnowned(view: View)
      modifies this`disposedViews, this`unreadyViews, this`window, this`ledger
      ensures Snapshot() == Model.ReleaseIfUnowned(old(Snapshot()), view)
    {
      var owned := IsViewOwnedByCurrentWork(view);
      if owned {
        return;
      }
      DisposeView(view);
    }

    method EmitErrorIfDesired(token: Token)
      modifies this`window
      ensures Snapshot() == Model.EmitErrorIfDesired(old(Snapshot()), token)
    {
      if IsDesired(token) {
        EmitStatus(Error, token);
      }
    }

    // ---- The stretches of `request` ----

    method Present(r: Request, view: View)
      modifies this`disposedViews, this`unreadyViews, this`window, this`ledger
      ensures Snapshot() == Model.Present(old(Snapshot()), r, view)
    {
      if !IsDesired(r.token) {
        ReleaseIfUnowned(view);
        return;
      }
      if view !in window.terminalViews {
        DisposeView(view);
        EmitErrorIfDesired(r.token);
        return;
      }
      if r.width <= 0 || r.height <= 0 {
        HideAll();
        return;
      }
      ShowView(r.token, view);
      EmitStatus(Ready, r.token);
    }

    method Prepare(r: Request, view: View)
      modifies this`disposedViews, this`unreadyViews, this`window, this`ledger,
               this`initializations, this`initializationEntries, this`track
      ensures Snapshot() == Model.Prepare(old(Snapshot()), r, view)
    {
      if !IsDesired(r.token) {
        ReleaseIfUnowned(view);
        return;
      }
      if view in unreadyViews {
        var ownerKey := CreationKey(r.token);
        if r.tab in initializationEntries && initializationEntries[r.tab] < |initializations|
           && SharesOwner(initializations[initializationEntries[r.tab]], ownerKey, view) {
          var i := initializationEntries[r.tab];
          initializations := initializations[i := initializations[i].(waiters := initializations[i].waiters + [r])];
          track := track.(place := AtInit(i));
        } else {
          StartInitialization(r, view);
        }
        return;
      }
      Present(r, view);
    }

    method StartInitialization(r: Request, view: View)
      modifies this`initializations, this`initializationEntries, this`track
      ensures Snapshot() == Model.StartInitialization(old(Snapshot()), r, view)
    {
      var ownerKey := CreationKey(r.token);
      initializationEntries := initializationEntries[r.tab := |initializations|];
      track := track.(place := AtInit(|initializations|));
      initializations := initializations + [Initialization(ownerKey, r.tab, view, Running, Undecided, [r])];
    }

    /** A call of `request`, up to its first await. */
    method RequestSurface(surface: Surface, created: CreateOutcome)
      requires Valid()
      modifies this
      ensures Valid()
      ensures Snapshot() == Model.RequestSurface(old(Snapshot()), surface, created)
    {
      hide SurfaceTasks.Good;
      hide Model.Prepare, Model.RequestCreation;
      SurfaceTheorems.EventKeeps(Snapshot(), Requested(surface, created));
      if !Accepts(surface) {
        return;
      }
      lastRevision := surface.revision;
      var token := Token(track.lastToken + 1, surface.identity, surface.revision, surface.terminalTabId);
      track := Track(track.lastToken + 1, Nowhere, false);
      desired := Some(token);
      if surface.terminalTabId.None? {
        HideAll();
        EmitStatus(Idle, token);
        return;
      }
      var r := Request(token, surface.terminalTabId.value, surface.width, surface.height);
      if r.tab in window.registry {
        var view := window.registry[r.tab];
        if view in unreadyViews {
          EmitStatus(Loading, token);
        }
        Prepare(r, view);
      } else {
        EmitStatus(Loading, token);
        RequestCreation(r, created);
      }
    }

    method RequestCreation(r: Request, created: CreateOutcome)
      modifies this
      ensures Snapshot() == Model.RequestCreation(old(Snapshot()), r, created)
    {
      hide Model.Prepare;
      var creationKey := CreationKey(r.token);
      if creationKey in creationPromises && creationPromises[creationKey] < |creations| {
        var c := creationPromises[creationKey];
        track := track.(place := AtCreation(c));
        if creations[c].phase.Open? || creations[c].phase.Settling? {
          creations := creations[c := creations[c].(waiters := creations[c].waiters + [r])];
        } else {
          queue := queue + [ResumeWaiter(r, c)];
        }
        return;
      }
      match created {
        case Throws =>
          EmitErrorIfDesired(r.token);
        case ReturnsView =>
          var view := View(r.tab, ledger.nextView);
          ledger := ledger.(nextView := ledger.nextView + 1);
          AdoptView(view);
          Prepare(r, view);
        case ReturnsPromise =>
          creationPromises := creationPromises[creationKey := |creations|];
          track := track.(place := AtCreation(|creations|));
          creations := creations + [Creation(creationKey, r, [], Open, Unsettled, false, false)];
      }
    }

    method Wake(token: Token)
      modifies this`track
      ensures Snapshot() == Model.Wake(old(Snapshot()), token)
    {
      if token.serial == track.lastToken {
        track := track.(place := Nowhere);
      }
    }

    method ResumeCreator(c: nat)
      requires c < |creations|
      modifies this
      ensures Snapshot() == Model.ResumeCreator(old(Snapshot()), c)
    {
      var creation := creations[c];
      var r := creation.creator;
      if !creation.result.Fulfilled? {
        creations := creations[c := creation.(phase := Finished)];
        EmitErrorIfDesired(r.token);
        return;
      }
      if !IsDesired(r.token) {
        creations := creations[c := creation.(phase := Checking)];
        queue := queue + [CreationJob(c)];
        return;
      }
      creations := creations[c := creation.(claimed := true, phase := Finished)];
      AdoptView(creation.result.view);
      Prepare(r, creation.result.view);
    }

    method ResumeSharer(r: Request, c: nat)
      requires c < |creations|
      modifies this
      ensures Snapshot() == Model.ResumeSharer(old(Snapshot()), r, c)
    {
      var creation := creations[c];
      if !creation.result.Fulfilled? {
        EmitErrorIfDesired(r.token);
        return;
      }
      if !IsDesired(r.token) {
        queue := queue + [DisposeCheck(r, c)];
        return;
      }
      if !creation.claimed {
        creations := creations[c := creation.(claimed := true)];
        AdoptView(creation.result.view);
      }
      Prepare(r, creation.result.view);
    }

    method RunCreationJob(c: nat)
      requires c < |creations|
      modifies this
      ensures Snapshot() == Model.RunCreationJob(old(Snapshot()), c)
    {
      var creation := creations[c];
      match creation.phase {
        case Open | Finished =>
        case Settling =>
          creations := creations[c := creation.(phase := Settled, waiters := [])];
          queue := queue + [CreationJob(c)] + ResumeWaiters(creation.waiters, c);
        case Settled =>
          creationPromises := creationPromises - {creation.key};
          creations := creations[c := creation.(phase := Adopting)];
          queue := queue + [CreationJob(c)];
        case Adopting =>
          creations := creations[c := creation.(phase := Delivering)];
          queue := queue + [CreationJob(c)];
        case Delivering =>
          creations := creations[c := creation.(phase := Resuming)];
          queue := queue + [CreationJob(c)];
        case Resuming =>
          Wake(creation.creator.token);
          ResumeCreator(c);
        case Checking =>
          DisposeUnclaimed(c);
          creations := creations[c := creations[c].(phase := Finished)];
      }
    }

    method RunInitJob(i: nat)
      requires i < |initializations|
      modifies this
      ensures Snapshot() == Model.RunInitJob(old(Snapshot()), i)
    {
      var init := initializations[i];
      var current := init.tab in initializationEntries && initializationEntries[init.tab] == i;
      match init.phase {
        case Running | Over =>
        case Reacting =>
          if init.outcome.Succeeded? && current {
            unreadyViews := unreadyViews - {init.view};
            ledger := ledger.(initialised := ledger.initialised + {init.view});
          }
          initializations := initializations[i := init.(phase := Handled)];
          queue := queue + [InitJob(i)];
        case Handled =>
          if current {
            initializationEntries := initializationEntries - {init.tab};
          }
          initializations := initializations[i := init.(phase := Relaying)];
          queue := queue + [InitJob(i)];
        case Relaying =>
          initializations := initializations[i := init.(phase := Releasing)];
          queue := queue + [InitJob(i)];
        case Releasing =>
          initializations := initializations[i := init.(phase := Over, waiters := [])];
          queue := queue + ResumeInits(init.waiters, i);
      }
    }

    method ResumeAfterInit(r: Request, i: nat)
      requires i < |initializations|
      modifies this
      ensures Snapshot() == Model.ResumeAfterInit(old(Snapshot()), r, i)
    {
      var init := initializations[i];
      if init.outcome.Failed? {
        if init.outcome.kindMismatch {
          var wanted := IsDesiredInitialization(init, init.view);
          var owned := IsViewOwnedByCurrentWork(init.view);
          if wanted || !owned {
            DisposeMismatched(i, init.view);
          }
        } else if !IsDesired(r.token) {
          ReleaseIfUnowned(init.view);
        }
        EmitErrorIfDesired(r.token);
        return;
      }
      Present(r, init.view);
    }

    /** `disposeView`, with a note if the latest request still awaits this view. */
    method DisposeMismatched(i: nat, view: View)
      modifies this`disposedViews, this`unreadyViews, this`window, this`ledger, this`track
      ensures Snapshot() == Model.DisposeMismatched(old(Snapshot()), i, view)
    {
      if TakesPlace(Snapshot(), i, view) {
        track := track.(taken := true);
      }
      DisposeView(view);
    }

    method RunTask(task: Task)
      modifies this
      ensures Snapshot() == Model.RunTask(old(Snapshot()), task)
    {
      match task {
        case CreationJob(c) =>
          if c < |creations| { RunCreationJob(c); }
        case ResumeWaiter(r, c) =>
          if c < |creations| { Wake(r.token); ResumeSharer(r, c); }
        case DisposeCheck(_, c) =>
          if c < |creations| { DisposeUnclaimed(c); }
        case InitJob(i) =>
          if i < |initializations| { RunInitJob(i); }
        case ResumeInit(r, i) =>
          if i < |initializations| { Wake(r.token); ResumeAfterInit(r, i); }
      }
    }

    /** The event loop takes the oldest microtask. */
    method RunMicrotask()
      requires Valid()
      modifies this
      ensures Valid()
      ensures Snapshot() == Model.RunMicrotask(old(Snapshot()))
    {
      hide SurfaceTasks.Good;
      hide Model.RunTask;
      SurfaceTheorems.EventKeeps(Snapshot(), Microtask);
      if queue != [] {
        var task := queue[0];
        queue := queue[1..];
        RunTask(task);
      }
    }

    // ---- Events from outside ----

    method SettleCreation(c: nat, ok: bool)
      requires Valid()
      modifies this
      ensures Valid()
      ensures Snapshot() == Model.SettleCreation(old(Snapshot()), c, ok)
    {
      hide SurfaceTasks.Good;
      SurfaceTheorems.EventKeeps(Snapshot(), CreationSettled(c, ok));
      if c < |creations| && creations[c].phase.Open? {
        var result := Rejected;
        if ok {
          result := Fulfilled(View(creations[c].creator.tab, ledger.nextView));
          ledger := ledger.(nextView := ledger.nextView + 1);
        }
        creations := creations[c := creations[c].(phase := Settling, result := result)];
        queue := queue + [CreationJob(c)];
      }
    }

    method SettleInit(i: nat, outcome: InitOutcome)
      requires Valid()
      modifies this
      ensures Valid()
      ensures Snapshot() == Model.SettleInit(old(Snapshot()), i, outcome)
    {
      hide SurfaceTasks.Good;
      SurfaceTheorems.EventKeeps(Snapshot(), InitSettled(i, outcome));
      if i < |initializations| && initializations[i].phase.Running? && !outcome.Undecided? {
        initializations := initializations[i := initializations[i].(phase := Reacting, outcome := outcome)];
        queue := queue + [InitJob(i)];
      }
    }

    method Reset()
      requires Valid()
      modifies this
      ensures Valid()
      ensures Snapshot() == Model.Reset(old(Snapshot()))
      ensures desired.None? && lastRevision == 0 && initializationEntries == map[]
      ensures window.visible == Strays(ledger.shown)
    {
      hide SurfaceTasks.Good;
      SurfaceTheorems.EventKeeps(Snapshot(), WasReset);
      SurfaceTheorems.WithdrawnHides(Snapshot());
      desired := None;
      lastRevision := 0;
      initializationEntries := map[];
      HideAll();
      window := window.(statuses := []);
    }

    method Destroy()
      requires Valid()
      modifies this
      ensures Valid()
      ensures Snapshot() == Model.Destroy(old(Snapshot()))
      ensures destroyed && window.visible == Strays(ledger.shown)
    {
      hide SurfaceTasks.Good;
      SurfaceTheorems.EventKeeps(Snapshot(), WasDestroyed);
      SurfaceTheorems.WithdrawnHides(Snapshot());
      destroyed := true;
      desired := None;
      initializationEntries := map[];
      HideAll();
    }
  }
}
