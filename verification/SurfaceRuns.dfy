/** Whole runs of the terminal surface controller. */
module SurfaceRuns {
  import opened Wrappers
  import opened SurfaceModel
  import opened SurfaceInvariant
  import opened SurfaceSteps
  import opened SurfaceTasks

  // ---- A request arrives ----

  lemma AcceptKeeps(s: State, surface: Surface)
    requires Inv(s) && Accepts(s, surface)
    ensures var s' := Accepted(s, surface);
            Inv(s') && NoFinalYet(s'.window.statuses, s'.lastRevision) && !s'.track.taken
  {
    var s' := Accepted(s, surface);
    MoveKeeps(s, s'.track);
    hide RegistryOk, LedgerOk, AllShownOk, CreationsOk, ResolvedBySharers, QueueOk, InitsOk, EntriesReady, ResultsOk;
  }

  lemma JoinCreations(creations: seq<Creation>, promises: map<OwnerKey, nat>, track: Track, c: nat, r: Request)
    requires CreationsOk(creations, promises, track) && track.place == Nowhere && c < |creations|
    requires IsEarly(creations[c].phase) && r.token.serial == track.lastToken
    requires r.token.terminalTabId == Some(r.tab) && CreationKey(r.token) == creations[c].key
    ensures CreationsOk(creations[c := creations[c].(waiters := creations[c].waiters + [r])], promises,
                        track.(place := AtCreation(c)))
  {
    assert CreationOk(creations[c], c, promises, track);
  }

  lemma JoinCreationResults(creations: seq<Creation>, disposed: set<View>, registry: map<TabId, View>, ledger: Ledger,
                            c: nat, r: Request)
    requires ResultsOk(creations, disposed, registry, ledger) && c < |creations|
    ensures ResultsOk(creations[c := creations[c].(waiters := creations[c].waiters + [r])], disposed, registry, ledger)
  {
  }

  lemma JoinCreationQueue(queue: seq<Task>, creations: seq<Creation>, inits: seq<Initialization>, track: Track,
                          c: nat, r: Request)
    requires QueueOk(queue, creations, inits, track) && c < |creations|
    ensures QueueOk(queue, creations[c := creations[c].(waiters := creations[c].waiters + [r])], inits, track)
  {
  }

  /** Sharing a creation that has not settled: the request joins the waiters. */
  lemma JoinEarlyKeeps(s: State, r: Request, c: nat)
    requires Inv(s) && IsAwake(s, r) && IsDesired(s, r.token) && r.tab !in s.window.registry
    requires !s.track.taken
    requires c < |s.creations| && IsEarly(s.creations[c].phase) && CreationKey(r.token) == s.creations[c].key
    ensures Inv(JoinCreation(s, r, c))
  {
    var t := s.(track := s.track.(place := AtCreation(c)));
    MoveKeeps(s, t.track);
    JoinCreations(s.creations, s.creationPromises, s.track, c, r);
    JoinCreationResults(s.creations, s.disposedViews, s.window.registry, s.ledger, c, r);
    JoinCreationQueue(s.queue, s.creations, s.initializations, t.track, c, r);
    hide StatusesOk, ReadyOk, AllShownOk, RegistryOk, LedgerOk, CreationsOk, QueueOk, InitsOk, EntriesReady, ResultsOk;
  }

  /** Sharing a creation that has settled: the continuation is queued at once. */
  lemma JoinSettledKeeps(s: State, r: Request, c: nat)
    requires Inv(s) && IsAwake(s, r) && IsDesired(s, r.token) && r.tab !in s.window.registry
    requires !s.track.taken
    requires c < |s.creations| && s.creations[c].phase.Settled? && CreationKey(r.token) == s.creations[c].key
    ensures Inv(JoinCreation(s, r, c))
  {
    var t := s.(track := s.track.(place := AtCreation(c)));
    MoveKeeps(s, t.track);
    JoinSettledTask(s, r, c);
    PlacedAtCreation(s, c);
    hide Core, ResultsOk;
    AppendKeeps(t, [ResumeWaiter(r, c)]);
  }

  lemma PlacedAtCreation(s: State, c: nat)
    requires Inv(s) && NoFinalYet(s.window.statuses, s.lastRevision)
    requires s.desired.Some? && s.desired.value.terminalTabId.Some? && !s.track.taken
    requires s.desired.value.terminalTabId.value !in s.window.registry
    requires var t := s.track.(place := AtCreation(c));
             && CreationsOk(s.creations, s.creationPromises, t) && ResolvedBySharers(s.creations, t)
             && InitsOk(s.initializations, s.initializationEntries, t)
             && QueueOk(s.queue, s.creations, s.initializations, t)
    ensures Inv(s.(track := s.track.(place := AtCreation(c))))
  {
    hide StatusesOk, ReadyOk, AllShownOk, RegistryOk, LedgerOk, CreationsOk, QueueOk, InitsOk, EntriesReady, ResultsOk;
  }

  lemma JoinSettledTask(s: State, r: Request, c: nat)
    requires Inv(s) && IsAwake(s, r) && IsDesired(s, r.token)
    requires c < |s.creations| && s.creations[c].phase.Settled? && CreationKey(r.token) == s.creations[c].key
    ensures TaskOk(ResumeWaiter(r, c), s.creations, s.initializations, s.track.(place := AtCreation(c)))
    ensures forall j | 0 <= j < |s.queue| :: OrderOk(s.queue[j], ResumeWaiter(r, c), s.creations)
  {
    hide StatusesOk, ReadyOk, AllShownOk, RegistryOk, LedgerOk, InitsOk, EntriesReady;
    assert CreationOk(s.creations[c], c, s.creationPromises, s.track);
    assert ResultOk(s.creations[c], s.disposedViews, s.window.registry, s.ledger);
    assert forall j | 0 <= j < |s.queue| :: TaskOk(s.queue[j], s.creations, s.initializations, s.track);
  }

  lemma StartCreations(creations: seq<Creation>, promises: map<OwnerKey, nat>, track: Track, r: Request)
    requires CreationsOk(creations, promises, track) && track.place == AtCreation(|creations|)
    requires r.token.terminalTabId == Some(r.tab) && r.token.serial <= track.lastToken
    requires CreationKey(r.token) !in promises
    ensures var creation := Creation(CreationKey(r.token), r, [], Open, Unsettled, false, false);
            CreationsOk(creations + [creation], promises[CreationKey(r.token) := |creations|], track)
  {
  }

  lemma StartCreationResults(creations: seq<Creation>, disposed: set<View>, registry: map<TabId, View>, ledger: Ledger,
                             creation: Creation)
    requires ResultsOk(creations, disposed, registry, ledger)
    requires creation.result.Unsettled? && !creation.claimed && !creation.disposed
    ensures ResultsOk(creations + [creation], disposed, registry, ledger)
  {
  }

  lemma StartCreationQueue(queue: seq<Task>, creations: seq<Creation>, inits: seq<Initialization>, track: Track,
                           creation: Creation)
    requires QueueOk(queue, creations, inits, track)
    ensures QueueOk(queue, creations + [creation], inits, track)
  {
  }

  lemma StartCreationKeeps(s: State, r: Request)
    requires Inv(s) && IsAwake(s, r) && IsDesired(s, r.token) && r.tab !in s.window.registry
    requires !s.track.taken
    requires CreationKey(r.token) !in s.creationPromises
    ensures Inv(RequestCreation(s, r, ReturnsPromise))
  {
    var creation := Creation(CreationKey(r.token), r, [], Open, Unsettled, false, false);
    var t := s.track.(place := AtCreation(|s.creations|));
    MoveKeeps(s, t);
    StartCreations(s.creations, s.creationPromises, t, r);
    StartCreationResults(s.creations, s.disposedViews, s.window.registry, s.ledger, creation);
    StartCreationQueue(s.queue, s.creations, s.initializations, t, creation);
    hide StatusesOk, ReadyOk, AllShownOk, RegistryOk, LedgerOk, CreationsOk, QueueOk, InitsOk, EntriesReady, ResultsOk;
  }

  /** `createView` hands over the view at once. */
  lemma NewViewKeeps(s: State, r: Request, view: View)
    requires Inv(s) && IsAwake(s, r) && IsDesired(s, r.token) && r.tab !in s.window.registry
    requires !s.track.taken
    requires view == View(r.tab, s.ledger.nextView)
    ensures var t := Adopt(s.(ledger := s.ledger.(nextView := s.ledger.nextView + 1)), view);
            && Inv(t) && IsAwake(t, r) && IsDesired(t, r.token)
            && WasRegistered(t.ledger, view) && Maps(t.window.registry, view) && !t.track.taken
  {
    var t := s.(ledger := s.ledger.(nextView := s.ledger.nextView + 1));
    FreshView(s, view);
    GrowKeeps(s);
    AdoptFreshResults(t.creations, t.disposedViews, t.window.registry, t.ledger, view);
    hide Core, ResultsOk;
    AdoptKeeps(t, view);
  }

  lemma FreshView(s: State, view: View)
    requires Inv(s) && s.ledger.nextView <= view.serial
    ensures s.ledger.registrations[view] == 0 && s.ledger.disposals[view] == 0
    ensures view !in s.disposedViews && !Maps(s.window.registry, view)
    ensures s.ledger.warmLimit <= view.serial
    ensures forall c | 0 <= c < |s.creations| :: s.creations[c].result != Fulfilled(view)
  {
    hide StatusesOk, ReadyOk, AllShownOk, CreationsOk, QueueOk, InitsOk, EntriesReady, PlaceOk;
  }

  lemma GrowKeeps(s: State)
    requires Inv(s)
    ensures Inv(s.(ledger := s.ledger.(nextView := s.ledger.nextView + 1)))
  {
    hide StatusesOk, ReadyOk, AllShownOk, CreationsOk, QueueOk, InitsOk, EntriesReady;
  }

  lemma AdoptFreshResults(creations: seq<Creation>, disposed: set<View>, registry: map<TabId, View>, ledger: Ledger,
                          view: View)
    requires ResultsOk(creations, disposed, registry, ledger)
    requires forall c | 0 <= c < |creations| :: creations[c].result != Fulfilled(view)
    ensures ResultsOk(creations, disposed, registry[view.terminalTabId := view], Registered(ledger, view))
  {
  }

  lemma RequestCreationKeeps(s: State, r: Request, created: CreateOutcome)
    requires Inv(s) && IsAwake(s, r) && IsDesired(s, r.token) && r.tab !in s.window.registry
    requires !s.track.taken
    ensures Inv(RequestCreation(s, r, created))
  {
    hide Core, ResultsOk;
    var key := CreationKey(r.token);
    if key in s.creationPromises {
      MappedCreation(s, key);
      var c := s.creationPromises[key];
      if IsEarly(s.creations[c].phase) {
        JoinEarlyKeeps(s, r, c);
      } else {
        JoinSettledKeeps(s, r, c);
      }
    } else {
      match created {
        case Throws => EmitErrorKeeps(s, r);
        case ReturnsPromise => StartCreationKeeps(s, r);
        case ReturnsView =>
          var view := View(r.tab, s.ledger.nextView);
          NewViewKeeps(s, r, view);
          PrepareKeeps(Adopt(s.(ledger := s.ledger.(nextView := s.ledger.nextView + 1)), view), r, view);
      }
    }
  }

  lemma MappedCreation(s: State, key: OwnerKey)
    requires Inv(s) && key in s.creationPromises
    ensures var c := s.creationPromises[key];
            c < |s.creations| && s.creations[c].key == key && IsMapped(s.creations[c].phase)
  {
    hide StatusesOk, ReadyOk, AllShownOk, RegistryOk, LedgerOk, ResolvedBySharers, EntriesReady, InitsOk, ResultsOk,
      QueueOk;
    var c := s.creationPromises[key];
    assert CreationOk(s.creations[c], c, s.creationPromises, s.track);
  }

  lemma RegisteredView(s: State, tab: TabId)
    requires Inv(s) && tab in s.window.registry
    ensures WasRegistered(s.ledger, s.window.registry[tab]) && Maps(s.window.registry, s.window.registry[tab])
    ensures s.window.registry[tab].terminalTabId == tab
  {
    hide StatusesOk, ReadyOk, AllShownOk, CreationsOk, QueueOk, InitsOk, EntriesReady, PlaceOk, ResultsOk;
  }

  lemma RequestKeeps(s: State, surface: Surface, created: CreateOutcome)
    requires Inv(s)
    ensures Inv(RequestSurface(s, surface, created))
  {
    hide Core, ResultsOk;
    if Accepts(s, surface) {
      AcceptKeeps(s, surface);
      var s1 := Accepted(s, surface);
      var token := s1.desired.value;
      match surface.terminalTabId {
        case None =>
          HideAllKeeps(s1);
          EmitKeeps(HideAll(s1), Idle, token);
        case Some(tab) =>
          var r := Request(token, tab, surface.width, surface.height);
          EmitKeeps(s1, Loading, token);
          if tab in s.window.registry {
            RegisteredView(s1, tab);
            var view := s1.window.registry[tab];
            PrepareKeeps(if view in s1.unreadyViews then Emit(s1, Loading, token) else s1, r, view);
          } else {
            RequestCreationKeeps(Emit(s1, Loading, token), r, created);
          }
      }
    }
  }

  // ---- What the environment does ----

  lemma SettledCreations(creations: seq<Creation>, promises: map<OwnerKey, nat>, track: Track,
                         c: nat, result: CreationResult)
    requires CreationsOk(creations, promises, track) && c < |creations| && creations[c].phase.Open?
    requires !result.Unsettled?
    ensures CreationsOk(creations[c := creations[c].(phase := Settling, result := result)], promises, track)
  {
    assert CreationOk(creations[c], c, promises, track);
  }

  lemma SettledResults(creations: seq<Creation>, disposed: set<View>, registry: map<TabId, View>, ledger: Ledger,
                       c: nat, result: CreationResult)
    requires ResultsOk(creations, disposed, registry, ledger) && c < |creations| && creations[c].phase.Open?
    requires creations[c].result.Unsettled? && !result.Unsettled?
    requires result.Fulfilled? ==>
               && result.view.terminalTabId == creations[c].creator.tab
               && ledger.warmLimit <= result.view.serial < ledger.nextView
               && ledger.registrations[result.view] == 0 && result.view !in disposed && !Maps(registry, result.view)
               && forall d | 0 <= d < |creations| :: creations[d].result != result
    ensures ResultsOk(creations[c := creations[c].(phase := Settling, result := result)], disposed, registry, ledger)
  {
    assert ResultOk(creations[c], disposed, registry, ledger);
  }

  lemma SettledQueue(queue: seq<Task>, creations: seq<Creation>, inits: seq<Initialization>, track: Track,
                     c: nat, result: CreationResult)
    requires QueueOk(queue, creations, inits, track) && c < |creations| && creations[c].phase.Open?
    ensures QueueOk(queue, creations[c := creations[c].(phase := Settling, result := result)], inits, track)
    ensures CreationJob(c) !in queue
    ensures forall k | 0 <= k < |queue| :: queue[k].ResumeWaiter? ==> queue[k].creation != c
  {
    assert forall k | 0 <= k < |queue| :: TaskOk(queue[k], creations, inits, track);
  }

  lemma SettledCreationCore(s: State, c: nat, result: CreationResult)
    requires Inv(s) && c < |s.creations| && s.creations[c].phase.Open?
    requires var creations := s.creations[c := s.creations[c].(phase := Settling, result := result)];
             && CreationsOk(creations, s.creationPromises, s.track)
             && ResultsOk(creations, s.disposedViews, s.window.registry, s.ledger)
             && QueueOk(s.queue, creations, s.initializations, s.track)
    requires CreationJob(c) !in s.queue
    requires forall k | 0 <= k < |s.queue| :: s.queue[k].ResumeWaiter? ==> s.queue[k].creation != c
    ensures Inv(SetCreation(s, c, s.creations[c].(phase := Settling, result := result))
                  .(queue := s.queue + [CreationJob(c)]))
  {
    hide StatusesOk, ReadyOk, AllShownOk, RegistryOk, LedgerOk, CreationsOk, QueueOk, InitsOk, EntriesReady;
    var t := SetCreation(s, c, s.creations[c].(phase := Settling, result := result));
    assert ResultOk(s.creations[c], s.disposedViews, s.window.registry, s.ledger);
    assert Core(t);
    AppendKeeps(t, [CreationJob(c)]);
  }

  lemma SettlePieces(s: State, c: nat, result: CreationResult)
    requires Inv(s) && c < |s.creations| && s.creations[c].phase.Open? && !result.Unsettled?
    requires result.Fulfilled? ==>
               && result.view.terminalTabId == s.creations[c].creator.tab
               && s.ledger.warmLimit <= result.view.serial < s.ledger.nextView
               && s.ledger.registrations[result.view] == 0 && result.view !in s.disposedViews
               && !Maps(s.window.registry, result.view)
               && forall d | 0 <= d < |s.creations| :: s.creations[d].result != result
    ensures Inv(SetCreation(s, c, s.creations[c].(phase := Settling, result := result))
                  .(queue := s.queue + [CreationJob(c)]))
  {
    hide StatusesOk, ReadyOk, AllShownOk, RegistryOk, LedgerOk, QueueOk, InitsOk, EntriesReady, PlaceOk, ResultsOk;
    assert CreationOk(s.creations[c], c, s.creationPromises, s.track);
    SettledCreations(s.creations, s.creationPromises, s.track, c, result);
    SettledResults(s.creations, s.disposedViews, s.window.registry, s.ledger, c, result);
    SettledQueue(s.queue, s.creations, s.initializations, s.track, c, result);
    SettledCreationCore(s, c, result);
  }

  lemma SettleCreationKeeps(s: State, c: nat, ok: bool)
    requires Inv(s)
    ensures Inv(SettleCreation(s, c, ok))
  {
    hide Core, ResultsOk;
    if c < |s.creations| && s.creations[c].phase.Open? {
      if ok {
        var view := View(s.creations[c].creator.tab, s.ledger.nextView);
        FreshView(s, view);
        GrowKeeps(s);
        SettlePieces(s.(ledger := s.ledger.(nextView := s.ledger.nextView + 1)), c, Fulfilled(view));
      } else {
        SettlePieces(s, c, Rejected);
      }
    }
  }

  lemma SettleInitKeeps(s: State, i: nat, outcome: InitOutcome)
    requires Inv(s)
    ensures Inv(SettleInit(s, i, outcome))
  {
    if i < |s.initializations| && s.initializations[i].phase.Running? && !outcome.Undecided? {
      assert InitOk(s.initializations[i], i, s.track);
      assert InitJob(i) !in s.queue by {
        assert forall k | 0 <= k < |s.queue| :: TaskOk(s.queue[k], s.creations, s.initializations, s.track);
      }
      hide Core, ResultsOk;
      InitNextJob(s, i, s.initializations[i].(phase := Reacting, outcome := outcome));
    }
  }

  lemma ChangeIdentityKeeps(s: State, identity: Identity)
    requires Inv(s)
    ensures Inv(ChangeIdentity(s, identity))
  {
    hide StatusesOk, ReadyOk, AllShownOk, RegistryOk, LedgerOk, CreationsOk, ResolvedBySharers, QueueOk, InitsOk,
      EntriesReady, ResultsOk;
  }

  lemma KindsKeep(s: State, views: set<View>)
    requires Inv(s)
    ensures Inv(s.(window := s.window.(terminalViews := views)))
  {
    hide StatusesOk, ReadyOk, AllShownOk, RegistryOk, LedgerOk, CreationsOk, ResolvedBySharers, QueueOk, InitsOk,
      EntriesReady, ResultsOk;
  }

  lemma WithdrawKeeps(s: State)
    requires Inv(s)
    ensures Inv(s.(desired := None, initializationEntries := map[]))
  {
    hide StatusesOk, ReadyOk, AllShownOk, RegistryOk, LedgerOk, CreationsOk, ResolvedBySharers, QueueOk, ResultsOk;
  }

  lemma ResetKeeps(s: State)
    requires Inv(s)
    ensures Inv(Reset(s))
    ensures Reset(s).window.visible == Strays(s.ledger.shown)
  {
    WithdrawKeeps(s);
    HideAllKeeps(s.(desired := None, initializationEntries := map[]));
    hide AllShownOk, RegistryOk, LedgerOk, CreationsOk, ResolvedBySharers, QueueOk, InitsOk, EntriesReady, ResultsOk;
  }

  lemma DestroyKeeps(s: State)
    requires Inv(s)
    ensures Inv(Destroy(s))
    ensures Destroy(s).window.visible == Strays(s.ledger.shown)
  {
    WithdrawKeeps(s);
    HideAllKeeps(s.(desired := None, initializationEntries := map[]));
    hide AllShownOk, RegistryOk, LedgerOk, CreationsOk, ResolvedBySharers, QueueOk, InitsOk, EntriesReady, ResultsOk;
  }
}
