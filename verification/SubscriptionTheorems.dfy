/** What the subscription tables guarantee, over all runs and over whole suspensions. */
module SubscriptionTheorems {
  import opened SubscriptionModel

  // ---- Every run ----

  /**
   In every run the registry keeps exactly the paths of the active subscriptions, every active or
   pending key is indexed under its own sender, and no active subscription has a destroyed sender.
   */
  lemma ReferencesAreActive(events: seq<Event>)
    ensures var s := Run(Initial(), events);
            && s.references == (set k | k in s.active :: (k.path, k))
            && (forall k | k in s.active || k in s.pending :: In(s.bySender, k.sender, k))
            && (forall x, k: Key | In(s.bySender, x, k) :: k.sender == x)
            && (forall k | k in s.active ::
                  k.sender !in s.destroyed && k.path in s.live && s.active[k] == s.live[k.path])
  {
    RunKeeps(Initial(), events);
    var s := Run(Initial(), events);
    var pairs := set k | k in s.active :: (k.path, k);
    forall p
      ensures p in s.references <==> p in pairs
    {
      if p in s.references {
        assert p == (p.1.path, p.1);
      }
    }
  }

  /** Releasing a sender leaves it nothing, and takes nothing from anybody else. */
  lemma ReleaseAllLeavesNothing(s: State, x: nat)
    requires Inv(s)
    ensures var after := ReleaseAll(s, {x});
            && Inv(after) && x !in after.bySender
            && (forall k: Key | k.sender == x ::
                  k !in after.active && k !in after.pending && (k.path, k) !in after.references)
            && (forall k: Key | k.sender != x ::
                  && (k in after.active <==> k in s.active) && (k in s.active ==> after.active[k] == s.active[k])
                  && (k in after.pending <==> k in s.pending)
                  && ((k.path, k) in after.references <==> (k.path, k) in s.references))
  {
    ReleaseKeeps(s, KeysOf(s, {x}));
    forall k: Key | k.sender != x
      ensures k !in KeysOf(s, {x})
    {
    }
  }

  /** Releasing subscriptions takes exactly them out of every table, and nobody else's. */
  lemma ReleasedAreGone(s: State, keys: set<Key>)
    requires Inv(s)
    ensures var after := Release(s, keys);
            && Inv(after) && after.destroyed == s.destroyed && after.live == s.live && after.armed == s.armed
            && after.active == s.active - keys && after.pending == s.pending - keys
            && after.references == s.references - Pairs(keys)
            && (forall x, k: Key :: In(after.bySender, x, k) <==>
                  In(s.bySender, x, k) && (k !in keys || (k !in s.active && k !in s.pending)))
  {
    ReleaseKeeps(s, keys);
    UntrackMembers(s.bySender, keys * (s.active.Keys + s.pending));
    ReleasedReferences(s, keys);
    hide Untrack, OwnIndex, Armed, Indexed, ActiveOk, ReferencesOk;
  }

  lemma ReleasedReferences(s: State, keys: set<Key>)
    requires ReferencesOk(s.active, s.references)
    ensures Release(s, keys).references == s.references - Pairs(keys)
  {
    hide Untrack;
  }

  /** An unsubscribed key is in no table, not even as a leftover of the index. */
  lemma UnsubscribeLeavesNothing(s: State, k: Key)
    requires Inv(s)
    ensures var after := Unsubscribe(s, k);
            && Inv(after) && after.destroyed == s.destroyed && after.live == s.live && after.armed == s.armed
            && after.active == s.active - {k} && after.pending == s.pending - {k}
            && after.references == s.references - {(k.path, k)}
            && (forall x, j: Key :: In(after.bySender, x, j) <==> In(s.bySender, x, j) && j != k)
  {
    UnsubscribeKeeps(s, k);
    ReleasedAreGone(s, {k});
    assert Pairs({k}) == {(k.path, k)};
    UntrackMembers(Release(s, {k}).bySender, {k});
    OnlyOwnIndex(Release(s, {k}));
    hide Release, Untrack, Inv;
  }

  lemma OnlyOwnIndex(s: State)
    requires Inv(s)
    ensures forall x, k: Key :: In(s.bySender, x, k) ==> k.sender == x
  {
  }

  /** A renderer loses exactly its subscriptions of another workspace or another generation. */
  lemma StaleReleasedExactly(s: State, x: nat, workspace: string, generation: int)
    requires Inv(s)
    ensures var after := Apply(s, StaleReleased(x, workspace, generation));
            && Inv(after)
            && (forall k :: k in after.active <==>
                  k in s.active && (k.sender == x ==> k.workspace == workspace && k.generation == generation))
            && (forall k :: k in after.pending <==>
                  k in s.pending && (k.sender == x ==> k.workspace == workspace && k.generation == generation))
  {
    ReleasedAreGone(s, StaleKeys(s, x, workspace, generation));
    hide Release, Inv;
  }

  /** A subscription that is asked for waits, unless its sender is gone; nothing else changes for anybody. */
  lemma AskedForWaits(s: State, k: Key)
    requires Inv(s)
    ensures var after := Apply(s, AskedFor(k));
            && Inv(after) && after.active == s.active && after.references == s.references && after.live == s.live
            && after.pending == s.pending + (if k.sender in s.destroyed then {} else {k})
            && (k.sender !in s.destroyed ==> In(after.bySender, k.sender, k) && k.sender in after.armed)
  {
    EventKeeps(s, AskedFor(k));
    if k.sender !in s.destroyed {
      assert k in Apply(s, AskedFor(k)).pending;
    }
  }

  ghost predicate NoOrphans(s: State) {
    forall k | k in s.pending :: k.sender !in s.destroyed
  }

  /**
   A destroyed sender keeps no pending subscription either, with one exception: a restore whose
   sender died while it was being authorized again puts the key back.
   */
  lemma OrphansComeFromRestore(s: State, e: Event)
    requires Inv(s) && NoOrphans(s)
    ensures NoOrphans(Apply(s, e)) <==> !(e.PutBack? && e.key.sender in s.destroyed)
  {
    match e {
      case PutBack(k) => assert k in Apply(s, e).pending;
      case SendersDestroyed(senders) => DestroyedLoseAll(s, senders);
      case _ =>
    }
  }

  lemma DestroyedLoseAll(s: State, senders: set<nat>)
    requires Inv(s)
    ensures Destroy(s, senders).destroyed == s.destroyed + senders && Destroy(s, senders).live == s.live
    ensures forall k: Key | k.sender in senders - s.destroyed ::
              k !in Destroy(s, senders).active && k !in Destroy(s, senders).pending
    ensures forall k: Key | k.sender !in senders - s.destroyed ::
              && (k in Destroy(s, senders).active <==> k in s.active)
              && (k in Destroy(s, senders).pending <==> k in s.pending)
  {
    var fired := (senders - s.destroyed) * s.armed;
    forall k: Key | k.sender in senders - s.destroyed && (k in s.active || k in s.pending)
      ensures k in KeysOf(s, fired)
    {
      assert k.sender in s.bySender;
    }
  }

  // ---- Suspending, then committing or restoring ----

  /** Suspending a path leaves nothing active on it and loses no subscription. */
  lemma SuspendLosesNothing(s: State, path: string)
    requires Inv(s)
    ensures var after := Suspend(s, path);
            && Inv(after)
            && ActiveOn(after, path) == {}
            && after.active.Keys + after.pending == s.active.Keys + s.pending
            && PendingOn(after, path) == ActiveOn(s, path) + PendingOn(s, path)
            && (forall k: Key | k.path != path ::
                  && (k in after.active <==> k in s.active) && (k in s.active ==> after.active[k] == s.active[k])
                  && (k in after.pending <==> k in s.pending))
            && (forall p | p in after.references :: p.0 != path)
  {
    EventKeeps(s, Suspended(path));
    SuspendMoves(s, path);
    hide Indexed, OwnIndex, Armed, ActiveOk, Suspend;
    var after := Suspend(s, path);
    assert forall k: Key :: k in ActiveOn(s, path) <==> k in s.active && k.path == path;
    assert forall p | p in after.references :: p.1 in after.active;
  }

  lemma SuspendMoves(s: State, path: string)
    ensures var after := Suspend(s, path);
            && (forall k :: k in after.active <==> k in s.active && k.path != path)
            && (forall k | k in after.active :: after.active[k] == s.active[k])
            && (forall k :: k in after.pending <==> k in s.pending || (k in s.active && k.path == path))
  {
    hide Pairs;
  }

  /** Suspending a path and committing removes exactly its subscriptions, active and pending ones. */
  lemma SuspendCommitRemoves(s: State, path: string)
    requires Inv(s)
    ensures var suspended := Suspend(s, path);
            var after := Release(suspended, PendingOn(suspended, path));
            && Inv(after)
            && after.active == s.active - ActiveOn(s, path)
            && after.pending == s.pending - PendingOn(s, path)
            && after.references == s.references - Pairs(ActiveOn(s, path))
            && (forall x, k: Key :: In(after.bySender, x, k) <==>
                  In(s.bySender, x, k) && k !in ActiveOn(s, path) + PendingOn(s, path))
  {
    SuspendLosesNothing(s, path);
    var suspended := Suspend(s, path);
    var gone := PendingOn(suspended, path);
    ReleaseKeeps(suspended, gone);
    UntrackMembers(s.bySender, gone);
    assert gone * (suspended.active.Keys + suspended.pending) == gone;
    assert suspended.active - gone == suspended.active;
    assert suspended.references - Pairs(gone) == suspended.references;
    assert suspended.pending - gone == s.pending - PendingOn(s, path);
    assert Release(suspended, gone).bySender == Untrack(s.bySender, gone);
    hide Inv;
  }

  /** Everything a restore may leave of an intent: active on the live runtime, waiting for one, or gone. */
  ghost predicate Settled(s: State, k: Key) {
    && !(k in s.active && k in s.pending)
    && (k in s.active ==> k.path in s.live && s.active[k] == s.live[k.path] && k.sender !in s.destroyed)
    && (k in s.pending ==> k.path !in s.live)
    && (k !in s.active && k !in s.pending ==> (k.path, k) !in s.references)
  }

  predicate Alive(s: State, k: Key, lost: set<nat>) {
    k.sender !in s.destroyed && k.sender !in lost
  }

  /** Its sender lives through all awaits, and nobody releases it once it is subscribed. */
  predicate Outlives(s: State, k: Key, w: Weather) {
    && Alive(s, k, w.atAuthorization.lost + w.atGuard.lost + w.atValidation.lost)
    && k !in w.atValidation.released
  }

  /** Put back, it is not released at the guard: by nobody, and not by its sender's listener. */
  predicate StaysPending(k: Key, w: Weather) {
    k !in w.atGuard.released && (k.sender in w.atGuard.lost ==> k.sender in w.atAuthorization.lost)
  }

  // ---- What an event may do to one key ----

  /** The event is about this subscription, its sender or the runtime of its path. */
  predicate Concerns(e: Event, k: Key) {
    match e
    case Released(j) => j == k
    case Unsubscribed(j) => j == k
    case StaleReleased(sender, _, _) => sender == k.sender
    case AskedFor(j) => j == k
    case Dropped(j) => j == k
    case Attached(j) => j == k
    case Suspended(path) => path == k.path
    case Committed(keys) => k in keys
    case PutBack(j) => j == k
    case SendersDestroyed(senders) => k.sender in senders
    case RuntimeStarted(path, _) => path == k.path
    case RuntimeStopped(path) => path == k.path
  }

  /** Apart from deaths and releases, the pause is about other subscriptions. */
  predicate LeavesAlone(pause: Pause, k: Key) {
    forall e | e in pause.others :: !Concerns(e, k)
  }

  predicate Undisturbed(w: Weather, k: Key) {
    LeavesAlone(w.atAuthorization, k) && LeavesAlone(w.atGuard, k) && LeavesAlone(w.atValidation, k)
  }

  predicate SameRuntime(s: State, after: State, path: string) {
    (path in after.live <==> path in s.live) && (path in s.live ==> after.live[path] == s.live[path])
  }

  ghost predicate SameFor(s: State, after: State, k: Key) {
    && (k in after.active <==> k in s.active) && (k in after.pending <==> k in s.pending)
    && (k.sender in after.destroyed <==> k.sender in s.destroyed) && SameRuntime(s, after, k.path)
  }

  lemma OtherEvent(s: State, e: Event, k: Key)
    requires Inv(s) && !Concerns(e, k)
    ensures Inv(Apply(s, e)) && SameFor(s, Apply(s, e), k)
  {
    EventKeeps(s, e);
    if e.SendersDestroyed? {
      DestroyedLoseAll(s, e.senders);
      hide Destroy;
    } else {
      OtherTables(s, e, k);
      hide Apply;
    }
    hide Inv;
  }

  lemma OtherTables(s: State, e: Event, k: Key)
    requires !Concerns(e, k) && !e.SendersDestroyed?
    ensures SameFor(s, Apply(s, e), k)
  {
    hide Untrack, Pairs;
  }

  lemma {:induction false} OtherEvents(s: State, events: seq<Event>, k: Key)
    requires Inv(s) && forall e | e in events :: !Concerns(e, k)
    ensures Inv(Run(s, events)) && SameFor(s, Run(s, events), k)
    decreases |events|
  {
    if events != [] {
      assert events[0] in events;
      OtherEvent(s, events[0], k);
      hide Inv, Apply, Concerns;
      assert forall e | e in events[1..] :: e in events;
      OtherEvents(Apply(s, events[0]), events[1..], k);
    }
  }

  lemma MeanwhileKeeps(s: State, pause: Pause)
    requires Inv(s)
    ensures Inv(Meanwhile(s, pause))
  {
    DestroyKeeps(s, pause.lost);
    ReleaseKeeps(Destroy(s, pause.lost), pause.released);
    hide Inv, Destroy, Release;
    RunKeeps(Release(Destroy(s, pause.lost), pause.released), pause.others);
  }

  /** An await keeps the invariant, and takes away what the dead senders had and what was released. */
  lemma MeanwhileExact(s: State, pause: Pause, k: Key)
    requires Inv(s) && LeavesAlone(pause, k)
    ensures var t := Meanwhile(s, pause);
            && Inv(t) && SameRuntime(s, t, k.path)
            && (k.sender in t.destroyed <==> k.sender in s.destroyed || k.sender in pause.lost)
            && (k in t.active <==> k in s.active && k !in pause.released && k.sender !in pause.lost - s.destroyed)
            && (k in t.pending <==> k in s.pending && k !in pause.released && k.sender !in pause.lost - s.destroyed)
  {
    DestroyKeeps(s, pause.lost);
    DestroyedLoseAll(s, pause.lost);
    ReleaseKeeps(Destroy(s, pause.lost), pause.released);
    hide Destroy, Inv;
    OtherEvents(Release(Destroy(s, pause.lost), pause.released), pause.others, k);
    hide Run;
  }

  lemma SubscribeAfterValidationExact(s: State, k: Key, w: Weather)
    requires Inv(s) && LeavesAlone(w.atValidation, k)
    ensures var (after, ok) := SubscribeAfterValidation(s, k, w);
            && Inv(after) && k !in after.pending && SameRuntime(s, after, k.path)
            && (ok || k !in after.active)
            && (k in after.active <==>
                  || k in s.active
                  || (k.path in s.live && Alive(s, k, w.atValidation.lost) && w.validated
                      && k !in w.atValidation.released))
  {
    if CanAttach(s, k) {
      AttachKeeps(s, k);
      var attached := Attach(s, k);
      MeanwhileExact(attached, w.atValidation, k);
      var later := Meanwhile(attached, w.atValidation);
      ReleaseKeeps(later, {k});
      hide Meanwhile;
    }
  }

  lemma SubscribeToOwnerExact(s: State, k: Key, w: Weather)
    requires Inv(s) && k.path in s.live && LeavesAlone(w.atGuard, k) && LeavesAlone(w.atValidation, k)
    ensures var (after, ok) := SubscribeToOwner(s, k, w);
            && Inv(after) && k !in after.pending && SameRuntime(s, after, k.path)
            && (ok ==>
                  (k in after.active <==>
                    || k in s.active
                    || (Alive(s, k, w.atGuard.lost + w.atValidation.lost) && w.guarded && w.validated
                        && k !in w.atValidation.released)))
            && (!ok ==> k !in after.active && k !in s.active && !(w.guarded && w.validated))
  {
    var dropped := Drop(s, k);
    if k.sender !in s.destroyed && k !in s.active {
      MeanwhileExact(dropped, w.atGuard, k);
      SubscribeAfterValidationExact(Meanwhile(dropped, w.atGuard), k, w);
      hide Meanwhile, SubscribeAfterValidation;
    }
  }

  lemma ReleaseAbsent(s: State, k: Key)
    requires Inv(s)
    ensures var after := Release(s, {k});
            Inv(after) && Settled(after, k) && after.live == s.live && k !in after.active && k !in after.pending
  {
    ReleaseKeeps(s, {k});
  }

  lemma SettledWhen(s: State, k: Key)
    requires Inv(s) && !(k in s.active && k in s.pending) && (k in s.pending ==> k.path !in s.live)
    ensures Settled(s, k)
  {
  }

  lemma ReattachExact(s: State, back: State, k: Key, w: Weather, leased: bool)
    requires Inv(back) && k in back.pending && k !in back.active
    requires k.sender !in s.destroyed && SameRuntime(s, back, k.path) && Undisturbed(w, k)
    requires k.sender in back.destroyed <==> k.sender in w.atAuthorization.lost
    ensures var after := Reattach(back, k, w, leased);
            && Inv(after) && Settled(after, k) && SameRuntime(s, after, k.path)
            && (k in after.active <==>
                  && k.path in s.live && w.guarded && w.validated
                  && Outlives(s, k, w))
            && (k in after.pending <==>
                  && k.path !in s.live
                  && (leased ==> w.guarded && StaysPending(k, w)))
  {
    hide SubscribeAfterValidation, SubscribeToOwner, Meanwhile, Release, ReferencesOk, Indexed, OwnIndex, Armed;
    if leased {
      MeanwhileExact(back, w.atGuard, k);
      var entered := Meanwhile(back, w.atGuard);
      ReleaseAbsent(entered, k);
      if w.guarded && k.path in entered.live {
        SubscribeAfterValidationExact(entered, k, w);
        ReleaseAbsent(SubscribeAfterValidation(entered, k, w).0, k);
      }
    } else if k.path in back.live {
      SubscribeToOwnerExact(back, k, w);
      ReleaseAbsent(SubscribeToOwner(back, k, w).0, k);
    }
    SettledWhen(Reattach(back, k, w, leased), k);
  }

  /**
   The verdict on one suspended intent, whatever happens to its sender and its authorization meanwhile,
   and whoever else subscribes.
   */
  lemma RestoreOneExact(s: State, k: Key, w: Weather, leased: bool)
    requires Inv(s) && k !in s.active && Undisturbed(w, k)
    ensures var after := RestoreOne(s, k, w, leased);
            && Inv(after) && Settled(after, k) && SameRuntime(s, after, k.path)
            && (k in after.active <==>
                  && k.path in s.live && w.authorized && w.guarded && w.validated
                  && Outlives(s, k, w))
            && (k in after.pending <==>
                  && k.path !in s.live && w.authorized && k.sender !in s.destroyed
                  && (leased ==> w.guarded && StaysPending(k, w)))
  {
    ReleaseAbsent(s, k);
    if k.sender !in s.destroyed {
      var later := Meanwhile(s, w.atAuthorization);
      MeanwhileExact(s, w.atAuthorization, k);
      ReleaseAbsent(later, k);
      if w.authorized {
        PutBackExact(later, k);
        ReattachExact(s, Apply(later, PutBack(k)), k, w, leased);
      }
    }
    hide Meanwhile, Reattach, Inv, Release, Settled;
  }

  lemma PutBackExact(s: State, k: Key)
    requires Inv(s)
    ensures var back := Apply(s, PutBack(k));
            && Inv(back) && back.live == s.live && back.destroyed == s.destroyed && back.active == s.active
            && k in back.pending
  {
    EventKeeps(s, PutBack(k));
  }

  /** Exactly when that leaves a subscription waiting for a sender that is gone. */
  lemma RestoreOneOrphans(s: State, k: Key, w: Weather, leased: bool)
    requires Inv(s) && k !in s.active && Undisturbed(w, k)
    ensures var after := RestoreOne(s, k, w, leased);
            k in after.pending && k.sender in after.destroyed <==>
              && k.path !in s.live && k.sender !in s.destroyed
              && k.sender in w.atAuthorization.lost && w.authorized
              && (leased ==> w.guarded && k !in w.atGuard.released)
  {
    RestoreOneExact(s, k, w, leased);
    if k.path !in s.live && k.sender !in s.destroyed {
      var later := Meanwhile(s, w.atAuthorization);
      MeanwhileExact(s, w.atAuthorization, k);
      PutBackExact(later, k);
      MeanwhileExact(Apply(later, PutBack(k)), w.atGuard, k);
      hide Release;
    }
    hide Meanwhile, Inv, SubscribeAfterValidation, SubscribeToOwner, Settled;
  }

  // ---- Whole restores ----

  predicate IsQuiet(pause: Pause) {
    pause.lost == {} && pause.released == {} && pause.others == []
  }

  predicate Calm(w: Weather) {
    IsQuiet(w.atAuthorization) && IsQuiet(w.atGuard) && IsQuiet(w.atValidation)
  }

  predicate Passes(w: Weather) {
    Calm(w) && w.authorized && w.guarded && w.validated
  }

  /** If nothing happened meanwhile, only `k` has changed. */
  ghost predicate Spares(s: State, after: State, k: Key, calm: bool) {
    calm ==>
      && after.destroyed == s.destroyed && after.live == s.live
      && forall j: Key | j != k :: (j in after.active <==> j in s.active) && (j in after.pending <==> j in s.pending)
  }

  lemma MeanwhileSpares(s: State, pause: Pause, k: Key)
    ensures Spares(s, Meanwhile(s, pause), k, IsQuiet(pause))
  {
  }

  lemma SubscribeAfterValidationSpares(s: State, k: Key, w: Weather)
    ensures Spares(s, SubscribeAfterValidation(s, k, w).0, k, IsQuiet(w.atValidation))
  {
    MeanwhileSpares(Attach(s, k), w.atValidation, k);
    hide Meanwhile;
  }

  lemma SubscribeToOwnerSpares(s: State, k: Key, w: Weather)
    ensures Spares(s, SubscribeToOwner(s, k, w).0, k, IsQuiet(w.atGuard) && IsQuiet(w.atValidation))
  {
    var later := Meanwhile(Drop(s, k), w.atGuard);
    MeanwhileSpares(Drop(s, k), w.atGuard, k);
    SubscribeAfterValidationSpares(later, k, w);
    hide Meanwhile, SubscribeAfterValidation;
  }

  lemma ReattachSpares(s: State, k: Key, w: Weather, leased: bool)
    ensures Spares(s, Reattach(s, k, w, leased), k, Calm(w))
  {
    var entered := Meanwhile(s, w.atGuard);
    MeanwhileSpares(s, w.atGuard, k);
    SubscribeAfterValidationSpares(entered, k, w);
    SubscribeToOwnerSpares(s, k, w);
    hide Meanwhile, SubscribeAfterValidation, SubscribeToOwner;
  }

  lemma RestoreOneSpares(s: State, k: Key, w: Weather, leased: bool)
    ensures Spares(s, RestoreOne(s, k, w, leased), k, Calm(w))
  {
    var later := Meanwhile(s, w.atAuthorization);
    MeanwhileSpares(s, w.atAuthorization, k);
    ReattachSpares(Apply(later, PutBack(k)), k, w, leased);
    hide Meanwhile, Reattach;
  }

  ghost predicate Distinct(order: seq<Key>) {
    forall i, j | 0 <= i < j < |order| :: order[i] != order[j]
  }

  // ---- Every turn is a run of events ----

  /** Everything that happens during the awaits of a turn apart from deaths and releases. */
  function Others(w: Weather): seq<Event> {
    w.atAuthorization.others + w.atGuard.others + w.atValidation.others
  }

  function Script(weather: seq<Weather>): seq<Event> {
    if weather == [] then [] else Others(weather[0]) + Script(weather[1..])
  }

  predicate IsOwn(e: Event, k: Key) {
    e == Released(k) || e == Dropped(k) || e == Attached(k) || e == PutBack(k)
  }

  /** An event of this key's turn: its own, a death or a release, or one that the weather brings. */
  predicate OfTurn(e: Event, k: Key, w: Weather) {
    IsOwn(e, k) || OfPause(e, w.atAuthorization) || OfPause(e, w.atGuard) || OfPause(e, w.atValidation)
  }

  predicate OfPause(e: Event, pause: Pause) {
    e == SendersDestroyed(pause.lost) || e == Committed(pause.released) || e in pause.others
  }

  ghost predicate IsTurn(s: State, events: seq<Event>, after: State, k: Key, w: Weather) {
    Run(s, events) == after && forall e | e in events :: OfTurn(e, k, w)
  }

  lemma {:induction false} RunMore(s: State, first: seq<Event>, second: seq<Event>)
    ensures Run(s, first + second) == Run(Run(s, first), second)
    decreases |first|
  {
    if first == [] {
      assert first + second == second;
    } else {
      assert (first + second)[1..] == first[1..] + second;
      RunMore(Apply(s, first[0]), first[1..], second);
    }
  }

  lemma RunOne(s: State, e: Event)
    ensures Run(s, [e]) == Apply(s, e)
  {
    assert Run(s, [e]) == Run(Apply(s, e), [e][1..]);
  }

  lemma TurnThen(s: State, first: seq<Event>, middle: State, second: seq<Event>, after: State, k: Key, w: Weather)
    requires IsTurn(s, first, middle, k, w) && IsTurn(middle, second, after, k, w)
    ensures IsTurn(s, first + second, after, k, w)
  {
    RunMore(s, first, second);
    hide Run, OfTurn;
  }

  lemma TurnEvent(s: State, e: Event, k: Key, w: Weather)
    requires OfTurn(e, k, w)
    ensures IsTurn(s, [e], Apply(s, e), k, w)
  {
    RunOne(s, e);
  }

  lemma PauseTurn(s: State, pause: Pause, k: Key, w: Weather) returns (events: seq<Event>)
    requires pause == w.atAuthorization || pause == w.atGuard || pause == w.atValidation
    ensures IsTurn(s, events, Meanwhile(s, pause), k, w)
  {
    var lost, released := SendersDestroyed(pause.lost), Committed(pause.released);
    TurnEvent(s, lost, k, w);
    TurnEvent(Apply(s, lost), released, k, w);
    hide Run, Destroy, Release, Others;
    assert IsTurn(Apply(Apply(s, lost), released), pause.others, Meanwhile(s, pause), k, w);
    TurnThen(Apply(s, lost), [released], Apply(Apply(s, lost), released), pause.others, Meanwhile(s, pause), k, w);
    TurnThen(s, [lost], Apply(s, lost), [released] + pause.others, Meanwhile(s, pause), k, w);
    events := [lost] + ([released] + pause.others);
  }

  lemma ReleaseTurn(s: State, events: seq<Event>, middle: State, k: Key, w: Weather)
    requires IsTurn(s, events, middle, k, w)
    ensures IsTurn(s, events + [Released(k)], Release(middle, {k}), k, w)
  {
    TurnEvent(middle, Released(k), k, w);
    hide IsTurn;
    TurnThen(s, events, middle, [Released(k)], Release(middle, {k}), k, w);
  }

  lemma SubscribeAfterValidationTurn(s: State, k: Key, w: Weather) returns (events: seq<Event>)
    ensures IsTurn(s, events, SubscribeAfterValidation(s, k, w).0, k, w)
  {
    TurnEvent(s, Attached(k), k, w);
    events := [Attached(k)];
    if CanAttach(s, k) {
      var later := Meanwhile(Attach(s, k), w.atValidation);
      var more := PauseTurn(Attach(s, k), w.atValidation, k, w);
      hide IsTurn, Meanwhile, Attach;
      TurnThen(s, events, Attach(s, k), more, later, k, w);
      events := events + more;
      if !w.validated || k.sender in later.destroyed {
        ReleaseTurn(s, events, later, k, w);
        events := events + [Released(k)];
      }
    }
  }

  lemma SubscribeToOwnerTurn(s: State, k: Key, w: Weather) returns (events: seq<Event>)
    ensures IsTurn(s, events, SubscribeToOwner(s, k, w).0, k, w)
  {
    TurnEvent(s, Dropped(k), k, w);
    events := [Dropped(k)];
    if k.sender !in s.destroyed && k !in s.active {
      var dropped := Drop(s, k);
      var later := Meanwhile(dropped, w.atGuard);
      var more := PauseTurn(dropped, w.atGuard, k, w);
      hide IsTurn, Meanwhile, SubscribeAfterValidation;
      TurnThen(s, events, dropped, more, later, k, w);
      events := events + more;
      if w.guarded {
        var rest := SubscribeAfterValidationTurn(later, k, w);
        TurnThen(s, events, later, rest, SubscribeAfterValidation(later, k, w).0, k, w);
        events := events + rest;
      }
    }
  }

  lemma LeasedTurn(back: State, k: Key, w: Weather) returns (events: seq<Event>)
    ensures IsTurn(back, events, Reattach(back, k, w, true), k, w)
  {
    var entered := Meanwhile(back, w.atGuard);
    events := PauseTurn(back, w.atGuard, k, w);
    hide IsTurn, Meanwhile, Release, SubscribeAfterValidation;
    if !w.guarded {
      ReleaseTurn(back, events, entered, k, w);
      events := events + [Released(k)];
    } else if k.path in entered.live {
      var done := SubscribeAfterValidation(entered, k, w);
      var more := SubscribeAfterValidationTurn(entered, k, w);
      TurnThen(back, events, entered, more, done.0, k, w);
      events := events + more;
      if !done.1 {
        ReleaseTurn(back, events, done.0, k, w);
        events := events + [Released(k)];
      }
    }
  }

  lemma UnleasedTurn(back: State, k: Key, w: Weather) returns (events: seq<Event>)
    ensures IsTurn(back, events, Reattach(back, k, w, false), k, w)
  {
    events := [];
    if k.path in back.live {
      var done := SubscribeToOwner(back, k, w);
      events := SubscribeToOwnerTurn(back, k, w);
      hide IsTurn, Release, SubscribeToOwner;
      if !done.1 {
        ReleaseTurn(back, events, done.0, k, w);
        events := events + [Released(k)];
      }
    }
  }

  /** So a whole restore is one of the runs that `ReferencesAreActive` speaks of. */
  lemma RestoreOneTurn(s: State, k: Key, w: Weather, leased: bool) returns (events: seq<Event>)
    ensures IsTurn(s, events, RestoreOne(s, k, w, leased), k, w)
  {
    if k.sender in s.destroyed {
      TurnEvent(s, Released(k), k, w);
      events := [Released(k)];
    } else {
      var later := Meanwhile(s, w.atAuthorization);
      events := PauseTurn(s, w.atAuthorization, k, w);
      hide Meanwhile, Release, Reattach;
      if !w.authorized {
        ReleaseTurn(s, events, later, k, w);
        events := events + [Released(k)];
      } else {
        var back := Apply(later, PutBack(k));
        TurnEvent(later, PutBack(k), k, w);
        hide IsTurn, Apply;
        TurnThen(s, events, later, [PutBack(k)], back, k, w);
        var more;
        if leased {
          more := LeasedTurn(back, k, w);
        } else {
          more := UnleasedTurn(back, k, w);
        }
        TurnThen(s, events + [PutBack(k)], back, more, Reattach(back, k, w, leased), k, w);
        events := events + [PutBack(k)] + more;
      }
    }
  }

  lemma AttachOneTurn(s: State, k: Key, w: Weather) returns (events: seq<Event>)
    ensures IsTurn(s, events, AttachOne(s, k, w), k, w)
  {
    if k.sender in s.destroyed {
      TurnEvent(s, Dropped(k), k, w);
      events := [Dropped(k)];
    } else {
      var later := Meanwhile(s, w.atAuthorization);
      events := PauseTurn(s, w.atAuthorization, k, w);
      hide IsTurn, Meanwhile, Release, SubscribeToOwner;
      if !w.authorized {
        ReleaseTurn(s, events, later, k, w);
        events := events + [Released(k)];
      } else {
        var done := SubscribeToOwner(later, k, w);
        var more := SubscribeToOwnerTurn(later, k, w);
        TurnThen(s, events, later, more, done.0, k, w);
        events := events + more;
        if !done.1 {
          ReleaseTurn(s, events, done.0, k, w);
          events := events + [Released(k)];
        }
      }
    }
  }

  // ---- What a run may do to a key that is not its own ----

  /** The event makes the subscription wait. */
  predicate Asks(e: Event, k: Key) {
    e == AskedFor(k) || e == PutBack(k) || e == Suspended(k.path)
  }

  predicate Brings(e: Event, k: Key) {
    Asks(e, k) || e == Attached(k)
  }

  predicate Starts(e: Event, path: string) {
    e.RuntimeStarted? && e.path == path
  }

  predicate IsRuntimeEvent(e: Event) {
    e.RuntimeStarted? || e.RuntimeStopped?
  }

  /** What the events leave as it is: nobody waits, gains anything or finds a runtime unless they say so. */
  ghost predicate Framed(s: State, t: State, events: seq<Event>, k: Key) {
    && ((forall e | e in events :: !Asks(e, k)) ==>
          (k in t.pending ==> k in s.pending) && (k in t.active && k in t.pending ==> k in s.active))
    && ((forall e | e in events :: !Brings(e, k)) ==>
          (k in t.active ==> k in s.active) && (k in t.pending ==> k in s.pending))
    && ((forall e | e in events :: !Starts(e, k.path)) ==> (k.path in t.live ==> k.path in s.live))
    && ((forall e | e in events :: !IsRuntimeEvent(e)) ==> t.live == s.live)
  }

  lemma EventFrame(s: State, e: Event, k: Key)
    ensures Framed(s, Apply(s, e), [e], k)
  {
    assert e in [e];
  }

  lemma FrameThen(s: State, m: State, t: State, first: seq<Event>, second: seq<Event>, k: Key)
    requires Framed(s, m, first, k) && Framed(m, t, second, k)
    ensures Framed(s, t, first + second, k)
  {
    assert forall e | e in first :: e in first + second;
    assert forall e | e in second :: e in first + second;
    hide Asks, Brings, Starts;
  }

  lemma {:induction false} RunFrame(s: State, events: seq<Event>, k: Key)
    ensures Framed(s, Run(s, events), events, k)
    decreases |events|
  {
    if events != [] {
      EventFrame(s, events[0], k);
      RunFrame(Apply(s, events[0]), events[1..], k);
      hide Framed, Apply;
      FrameThen(s, Apply(s, events[0]), Run(Apply(s, events[0]), events[1..]), [events[0]], events[1..], k);
      assert [events[0]] + events[1..] == events;
    }
  }

  lemma OwnIsQuiet(e: Event, j: Key, k: Key, w: Weather)
    requires OfTurn(e, j, w) && j != k
    ensures Asks(e, k) || Brings(e, k) || Starts(e, k.path) || IsRuntimeEvent(e) ==> e in Others(w)
  {
  }

  /** A turn does to other keys only what the weather does. */
  lemma TurnFrame(s: State, events: seq<Event>, after: State, j: Key, w: Weather, k: Key)
    requires IsTurn(s, events, after, j, w) && j != k
    ensures Framed(s, after, Others(w), k)
  {
    RunFrame(s, events, k);
    hide Run, Others;
    forall e | e in events
      ensures Asks(e, k) || Brings(e, k) || Starts(e, k.path) || IsRuntimeEvent(e) ==> e in Others(w)
    {
      assert OfTurn(e, j, w);
      OwnIsQuiet(e, j, k, w);
    }
    hide IsTurn, Asks, Brings, Starts, IsRuntimeEvent;
  }

  lemma {:induction false} RestoreFrame(s: State, order: seq<Key>, weather: seq<Weather>, leased: bool, k: Key)
    requires |weather| == |order| && k !in order
    ensures Framed(s, Restore(s, order, weather, leased), Script(weather), k)
    decreases |order|
  {
    if order != [] {
      var after := RestoreOne(s, order[0], weather[0], leased);
      var events := RestoreOneTurn(s, order[0], weather[0], leased);
      hide RestoreOne, Framed, Others, IsTurn;
      TurnFrame(s, events, after, order[0], weather[0], k);
      RestoreFrame(after, order[1..], weather[1..], leased, k);
      FrameThen(s, after, Restore(after, order[1..], weather[1..], leased), Others(weather[0]),
                Script(weather[1..]), k);
    }
  }

  lemma PauseFrame(s: State, pause: Pause, k: Key)
    requires Inv(s) && forall e | e in pause.others :: !Asks(e, k)
    ensures Inv(Meanwhile(s, pause)) && (k in Meanwhile(s, pause).pending ==> k in s.pending)
  {
    MeanwhileKeeps(s, pause);
    RunFrame(Release(Destroy(s, pause.lost), pause.released), pause.others, k);
    hide Run, Inv, Asks, Brings;
  }

  lemma SubscribeAfterValidationLeaves(s: State, k: Key, w: Weather)
    requires Inv(s) && forall e | e in Others(w) :: !Asks(e, k)
    ensures Inv(SubscribeAfterValidation(s, k, w).0) && k !in SubscribeAfterValidation(s, k, w).0.pending
  {
    AttachKeeps(s, k);
    if CanAttach(s, k) {
      PauseFrame(Attach(s, k), w.atValidation, k);
      ReleaseKeeps(Meanwhile(Attach(s, k), w.atValidation), {k});
    }
    hide Inv, Meanwhile, Asks;
  }

  lemma SubscribeToOwnerLeaves(s: State, k: Key, w: Weather)
    requires Inv(s) && forall e | e in Others(w) :: !Asks(e, k)
    ensures Inv(SubscribeToOwner(s, k, w).0) && k !in SubscribeToOwner(s, k, w).0.pending
  {
    EventKeeps(s, Dropped(k));
    PauseFrame(Drop(s, k), w.atGuard, k);
    SubscribeAfterValidationLeaves(Meanwhile(Drop(s, k), w.atGuard), k, w);
    hide Inv, Meanwhile, Asks, SubscribeAfterValidation;
  }

  lemma ReattachSettles(back: State, k: Key, w: Weather, leased: bool)
    requires Inv(back) && forall e | e in Others(w) :: !Asks(e, k)
    ensures Inv(Reattach(back, k, w, leased)) && Settled(Reattach(back, k, w, leased), k)
  {
    var after := Reattach(back, k, w, leased);
    if leased {
      var entered := Meanwhile(back, w.atGuard);
      PauseFrame(back, w.atGuard, k);
      SubscribeAfterValidationLeaves(entered, k, w);
      ReleaseAbsent(entered, k);
      ReleaseAbsent(SubscribeAfterValidation(entered, k, w).0, k);
    } else {
      SubscribeToOwnerLeaves(back, k, w);
      ReleaseAbsent(SubscribeToOwner(back, k, w).0, k);
    }
    hide Meanwhile, Asks, SubscribeAfterValidation, SubscribeToOwner, Release, ReferencesOk, Indexed, OwnIndex, Armed;
    SettledWhen(after, k);
  }

  /** Right after its turn an intent is settled, whatever happens meanwhile, unless it is made to wait again. */
  lemma RestoreOneSettles(s: State, k: Key, w: Weather, leased: bool)
    requires Inv(s) && forall e | e in Others(w) :: !Asks(e, k)
    ensures Inv(RestoreOne(s, k, w, leased)) && Settled(RestoreOne(s, k, w, leased), k)
  {
    ReleaseAbsent(s, k);
    if k.sender !in s.destroyed {
      var later := Meanwhile(s, w.atAuthorization);
      PauseFrame(s, w.atAuthorization, k);
      ReleaseAbsent(later, k);
      EventKeeps(later, PutBack(k));
      ReattachSettles(Apply(later, PutBack(k)), k, w, leased);
    }
    hide Meanwhile, Reattach, Inv, Asks, Settled, Release;
  }

  /** Settled, except that a runtime may have started since for a subscription that waits. */
  ghost predicate SettledUpTo(s: State, k: Key, script: seq<Event>) {
    && !(k in s.active && k in s.pending)
    && (k in s.active ==> k.path in s.live && s.active[k] == s.live[k.path] && k.sender !in s.destroyed)
    && (k in s.pending && k.path in s.live ==> exists e | e in script :: Starts(e, k.path))
    && (k !in s.active && k !in s.pending ==> (k.path, k) !in s.references)
  }

  lemma StaysSettled(s: State, t: State, script: seq<Event>, more: seq<Event>, k: Key)
    requires Settled(s, k) && Framed(s, t, more, k) && Inv(t)
    requires forall e | e in more :: !Asks(e, k)
    ensures SettledUpTo(t, k, script + more)
  {
    assert forall e | e in more :: e in script + more;
    hide Asks, Brings, Starts, Indexed, OwnIndex, Armed;
  }

  lemma SettledLater(s: State, k: Key, script: seq<Event>, more: seq<Event>)
    requires SettledUpTo(s, k, more)
    ensures SettledUpTo(s, k, script + more)
  {
    assert forall e | e in more :: e in script + more;
  }

  /**
   After a restore each suspended intent is active on the live runtime, pending because no runtime
   was live at its turn, or released, and exactly one of these, whatever happens during the awaits as
   long as nobody makes it wait anew. One that is pending while a runtime is live waits for a runtime
   that has started meanwhile. Nobody else gained a subscription but by what happened meanwhile.
   */
  lemma {:induction false} RestoreSettles(s: State, order: seq<Key>, weather: seq<Weather>, leased: bool)
    requires Inv(s) && |weather| == |order|
    requires forall k, e | k in order && e in Script(weather) :: !Asks(e, k)
    ensures var after := Restore(s, order, weather, leased);
            && Inv(after)
            && (forall k | k in order :: SettledUpTo(after, k, Script(weather)))
            && (forall k | k !in order :: Framed(s, after, Script(weather), k))
    decreases |order|
  {
    forall k | k !in order
      ensures Framed(s, Restore(s, order, weather, leased), Script(weather), k)
    {
      RestoreFrame(s, order, weather, leased, k);
    }
    if order != [] {
      var k := order[0];
      var after, others, more := RestoreOne(s, k, weather[0], leased), Others(weather[0]), Script(weather[1..]);
      assert forall e | e in others :: e in Script(weather);
      assert forall e | e in more :: e in Script(weather);
      RestoreOneSettles(s, k, weather[0], leased);
      hide RestoreOne, Inv, Asks, Framed, SettledUpTo, Settled, Others;
      assert forall j | j in order[1..] :: j in order;
      RestoreSettles(after, order[1..], weather[1..], leased);
      var end := Restore(after, order[1..], weather[1..], leased);
      if k !in order[1..] {
        StaysSettled(after, end, others, more, k);
      }
      forall j | j in order[1..]
        ensures SettledUpTo(end, j, others + more)
      {
        SettledLater(end, j, others, more);
      }
    }
  }

  // ---- Exact verdicts over whole loops ----

  /** Nothing at all happens to the key during these awaits. */
  predicate Ignores(w: Weather, k: Key) {
    && Undisturbed(w, k)
    && k.sender !in w.atAuthorization.lost + w.atGuard.lost + w.atValidation.lost
    && k !in w.atAuthorization.released + w.atGuard.released + w.atValidation.released
  }

  lemma TurnLeavesAlone(s: State, events: seq<Event>, after: State, j: Key, w: Weather, k: Key)
    requires Inv(s) && IsTurn(s, events, after, j, w) && j != k && Ignores(w, k)
    ensures Inv(after) && SameFor(s, after, k)
  {
    forall e | e in events
      ensures !Concerns(e, k)
    {
      assert OfTurn(e, j, w);
    }
    hide Inv, Run, Concerns;
    OtherEvents(s, events, k);
  }

  /** The weather ignores the key at every turn but this one. */
  predicate OnlyItsTurn(weather: seq<Weather>, i: nat, k: Key) {
    forall j | 0 <= j < |weather| && j != i :: Ignores(weather[j], k)
  }

  lemma {:induction false} RestoreLeavesAlone(s: State, order: seq<Key>, weather: seq<Weather>, leased: bool, k: Key)
    requires Inv(s) && |weather| == |order| && k !in order && OnlyItsTurn(weather, |weather|, k)
    ensures Inv(Restore(s, order, weather, leased)) && SameFor(s, Restore(s, order, weather, leased), k)
    decreases |order|
  {
    if order != [] {
      var after := RestoreOne(s, order[0], weather[0], leased);
      var events := RestoreOneTurn(s, order[0], weather[0], leased);
      hide RestoreOne, Inv, IsTurn, Ignores;
      TurnLeavesAlone(s, events, after, order[0], weather[0], k);
      RestoreLeavesAlone(after, order[1..], weather[1..], leased, k);
    }
  }

  /** The verdict on an intent after the whole restore, if only its own turn happens to it. */
  lemma {:induction false} RestoreExact(s: State, order: seq<Key>, weather: seq<Weather>, leased: bool, i: nat)
    requires Inv(s) && |weather| == |order| && Distinct(order) && i < |order|
    requires order[i] !in s.active && Undisturbed(weather[i], order[i]) && OnlyItsTurn(weather, i, order[i])
    ensures var (after, k, w) := (Restore(s, order, weather, leased), order[i], weather[i]);
            && Inv(after) && Settled(after, k)
            && (k in after.active <==>
                  k.path in s.live && w.authorized && w.guarded && w.validated && Outlives(s, k, w))
            && (k in after.pending <==>
                  && k.path !in s.live && w.authorized && k.sender !in s.destroyed
                  && (leased ==> w.guarded && StaysPending(k, w)))
    decreases |order|
  {
    var k, after := order[i], RestoreOne(s, order[0], weather[0], leased);
    if i == 0 {
      RestoreOneExact(s, k, weather[0], leased);
      hide RestoreOne, Inv, Settled, Ignores;
      RestoreLeavesAlone(after, order[1..], weather[1..], leased, k);
      SameSettled(after, Restore(after, order[1..], weather[1..], leased), k);
    } else {
      var events := RestoreOneTurn(s, order[0], weather[0], leased);
      hide RestoreOne, Inv, Settled, IsTurn, Ignores;
      TurnLeavesAlone(s, events, after, order[0], weather[0], k);
      RestoreExact(after, order[1..], weather[1..], leased, i - 1);
    }
  }

  lemma SameSettled(s: State, t: State, k: Key)
    requires Settled(s, k) && SameFor(s, t, k) && Inv(t)
    ensures Settled(t, k)
  {
    hide Indexed, OwnIndex, Armed;
  }

  lemma {:induction false} AttachLeavesAlone(s: State, order: seq<Key>, weather: seq<Weather>, k: Key)
    requires Inv(s) && |weather| == |order| && k !in order && OnlyItsTurn(weather, |weather|, k)
    ensures Inv(AttachEach(s, order, weather)) && SameFor(s, AttachEach(s, order, weather), k)
    decreases |order|
  {
    if order != [] {
      var after := AttachOne(s, order[0], weather[0]);
      var events := AttachOneTurn(s, order[0], weather[0]);
      hide AttachOne, Inv, IsTurn, Ignores;
      TurnLeavesAlone(s, events, after, order[0], weather[0], k);
      AttachLeavesAlone(after, order[1..], weather[1..], k);
    }
  }

  /** What becomes of a waiting subscription when its session starts, if only its own turn happens to it. */
  lemma {:induction false} AttachExact(s: State, order: seq<Key>, weather: seq<Weather>, i: nat)
    requires Inv(s) && |weather| == |order| && Distinct(order) && i < |order|
    requires order[i] !in s.active && order[i].path in s.live
    requires Undisturbed(weather[i], order[i]) && OnlyItsTurn(weather, i, order[i])
    ensures var (after, k, w) := (AttachEach(s, order, weather), order[i], weather[i]);
            && Inv(after) && k !in after.pending
            && (k in after.active <==> w.authorized && w.guarded && w.validated && Outlives(s, k, w))
            && (k in after.active ==> k.path in s.live && after.active[k] == s.live[k.path])
    decreases |order|
  {
    var k, after := order[i], AttachOne(s, order[0], weather[0]);
    if i == 0 {
      AttachOneExact(s, k, weather[0]);
      hide AttachOne, Inv, Ignores;
      AttachLeavesAlone(after, order[1..], weather[1..], k);
      if k in after.active {
        ActiveIsLive(AttachEach(after, order[1..], weather[1..]), k);
      }
    } else {
      var events := AttachOneTurn(s, order[0], weather[0]);
      hide AttachOne, Inv, IsTurn, Ignores;
      TurnLeavesAlone(s, events, after, order[0], weather[0], k);
      AttachExact(after, order[1..], weather[1..], i - 1);
    }
  }

  lemma ActiveIsLive(s: State, k: Key)
    requires Inv(s) && k in s.active
    ensures k.path in s.live && s.active[k] == s.live[k.path]
  {
  }

  /** With every check passing and a live runtime, each intent ends active and all others stay as they were. */
  lemma {:induction false} RestoreReactivates(s: State, order: seq<Key>, weather: seq<Weather>, leased: bool)
    requires Inv(s) && |weather| == |order| && Distinct(order)
    requires forall i | 0 <= i < |order| :: Passes(weather[i])
    requires forall k | k in order :: k !in s.active && k.path in s.live && k.sender !in s.destroyed
    ensures var after := Restore(s, order, weather, leased);
            && Inv(after) && after.live == s.live
            && (forall k :: k in after.active <==> k in s.active || k in order)
            && (forall k :: k in after.pending <==> k in s.pending && k !in order)
    decreases |order|
  {
    if order != [] {
      var k := order[0];
      var after := RestoreOne(s, k, weather[0], leased);
      RestoreOneExact(s, k, weather[0], leased);
      RestoreOneSpares(s, k, weather[0], leased);
      hide RestoreOne, Inv;
      assert forall j | j in order[1..] :: j in order && j != k;
      RestoreReactivates(after, order[1..], weather[1..], leased);
    }
  }

  function OnLive(s: State, keys: set<Key>): map<Key, nat>
    requires forall k | k in keys :: k.path in s.live
  {
    map k | k in keys :: s.live[k.path]
  }

  ghost predicate Lists(order: seq<Key>, keys: set<Key>) {
    Distinct(order) && forall k :: k in order <==> k in keys
  }

  /**
   Suspending a live path and restoring it, with every sender alive and every check passing, gives
   back the same subscriptions and references, except that keys which were waiting on that path
   become active too.
   */
  lemma SuspendRestore(s: State, path: string, order: seq<Key>, weather: seq<Weather>, leased: bool)
    requires Inv(s) && path in s.live && |weather| == |order|
    requires Lists(order, PendingOn(Suspend(s, path), path))
    requires forall i | 0 <= i < |order| :: Passes(weather[i])
    requires forall k | k in PendingOn(s, path) :: k.sender !in s.destroyed
    ensures var after := Restore(Suspend(s, path), order, weather, leased);
            && after.active == s.active + OnLive(s, PendingOn(s, path))
            && after.pending == s.pending - PendingOn(s, path)
            && after.references == s.references + Pairs(PendingOn(s, path))
  {
    SuspendRestoreMembers(s, path, order, weather, leased);
    SameTables(s, Restore(Suspend(s, path), order, weather, leased), PendingOn(s, path));
  }

  lemma SuspendRestoreMembers(s: State, path: string, order: seq<Key>, weather: seq<Weather>, leased: bool)
    requires Inv(s) && path in s.live && |weather| == |order|
    requires Lists(order, PendingOn(Suspend(s, path), path))
    requires forall i | 0 <= i < |order| :: Passes(weather[i])
    requires forall k | k in PendingOn(s, path) :: k.sender !in s.destroyed
    ensures var after := Restore(Suspend(s, path), order, weather, leased);
            && Inv(after) && after.live == s.live
            && (forall k :: k in after.active <==> k in s.active || k in PendingOn(s, path))
            && (forall k :: k in after.pending <==> k in s.pending && k !in PendingOn(s, path))
  {
    SuspendLosesNothing(s, path);
    var suspended := Suspend(s, path);
    forall k | k in order
      ensures k !in suspended.active && k.path in suspended.live && k.sender !in suspended.destroyed
    {
      assert k in PendingOn(suspended, path);
      assert k !in ActiveOn(suspended, path);
    }
    RestoreReactivates(suspended, order, weather, leased);
    hide Restore, Inv;
  }

  lemma SameTables(s: State, after: State, added: set<Key>)
    requires Inv(s) && Inv(after) && after.live == s.live
    requires forall k | k in added :: k.path in s.live
    requires forall k :: k in after.active <==> k in s.active || k in added
    requires forall k :: k in after.pending <==> k in s.pending && k !in added
    ensures after.active == s.active + OnLive(s, added)
    ensures after.pending == s.pending - added
    ensures after.references == s.references + Pairs(added)
  {
    hide Indexed, OwnIndex, Armed;
    SameReferences(s, after, added);
  }

  lemma SameReferences(s: State, after: State, added: set<Key>)
    requires ReferencesOk(s.active, s.references) && ReferencesOk(after.active, after.references)
    requires forall k :: k in after.active <==> k in s.active || k in added
    ensures after.references == s.references + Pairs(added)
  {
    forall p
      ensures p in after.references <==> p in s.references + Pairs(added)
    {
      if p in after.references {
        assert p == (p.1.path, p.1);
      }
    }
  }

  /** So it is the identity on active subscriptions and references exactly when nothing was waiting on the path. */
  lemma SuspendRestoreIsIdentity(s: State, path: string, order: seq<Key>, weather: seq<Weather>, leased: bool)
    requires Inv(s) && path in s.live && |weather| == |order|
    requires Lists(order, PendingOn(Suspend(s, path), path))
    requires forall i | 0 <= i < |order| :: Passes(weather[i])
    requires forall k | k in PendingOn(s, path) :: k.sender !in s.destroyed
    ensures var after := Restore(Suspend(s, path), order, weather, leased);
            after.active == s.active && after.references == s.references <==> PendingOn(s, path) - s.active.Keys == {}
  {
    SuspendRestore(s, path, order, weather, leased);
    hide Restore, Suspend, Indexed, OwnIndex, Armed;
    AddingNothing(s, Restore(Suspend(s, path), order, weather, leased), PendingOn(s, path));
  }

  lemma AddingNothing(s: State, after: State, added: set<Key>)
    requires ReferencesOk(s.active, s.references) && ActiveOk(s.active, s.destroyed, s.live)
    requires forall k | k in added :: k.path in s.live
    requires after.active == s.active + OnLive(s, added)
    requires after.references == s.references + Pairs(added)
    ensures after.active == s.active && after.references == s.references <==> added - s.active.Keys == {}
  {
    if added - s.active.Keys == {} {
      forall k | k in added
        ensures k in s.active
      {
        assert k !in added - s.active.Keys;
      }
      assert after.active == s.active;
      assert s.references + Pairs(added) == s.references;
    } else {
      var k :| k in added - s.active.Keys;
      assert k in after.active;
    }
  }

  // ---- Attaching the waiting subscriptions of a session that starts ----

  lemma AttachOneExact(s: State, k: Key, w: Weather)
    requires Inv(s) && k.path in s.live && Undisturbed(w, k)
    ensures var after := AttachOne(s, k, w);
            && Inv(after) && k !in after.pending && SameRuntime(s, after, k.path)
            && (k !in s.active ==>
                  (k in after.active <==>
                    && w.authorized && w.guarded && w.validated
                    && Outlives(s, k, w)))
  {
    hide SubscribeToOwner, Meanwhile, Release, ReferencesOk, Indexed, OwnIndex, Armed;
    if k.sender !in s.destroyed {
      MeanwhileExact(s, w.atAuthorization, k);
      var later := Meanwhile(s, w.atAuthorization);
      ReleaseAbsent(later, k);
      if w.authorized {
        SubscribeToOwnerExact(later, k, w);
        ReleaseAbsent(SubscribeToOwner(later, k, w).0, k);
      }
    } else {
      EventKeeps(s, Dropped(k));
    }
  }

  lemma AttachOneSpares(s: State, k: Key, w: Weather)
    ensures Spares(s, AttachOne(s, k, w), k, Calm(w))
  {
    MeanwhileSpares(s, w.atAuthorization, k);
    SubscribeToOwnerSpares(Meanwhile(s, w.atAuthorization), k, w);
    hide Meanwhile, SubscribeToOwner;
  }

  /** With every check passing, each waiting subscription ends active, and all others stay as they were. */
  lemma {:induction false} AttachActivates(s: State, order: seq<Key>, weather: seq<Weather>)
    requires Inv(s) && |weather| == |order| && Distinct(order)
    requires forall i | 0 <= i < |order| :: Passes(weather[i])
    requires forall k | k in order :: k.path in s.live && k.sender !in s.destroyed
    ensures var after := AttachEach(s, order, weather);
            && Inv(after) && after.live == s.live
            && (forall k :: k in after.active <==> k in s.active || k in order)
            && (forall k :: k in after.pending <==> k in s.pending && k !in order)
    decreases |order|
  {
    if order != [] {
      var k := order[0];
      var after := AttachOne(s, k, weather[0]);
      AttachOneActivates(s, k, weather[0]);
      hide AttachOne, Inv, Passes;
      assert forall j | j in order[1..] :: j in order && j != k;
      AttachActivates(after, order[1..], weather[1..]);
    }
  }

  lemma AttachOneActivates(s: State, k: Key, w: Weather)
    requires Inv(s) && Passes(w) && k.path in s.live && k.sender !in s.destroyed
    ensures var after := AttachOne(s, k, w);
            && Inv(after) && after.live == s.live && after.destroyed == s.destroyed
            && (forall j :: j in after.active <==> j in s.active || j == k)
            && (forall j :: j in after.pending <==> j in s.pending && j != k)
  {
    AttachOneExact(s, k, w);
    if k in s.active {
      AttachedStays(s, k, w);
    }
    AttachOneSpares(s, k, w);
    hide AttachOne, Inv;
  }

  lemma AttachedStays(s: State, k: Key, w: Weather)
    requires Inv(s) && k in s.active && Passes(w)
    ensures k in AttachOne(s, k, w).active
  {
    MeanwhileExact(s, w.atAuthorization, k);
    hide Meanwhile;
  }

  /** So the tables gain exactly these subscriptions on the live runtime, and the registry their references. */
  lemma AttachAddsExactly(s: State, order: seq<Key>, weather: seq<Weather>)
    requires Inv(s) && |weather| == |order| && Distinct(order)
    requires forall i | 0 <= i < |order| :: Passes(weather[i])
    requires forall k | k in order :: k.path in s.live && k.sender !in s.destroyed
    ensures var (after, added) := (AttachEach(s, order, weather), set k | k in order);
            && after.active == s.active + OnLive(s, added) && after.pending == s.pending - added
            && after.references == s.references + Pairs(added)
  {
    AttachActivates(s, order, weather);
    hide AttachEach, Inv;
    SameTables(s, AttachEach(s, order, weather), set k | k in order);
  }

  lemma AttachOneLeaves(s: State, k: Key, w: Weather)
    requires Inv(s) && forall e | e in Others(w) :: !Asks(e, k)
    ensures Inv(AttachOne(s, k, w)) && k !in AttachOne(s, k, w).pending
  {
    EventKeeps(s, Dropped(k));
    if k.sender !in s.destroyed {
      var later := Meanwhile(s, w.atAuthorization);
      PauseFrame(s, w.atAuthorization, k);
      ReleaseAbsent(later, k);
      SubscribeToOwnerLeaves(later, k, w);
      ReleaseAbsent(SubscribeToOwner(later, k, w).0, k);
    }
    hide Meanwhile, Inv, Asks, SubscribeToOwner, Release;
  }

  lemma {:induction false} AttachFrame(s: State, order: seq<Key>, weather: seq<Weather>, k: Key)
    requires |weather| == |order| && k !in order
    ensures Framed(s, AttachEach(s, order, weather), Script(weather), k)
    decreases |order|
  {
    if order != [] {
      var after := AttachOne(s, order[0], weather[0]);
      var events := AttachOneTurn(s, order[0], weather[0]);
      hide AttachOne, Framed, Others, IsTurn;
      TurnFrame(s, events, after, order[0], weather[0], k);
      AttachFrame(after, order[1..], weather[1..], k);
      FrameThen(s, after, AttachEach(after, order[1..], weather[1..]), Others(weather[0]), Script(weather[1..]), k);
    }
  }

  /** Whatever happens meanwhile, a starting session leaves none of the waiting subscriptions waiting. */
  lemma {:induction false} AttachLeavesNothingWaiting(s: State, order: seq<Key>, weather: seq<Weather>)
    requires Inv(s) && |weather| == |order|
    requires forall k, e | k in order && e in Script(weather) :: !Asks(e, k)
    ensures var after := AttachEach(s, order, weather);
            && Inv(after)
            && (forall k | k in order :: k !in after.pending)
            && (forall k | k !in order :: Framed(s, after, Script(weather), k))
    decreases |order|
  {
    forall k | k !in order
      ensures Framed(s, AttachEach(s, order, weather), Script(weather), k)
    {
      AttachFrame(s, order, weather, k);
    }
    if order != [] {
      var k, others, more := order[0], Others(weather[0]), Script(weather[1..]);
      var after := AttachOne(s, k, weather[0]);
      assert forall e | e in others :: e in Script(weather);
      assert forall e | e in more :: e in Script(weather);
      AttachOneLeaves(s, k, weather[0]);
      hide AttachOne, Inv, Asks, Others;
      assert forall j | j in order[1..] :: j in order;
      AttachLeavesNothingWaiting(after, order[1..], weather[1..]);
      if k !in order[1..] {
        AttachFrame(after, order[1..], weather[1..], k);
        assert k !in AttachEach(after, order[1..], weather[1..]).pending;
      }
    }
  }
}
