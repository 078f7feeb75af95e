/** The subscription tables of emain/agent-ipc.ts as the module keeps them, each method against its model. */
module AgentSubscriptions {
  import opened SubscriptionModel
  import Model = SubscriptionModel

  lemma ReleaseTwice(s: State, first: set<Key>, second: set<Key>)
    requires Inv(s)
    ensures Release(Release(s, first), second) == Release(s, first + second)
  {
    var known := first * (s.active.Keys + s.pending);
    var after := Release(s, first);
    var next := second * (after.active.Keys + after.pending);
    var all := (first + second) * (s.active.Keys + s.pending);
    assert known + next == all;
    assert s.active - known - next == s.active - all;
    assert s.pending - known - next == s.pending - all;
    assert Untrack(Untrack(s.bySender, known), next) == Untrack(s.bySender, all) by {
      assert forall x | x in s.bySender :: s.bySender[x] - known - next == s.bySender[x] - all;
    }
    assert Pairs(all) == Pairs(known) + Pairs(next);
    assert s.references - Pairs(known) - Pairs(next) == s.references - Pairs(all);
  }

  lemma ReleaseNone(s: State)
    requires OwnIndex(s.bySender)
    ensures Release(s, {}) == s
  {
    assert {} * (s.active.Keys + s.pending) == {};
    assert forall x | x in s.bySender :: s.bySender[x] - {} == s.bySender[x];
    assert Untrack(s.bySender, {}) == s.bySender;
    assert s.references - Pairs({}) == s.references;
  }

  /** One key only ever occurs in the index of its own sender. */
  lemma UntrackOne(bySender: map<nat, set<Key>>, k: Key)
    requires OwnIndex(bySender) && k.sender in bySender
    ensures var keys := bySender[k.sender] - {k};
            Untrack(bySender, {k}) == if keys == {} then bySender - {k.sender} else bySender[k.sender := keys]
  {
    assert forall x | x in bySender && x != k.sender :: bySender[x] - {k} == bySender[x];
  }

  lemma ReleaseOne(s: State, k: Key)
    requires Inv(s)
    ensures k !in s.active && k !in s.pending ==> Release(s, {k}) == s
    ensures k !in s.active ==> s.active - {k} == s.active && s.references - {(k.path, k)} == s.references
    ensures k in s.active || k in s.pending ==>
              k.sender in s.bySender &&
              var keys := s.bySender[k.sender] - {k};
              Release(s, {k}) == s.(
                active := s.active - {k}, pending := s.pending - {k},
                references := s.references - {(k.path, k)},
                bySender := if keys == {} then s.bySender - {k.sender} else s.bySender[k.sender := keys])
  {
    var known := {k} * (s.active.Keys + s.pending);
    if k in s.active || k in s.pending {
      assert known == {k};
      UntrackOne(s.bySender, k);
    } else {
      assert known == {};
      ReleaseNone(s);
    }
  }

  /** The index alone names everything a sender has. */
  lemma IndexedOnly(s: State, x: nat)
    requires Inv(s)
    ensures x in s.bySender ==> Release(s, s.bySender[x]) == Release(s, KeysOf(s, {x}))
    ensures x !in s.bySender ==> ReleaseAll(s, {x}) == s
    ensures Inv(ReleaseAll(s, {x})) && forall k | k in ReleaseAll(s, {x}).pending :: k.sender != x
  {
    ReleaseKeeps(s, KeysOf(s, {x}));
    if x in s.bySender {
      assert s.bySender[x] * (s.active.Keys + s.pending) == KeysOf(s, {x}) * (s.active.Keys + s.pending);
    } else {
      assert KeysOf(s, {x}) == {};
      ReleaseNone(s);
      assert s.bySender - {x} == s.bySender;
    }
  }

  /** The stale keys of a sender, taken first from the active and then from the pending table. */
  lemma StaleInTwo(s: State, sender: nat, workspace: string, generation: int)
    requires Inv(s)
    ensures var stale := set k | k in s.active && k.sender == sender
                           && (k.workspace != workspace || k.generation != generation);
            var after := Release(s, stale);
            var waiting := set k | k in after.pending && k.sender == sender
                             && (k.workspace != workspace || k.generation != generation);
            Release(after, waiting) == Release(s, StaleKeys(s, sender, workspace, generation))
  {
    var stale := set k | k in s.active && k.sender == sender
                   && (k.workspace != workspace || k.generation != generation);
    var after := Release(s, stale);
    var waiting := set k | k in after.pending && k.sender == sender
                     && (k.workspace != workspace || k.generation != generation);
    assert stale + waiting == StaleKeys(s, sender, workspace, generation);
    ReleaseTwice(s, stale, waiting);
  }

  lemma DestroyNone(s: State)
    requires Inv(s)
    ensures Destroy(s, {}) == s
  {
    assert ({} - s.destroyed) * s.armed == {};
    assert KeysOf(s, {}) == {};
    ReleaseNone(s);
    assert s.bySender - {} == s.bySender;
  }

  lemma DestroyOne(s: State, x: nat)
    requires Inv(s)
    ensures Destroy(s, {x}) ==
              (if x !in s.destroyed && x in s.armed then ReleaseAll(s, {x}).(armed := s.armed - {x}) else s).(
                destroyed := s.destroyed + {x})
  {
    var fired := ({x} - s.destroyed) * s.armed;
    if x !in s.destroyed && x in s.armed {
      assert fired == {x};
    } else {
      assert fired == {};
      DestroyNone(s);
      assert ({} - s.destroyed) * s.armed == {};
    }
  }

  lemma DestroyTwice(s: State, first: set<nat>, x: nat)
    requires Inv(s)
    ensures Destroy(Destroy(s, first), {x}) == Destroy(s, first + {x})
  {
    var fired := (first - s.destroyed) * s.armed;
    var after := Destroy(s, first);
    var next := ({x} - after.destroyed) * after.armed;
    assert fired + next == (first + {x} - s.destroyed) * s.armed;
    ReleaseAllTwice(s, fired, next);
  }

  lemma UntrackMinus(bySender: map<nat, set<Key>>, keys: set<Key>, senders: set<nat>)
    ensures Untrack(bySender - senders, keys) == Untrack(bySender, keys) - senders
  {
  }

  lemma ReleaseAllTwice(s: State, first: set<nat>, second: set<nat>)
    requires Inv(s)
    ensures ReleaseAll(ReleaseAll(s, first), second) == ReleaseAll(s, first + second)
  {
    var after := ReleaseAll(s, first);
    var r := Release(s, KeysOf(s, first));
    assert KeysOf(s, first) + KeysOf(after, second) == KeysOf(s, first + second);
    ReleaseTwice(s, KeysOf(s, first), KeysOf(after, second));
    var next := KeysOf(after, second) * (r.active.Keys + r.pending);
    UntrackMinus(r.bySender, next, first);
    hide Untrack, Inv, KeysOf, Pairs;
    assert Untrack(r.bySender, next) - first - second == Untrack(r.bySender, next) - (first + second);
  }

  lemma MoveStep(s: State, moved: set<Key>, k: Key)
    ensures Move(s, moved + {k}) == Move(Move(s, moved), {k})
  {
    assert Pairs({k}) == {(k.path, k)} && Pairs(moved + {k}) == Pairs(moved) + {(k.path, k)};
    assert s.active - moved - {k} == s.active - (moved + {k});
    assert s.references - Pairs(moved) - {(k.path, k)} == s.references - Pairs(moved + {k});
    assert s.pending + moved + {k} == s.pending + (moved + {k});
  }

  lemma MoveNone(s: State)
    ensures Move(s, {}) == s
  {
    assert Pairs({}) == {};
  }

  lemma MovedArePending(s: State, path: string)
    requires Inv(s)
    ensures Inv(Suspend(s, path)) && ActiveOn(s, path) <= PendingOn(Suspend(s, path), path)
  {
    EventKeeps(s, Suspended(path));
  }

  lemma AttachNot(s: State, k: Key)
    ensures !CanAttach(s, k) ==> Model.Attach(s, k) == Drop(s, k)
  {
  }

  class AgentSubscriptions {
    var subscriptions: map<Key, nat>
    var pendingSubscriptions: set<Key>
    var subscriptionsBySender: map<nat, set<Key>>
    var armed: set<nat>
    var destroyed: set<nat>
    var references: set<(string, Key)>
    var live: map<string, nat>

    function Snapshot(): State
      reads this
    {
      State(subscriptions, pendingSubscriptions, subscriptionsBySender, armed, destroyed, references, live)
    }

    ghost predicate Valid()
      reads this
    {
      Inv(Snapshot())
    }

    constructor ()
      ensures Valid() && Snapshot() == Initial()
    {
      subscriptions, pendingSubscriptions, subscriptionsBySender := map[], {}, map[];
      armed, destroyed, references, live := {}, {}, {}, map[];
    }

    method ReleaseSubscription(k: Key)
      requires Valid()
      modifies this
      ensures Valid() && Snapshot() == Release(old(Snapshot()), {k})
    {
      ReleaseKeeps(Snapshot(), {k});
      ReleaseOne(Snapshot(), k);
      hide Inv, Release, ReferencesOk, Indexed, OwnIndex, Armed, ActiveOk;
      var known := k in subscriptions || k in pendingSubscriptions;
      if k in subscriptions {
        references := references - {(k.path, k)};
        subscriptions := subscriptions - {k};
      }
      pendingSubscriptions := pendingSubscriptions - {k};
      if known {
        var keys := subscriptionsBySender[k.sender] - {k};
        subscriptionsBySender :=
          if keys == {} then subscriptionsBySender - {k.sender} else subscriptionsBySender[k.sender := keys];
      }
    }

    method ReleaseEach(keys: set<Key>)
      requires Valid()
      modifies this
      ensures Valid() && Snapshot() == Release(old(Snapshot()), keys)
      ensures keys == {} ==> Snapshot() == old(Snapshot())
    {
      ReleaseNone(Snapshot());
      var todo := keys;
      assert keys - todo == {};
      while todo != {}
        invariant todo <= keys && Valid() && Snapshot() == Release(old(Snapshot()), keys - todo)
        decreases |todo|
      {
        var k :| k in todo;
        ReleaseTwice(old(Snapshot()), keys - todo, {k});
        ReleaseSubscription(k);
        assert keys - (todo - {k}) == keys - todo + {k};
        todo := todo - {k};
      }
      assert keys - {} == keys;
    }

    method ReleaseAllForSender(sender: nat)
      requires Valid()
      modifies this
      ensures Valid() && Snapshot() == ReleaseAll(old(Snapshot()), {sender})
    {
      IndexedOnly(Snapshot(), sender);
      hide Inv, Release;
      if sender in subscriptionsBySender {
        ReleaseEach(subscriptionsBySender[sender]);
        subscriptionsBySender := subscriptionsBySender - {sender};
      }
      var waiting := set k | k in pendingSubscriptions && k.sender == sender;
      assert waiting == {};
      ReleaseEach(waiting);
    }

    method CommitSuspendedSubscriptions(intents: set<Key>)
      requires Valid()
      modifies this
      ensures Valid() && Snapshot() == Release(old(Snapshot()), intents)
    {
      ReleaseEach(intents);
    }

    method ReleaseStaleSubscriptionsForSender(sender: nat, workspace: string, generation: int)
      requires Valid()
      modifies this
      ensures Valid()
      ensures Snapshot() == Release(old(Snapshot()), StaleKeys(old(Snapshot()), sender, workspace, generation))
    {
      StaleInTwo(Snapshot(), sender, workspace, generation);
      var stale := set k | k in subscriptions && k.sender == sender
                     && (k.workspace != workspace || k.generation != generation);
      ReleaseEach(stale);
      var waiting := set k | k in pendingSubscriptions && k.sender == sender
                       && (k.workspace != workspace || k.generation != generation);
      ReleaseEach(waiting);
    }

    method Unsubscribe(k: Key)
      requires Valid()
      modifies this
      ensures Valid() && Snapshot() == Model.Unsubscribe(old(Snapshot()), k)
    {
      EventKeeps(Snapshot(), Unsubscribed(k));
      ReleaseSubscription(k);
      if k.sender in subscriptionsBySender && k in subscriptionsBySender[k.sender] {
        UntrackOne(subscriptionsBySender, k);
        var keys := subscriptionsBySender[k.sender] - {k};
        subscriptionsBySender :=
          if keys == {} then subscriptionsBySender - {k.sender} else subscriptionsBySender[k.sender := keys];
      }
    }

    /** Called in the middle of steps, so the tables need not be in order yet. */
    method TrackSenderKey(k: Key)
      modifies this`subscriptionsBySender, this`armed
      ensures Snapshot() == Track(old(Snapshot()), k)
    {
      var keys := {};
      if k.sender in subscriptionsBySender {
        keys := subscriptionsBySender[k.sender];
      } else if k.sender !in destroyed {
        armed := armed + {k.sender};
      }
      subscriptionsBySender := subscriptionsBySender[k.sender := keys + {k}];
      assert {} + {k} == {k};
    }

    method AddPending(k: Key)
      requires Valid()
      modifies this
      ensures Valid() && Snapshot() == Apply(old(Snapshot()), AskedFor(k))
    {
      EventKeeps(Snapshot(), AskedFor(k));
      if k.sender in destroyed {
        return;
      }
      if k !in pendingSubscriptions {
        pendingSubscriptions := pendingSubscriptions + {k};
        TrackSenderKey(k);
      }
    }

    /** Moves the path's active subscriptions to the pending ones; `intents` gathers all that wait on it. */
    method SuspendSubscriptionsForPath(path: string, intents: set<Key>) returns (suspended: set<Key>)
      requires Valid()
      modifies this
      ensures Valid() && Snapshot() == Suspend(old(Snapshot()), path)
      ensures suspended == intents + PendingOn(Snapshot(), path)
    {
      MovedArePending(Snapshot(), path);
      hide Inv;
      var moved := ActiveOn(Snapshot(), path);
      suspended := MoveToPending(moved, intents);
      suspended := suspended + PendingOn(Snapshot(), path);
    }

    method MoveOne(k: Key)
      modifies this
      ensures Snapshot() == Move(old(Snapshot()), {k})
    {
      references := references - {(k.path, k)};
      subscriptions := subscriptions - {k};
      pendingSubscriptions := pendingSubscriptions + {k};
      assert Pairs({k}) == {(k.path, k)};
    }

    method MoveToPending(keys: set<Key>, intents: set<Key>) returns (suspended: set<Key>)
      modifies this
      ensures Snapshot() == Move(old(Snapshot()), keys) && suspended == intents + keys
    {
      MoveNone(Snapshot());
      var todo := keys;
      suspended := intents;
      assert keys - todo == {};
      hide Move;
      while todo != {}
        invariant todo <= keys && suspended == intents + (keys - todo)
        invariant Snapshot() == Move(old(Snapshot()), keys - todo)
        decreases |todo|
      {
        var k :| k in todo;
        MoveStep(old(Snapshot()), keys - todo, k);
        assert keys - (todo - {k}) == keys - todo + {k};
        assert intents + (keys - todo) + {k} == intents + (keys - (todo - {k}));
        MoveOne(k);
        suspended := suspended + {k};
        todo := todo - {k};
      }
      assert keys - {} == keys;
    }

    /** What an await lets happen: senders are destroyed, other calls release subscriptions, and all the rest. */
    method Await(pause: Pause)
      requires Valid()
      modifies this
      ensures Valid() && Snapshot() == Meanwhile(old(Snapshot()), pause)
    {
      hide Inv, Destroy, Release, Apply;
      LoseSenders(pause.lost);
      ReleaseEach(pause.released);
      ghost var now := Snapshot();
      for i := 0 to |pause.others|
        invariant Valid() && Run(Snapshot(), pause.others[i..]) == Run(now, pause.others)
      {
        assert pause.others[i..][1..] == pause.others[i + 1..];
        Happen(pause.others[i]);
      }
    }

    /** Every event is a call of one of the methods, or something that happens to a runtime. */
    method Happen(e: Event)
      requires Valid()
      modifies this
      ensures Valid() && Snapshot() == Apply(old(Snapshot()), e)
    {
      EventKeeps(Snapshot(), e);
      hide Inv, Release, Destroy, Suspend, Model.Attach, Model.Unsubscribe, StaleKeys, ActiveOn;
      match e {
        case Released(k) => ReleaseSubscription(k);
        case Unsubscribed(k) => Unsubscribe(k);
        case StaleReleased(sender, workspace, generation) =>
          ReleaseStaleSubscriptionsForSender(sender, workspace, generation);
        case AskedFor(k) => AddPending(k);
        case Dropped(k) => pendingSubscriptions := pendingSubscriptions - {k};
        case Attached(k) => var _ := Attach(k);
        case Suspended(path) => var _ := SuspendSubscriptionsForPath(path, {});
        case Committed(keys) => CommitSuspendedSubscriptions(keys);
        case PutBack(k) => PutBackPending(k);
        case SendersDestroyed(senders) => LoseSenders(senders);
        case RuntimeStarted(path, runtime) =>
          if path !in live {
            live := live[path := runtime];
          }
        case RuntimeStopped(path) =>
          if ActiveOn(Snapshot(), path) == {} {
            live := live - {path};
          }
      }
    }

    method PutBackPending(k: Key)
      requires Valid()
      modifies this
      ensures Valid() && Snapshot() == Apply(old(Snapshot()), PutBack(k))
    {
      EventKeeps(Snapshot(), PutBack(k));
      hide Inv;
      pendingSubscriptions := pendingSubscriptions + {k};
      TrackSenderKey(k);
    }

    /**
     The senders' listeners run. A listener does not look at the flag of its sender, so setting it
     afterwards makes no difference.
     */
    method LoseSenders(lost: set<nat>)
      requires Valid()
      modifies this
      ensures Valid() && Snapshot() == Destroy(old(Snapshot()), lost)
    {
      DestroyNone(Snapshot());
      var todo := lost;
      assert lost - todo == {};
      while todo != {}
        invariant todo <= lost && Valid() && Snapshot() == Destroy(old(Snapshot()), lost - todo)
        decreases |todo|
      {
        var x :| x in todo;
        DestroyTwice(old(Snapshot()), lost - todo, x);
        DestroyKeeps(Snapshot(), {x});
        assert lost - (todo - {x}) == lost - todo + {x};
        SenderDestroyed(x);
        todo := todo - {x};
      }
      assert lost - {} == lost;
    }

    method SenderDestroyed(x: nat)
      requires Valid()
      modifies this
      ensures Valid() && Snapshot() == Destroy(old(Snapshot()), {x})
    {
      DestroyKeeps(Snapshot(), {x});
      DestroyOne(Snapshot(), x);
      if x !in destroyed && x in armed {
        ReleaseAllForSender(x);
        armed := armed - {x};
      }
      destroyed := destroyed + {x};
    }

    /** `subscribeToOwnerAfterValidation` up to its await: the subscription is in place, unless it must not be. */
    method Attach(k: Key) returns (attached: bool)
      requires Valid()
      modifies this
      ensures Valid() && Snapshot() == Model.Attach(old(Snapshot()), k)
      ensures attached == CanAttach(old(Snapshot()), k)
    {
      AttachKeeps(Snapshot(), k);
      hide Inv;
      pendingSubscriptions := pendingSubscriptions - {k};
      if k.sender in destroyed || k in subscriptions || k.path !in live {
        return false;
      }
      subscriptions := subscriptions[k := live[k.path]];
      references := references + {(k.path, k)};
      TrackSenderKey(k);
      return true;
    }

    method SubscribeToOwnerAfterValidation(k: Key, w: Weather) returns (ok: bool)
      requires Valid()
      modifies this
      ensures Valid() && (Snapshot(), ok) == SubscribeAfterValidation(old(Snapshot()), k, w)
    {
      hide Inv, Model.Attach, Meanwhile, Release;
      AttachNot(Snapshot(), k);
      var attached := Attach(k);
      if !attached {
        return true;
      }
      Await(w.atValidation);
      if !w.validated {
        ReleaseSubscription(k);
        return false;
      }
      if k.sender in destroyed {
        ReleaseSubscription(k);
      }
      return true;
    }

    method SubscribeToOwner(k: Key, w: Weather) returns (ok: bool)
      requires Valid()
      modifies this
      ensures Valid() && (Snapshot(), ok) == Model.SubscribeToOwner(old(Snapshot()), k, w)
    {
      EventKeeps(Snapshot(), Dropped(k));
      hide Inv, Meanwhile, SubscribeAfterValidation;
      pendingSubscriptions := pendingSubscriptions - {k};
      if k.sender in destroyed || k in subscriptions {
        return true;
      }
      Await(w.atGuard);
      if !w.guarded {
        return false;
      }
      ok := SubscribeToOwnerAfterValidation(k, w);
    }

    /** One turn of the restore loop. */
    method RestoreSubscription(k: Key, w: Weather, leased: bool)
      requires Valid()
      modifies this
      ensures Valid() && Snapshot() == RestoreOne(old(Snapshot()), k, w, leased)
    {
      hide Inv, Meanwhile, Release, Reattach;
      if k.sender in destroyed {
        ReleaseSubscription(k);
        return;
      }
      Await(w.atAuthorization);
      if !w.authorized {
        ReleaseSubscription(k);
        return;
      }
      PutBackPending(k);
      ReattachSubscription(k, w, leased);
    }

    method ReattachSubscription(k: Key, w: Weather, leased: bool)
      requires Valid()
      modifies this
      ensures Valid() && Snapshot() == Reattach(old(Snapshot()), k, w, leased)
    {
      hide Inv, Meanwhile, Release, SubscribeAfterValidation, Model.SubscribeToOwner;
      var ok := true;
      if leased {
        Await(w.atGuard);
        if !w.guarded {
          ok := false;
        } else if k.path in live {
          ok := SubscribeToOwnerAfterValidation(k, w);
        }
      } else if k.path in live {
        ok := SubscribeToOwner(k, w);
      }
      if !ok {
        ReleaseSubscription(k);
      }
    }

    method RestoreSuspendedSubscriptions(order: seq<Key>, weather: seq<Weather>, leased: bool)
      requires Valid() && |weather| == |order|
      modifies this
      ensures Valid() && Snapshot() == Restore(old(Snapshot()), order, weather, leased)
    {
      hide Inv, RestoreOne;
      var i := 0;
      while i < |order|
        invariant i <= |order| && Valid()
        invariant Restore(Snapshot(), order[i..], weather[i..], leased) ==
                    Restore(old(Snapshot()), order, weather, leased)
      {
        assert order[i..][1..] == order[i + 1..] && weather[i..][1..] == weather[i + 1..];
        RestoreSubscription(order[i], weather[i], leased);
        i := i + 1;
      }
    }

    method AttachSubscription(k: Key, w: Weather)
      requires Valid()
      modifies this
      ensures Valid() && Snapshot() == AttachOne(old(Snapshot()), k, w)
    {
      EventKeeps(Snapshot(), Dropped(k));
      hide Inv, Meanwhile, Release, Model.SubscribeToOwner;
      if k.sender in destroyed {
        pendingSubscriptions := pendingSubscriptions - {k};
        return;
      }
      Await(w.atAuthorization);
      var ok := w.authorized;
      if ok {
        ok := SubscribeToOwner(k, w);
      }
      if !ok {
        ReleaseSubscription(k);
      }
    }

    /** `order` is the snapshot of the pending keys of the path. */
    method AttachPendingSubscribers(order: seq<Key>, weather: seq<Weather>)
      requires Valid() && |weather| == |order|
      modifies this
      ensures Valid() && Snapshot() == AttachEach(old(Snapshot()), order, weather)
    {
      hide Inv, AttachOne;
      var i := 0;
      while i < |order|
        invariant i <= |order| && Valid()
        invariant AttachEach(Snapshot(), order[i..], weather[i..]) == AttachEach(old(Snapshot()), order, weather)
      {
        assert order[i..][1..] == order[i + 1..] && weather[i..][1..] == weather[i + 1..];
        AttachSubscription(order[i], weather[i]);
        i := i + 1;
      }
    }
  }
}
