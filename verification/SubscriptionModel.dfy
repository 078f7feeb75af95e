/**
 The subscription tables of emain/agent-ipc.ts: which renderer listens to which agent session, which
 one waits for a session to start, and which runtime the registry must keep for them.
 Every function is one stretch of code between two awaits, or a composition of such stretches.
 */
module SubscriptionModel {
  /** The fields a subscription key is made of (emain/agent-event-routing.ts); equal keys are equal subscriptions. */
  datatype Key = Key(sender: nat, workspace: string, generation: int, path: string, rendererPath: string)

  /**
   `active` maps a subscription to the runtime it listens to. `armed` holds the senders with a
   "destroyed" listener, `references` what the registry was told to keep, `live` its runtimes.
   */
  datatype State = State(
    active: map<Key, nat>,
    pending: set<Key>,
    bySender: map<nat, set<Key>>,
    armed: set<nat>,
    destroyed: set<nat>,
    references: set<(string, Key)>,
    live: map<string, nat>)

  function Initial(): State {
    State(map[], {}, map[], {}, {}, {}, map[])
  }

  // ---- Releasing ----

  function Untrack(bySender: map<nat, set<Key>>, keys: set<Key>): map<nat, set<Key>> {
    map x | x in bySender && bySender[x] - keys != {} :: bySender[x] - keys
  }

  function Pairs(keys: set<Key>): set<(string, Key)> {
    set k | k in keys :: (k.path, k)
  }

  /** A key that is neither active nor pending is left alone, its index entry included. */
  function Release(s: State, keys: set<Key>): State {
    var known := keys * (s.active.Keys + s.pending);
    s.(active := s.active - known,
       pending := s.pending - known,
       bySender := Untrack(s.bySender, known),
       references := s.references - Pairs(known))
  }

  function KeysOf(s: State, senders: set<nat>): set<Key> {
    set k | k in s.active.Keys + s.pending && k.sender in senders
  }

  function ReleaseAll(s: State, senders: set<nat>): State {
    var released := Release(s, KeysOf(s, senders));
    released.(bySender := released.bySender - senders)
  }

  /** Subscriptions of another workspace or of an earlier generation of this one. */
  function StaleKeys(s: State, sender: nat, workspace: string, generation: int): set<Key> {
    set k | k in KeysOf(s, {sender}) && (k.workspace != workspace || k.generation != generation)
  }

  function Unsubscribe(s: State, k: Key): State {
    var released := Release(s, {k});
    released.(bySender := if k.sender in released.bySender && k in released.bySender[k.sender]
                          then Untrack(released.bySender, {k}) else released.bySender)
  }

  // ---- Tracking and subscribing ----

  /** A listener put on a sender that is already destroyed never fires. */
  function Track(s: State, k: Key): State {
    if k.sender in s.bySender
    then s.(bySender := s.bySender[k.sender := s.bySender[k.sender] + {k}])
    else s.(bySender := s.bySender[k.sender := {k}],
            armed := if k.sender in s.destroyed then s.armed else s.armed + {k.sender})
  }

  function AddPending(s: State, k: Key): State {
    if k in s.pending then s else Track(s.(pending := s.pending + {k}), k)
  }

  function Drop(s: State, k: Key): State {
    s.(pending := s.pending - {k})
  }

  predicate CanAttach(s: State, k: Key) {
    k.sender !in s.destroyed && k !in s.active && k.path in s.live
  }

  function Attach(s: State, k: Key): State {
    var dropped := Drop(s, k);
    if !CanAttach(s, k) then dropped else
      Track(dropped.(active := s.active[k := s.live[k.path]], references := s.references + {(k.path, k)}), k)
  }

  // ---- Suspending a path ----

  function ActiveOn(s: State, path: string): set<Key> {
    set k | k in s.active && k.path == path
  }

  function PendingOn(s: State, path: string): set<Key> {
    set k | k in s.pending && k.path == path
  }

  function Move(s: State, keys: set<Key>): State {
    s.(active := s.active - keys, pending := s.pending + keys, references := s.references - Pairs(keys))
  }

  function Suspend(s: State, path: string): State {
    Move(s, ActiveOn(s, path))
  }

  // ---- Senders ----

  /** These senders die; the listeners that were armed for them release what they had. */
  function Destroy(s: State, senders: set<nat>): State {
    var fired := (senders - s.destroyed) * s.armed;
    ReleaseAll(s, fired).(destroyed := s.destroyed + senders, armed := s.armed - fired)
  }

  // ---- Runs ----

  datatype Event =
    | Released(key: Key)
    | Unsubscribed(key: Key)
    | StaleReleased(sender: nat, workspace: string, generation: int)
    | AskedFor(key: Key)
    | Dropped(key: Key)
    | Attached(key: Key)
    | Suspended(path: string)
    | Committed(keys: set<Key>)
    | PutBack(key: Key)
    | SendersDestroyed(senders: set<nat>)
    | RuntimeStarted(path: string, runtime: nat)
    | RuntimeStopped(path: string)

  /**
   A runtime stops only when nothing refers to it. `PutBack` is the step of a restore that follows
   `validateCurrent`, when the sender may have died meanwhile; `AskedFor` looks first.
   */
  function Apply(s: State, e: Event): State {
    match e
    case Released(k) => Release(s, {k})
    case Unsubscribed(k) => Unsubscribe(s, k)
    case StaleReleased(sender, workspace, generation) => Release(s, StaleKeys(s, sender, workspace, generation))
    case AskedFor(k) => if k.sender in s.destroyed then s else AddPending(s, k)
    case Dropped(k) => Drop(s, k)
    case Attached(k) => Attach(s, k)
    case Suspended(path) => Suspend(s, path)
    case Committed(keys) => Release(s, keys)
    case PutBack(k) => Track(s.(pending := s.pending + {k}), k)
    case SendersDestroyed(senders) => Destroy(s, senders)
    case RuntimeStarted(path, runtime) => if path in s.live then s else s.(live := s.live[path := runtime])
    case RuntimeStopped(path) => if ActiveOn(s, path) != {} then s else s.(live := s.live - {path})
  }

  function Run(s: State, events: seq<Event>): State
    decreases |events|
  {
    if events == [] then s else Run(Apply(s, events[0]), events[1..])
  }

  // ---- Operations that span awaits ----

  /** What happens during one await: senders are lost, other calls release subscriptions, and then anything else. */
  datatype Pause = Pause(lost: set<nat>, released: set<Key>, others: seq<Event>)

  function Meanwhile(s: State, pause: Pause): State {
    Run(Release(Destroy(s, pause.lost), pause.released), pause.others)
  }

  /**
   What the outside world does while one subscription is set up: what happens during each await, and
   whether the check behind that await passes.
   */
  datatype Weather = Weather(
    authorized: bool, atAuthorization: Pause,
    guarded: bool, atGuard: Pause,
    validated: bool, atValidation: Pause)

  /** `subscribeToOwnerAfterValidation`; false when it throws. */
  function SubscribeAfterValidation(s: State, k: Key, w: Weather): (State, bool) {
    if !CanAttach(s, k) then (Drop(s, k), true) else
      var later := Meanwhile(Attach(s, k), w.atValidation);
      if !w.validated then (Release(later, {k}), false)
      else if k.sender in later.destroyed then (Release(later, {k}), true)
      else (later, true)
  }

  /** `subscribeToOwner`; false when it throws. */
  function SubscribeToOwner(s: State, k: Key, w: Weather): (State, bool) {
    var dropped := Drop(s, k);
    if k.sender in s.destroyed || k in s.active then (dropped, true) else
      var later := Meanwhile(dropped, w.atGuard);
      if !w.guarded then (later, false) else SubscribeAfterValidation(later, k, w)
  }

  /** The rest of a restored intent's turn, once it is back among the pending ones. */
  function Reattach(back: State, k: Key, w: Weather, leased: bool): State {
    if leased then
      var entered := Meanwhile(back, w.atGuard);
      if !w.guarded then Release(entered, {k})
      else if k.path !in entered.live then entered
      else
        var (done, ok) := SubscribeAfterValidation(entered, k, w);
        if ok then done else Release(done, {k})
    else if k.path !in back.live then back
    else
      var (done, ok) := SubscribeToOwner(back, k, w);
      if ok then done else Release(done, {k})
  }

  /** One turn of the loop of `restoreSuspendedSubscriptions`. */
  function RestoreOne(s: State, k: Key, w: Weather, leased: bool): State {
    if k.sender in s.destroyed then Release(s, {k}) else
      var later := Meanwhile(s, w.atAuthorization);
      if !w.authorized then Release(later, {k})
      else Reattach(Apply(later, PutBack(k)), k, w, leased)
  }

  function Restore(s: State, order: seq<Key>, weather: seq<Weather>, leased: bool): State
    requires |weather| == |order|
    decreases |order|
  {
    if order == [] then s
    else Restore(RestoreOne(s, order[0], weather[0], leased), order[1..], weather[1..], leased)
  }

  /** One turn of the loop of `attachPendingSubscribers`, for a key of the session's path. */
  function AttachOne(s: State, k: Key, w: Weather): State {
    if k.sender in s.destroyed then Drop(s, k) else
      var later := Meanwhile(s, w.atAuthorization);
      if !w.authorized then Release(later, {k})
      else
        var (done, ok) := SubscribeToOwner(later, k, w);
        if ok then done else Release(done, {k})
  }

  function AttachEach(s: State, order: seq<Key>, weather: seq<Weather>): State
    requires |weather| == |order|
    decreases |order|
  {
    if order == [] then s else AttachEach(AttachOne(s, order[0], weather[0]), order[1..], weather[1..])
  }

  // ---- Invariant ----

  ghost predicate ReferencesOk(active: map<Key, nat>, references: set<(string, Key)>) {
    && (forall k | k in active :: (k.path, k) in references)
    && (forall p | p in references :: p.0 == p.1.path && p.1 in active)
  }

  ghost predicate Indexed(active: map<Key, nat>, pending: set<Key>, bySender: map<nat, set<Key>>) {
    forall k | k in active || k in pending :: In(bySender, k.sender, k)
  }

  ghost predicate OwnIndex(bySender: map<nat, set<Key>>) {
    forall x | x in bySender :: bySender[x] != {} && forall k | k in bySender[x] :: k.sender == x
  }

  ghost predicate Armed(bySender: map<nat, set<Key>>, armed: set<nat>, destroyed: set<nat>) {
    forall x | x in bySender && x !in destroyed :: x in armed
  }

  ghost predicate ActiveOk(active: map<Key, nat>, destroyed: set<nat>, live: map<string, nat>) {
    forall k | k in active :: k.sender !in destroyed && k.path in live && active[k] == live[k.path]
  }

  ghost predicate Inv(s: State) {
    && ReferencesOk(s.active, s.references)
    && Indexed(s.active, s.pending, s.bySender)
    && OwnIndex(s.bySender)
    && Armed(s.bySender, s.armed, s.destroyed)
    && ActiveOk(s.active, s.destroyed, s.live)
  }

  predicate In(bySender: map<nat, set<Key>>, x: nat, k: Key) {
    x in bySender && k in bySender[x]
  }

  lemma UntrackMembers(bySender: map<nat, set<Key>>, keys: set<Key>)
    ensures forall x, k :: In(Untrack(bySender, keys), x, k) <==> In(bySender, x, k) && k !in keys
  {
    forall x, k
      ensures In(Untrack(bySender, keys), x, k) <==> In(bySender, x, k) && k !in keys
    {
      if In(bySender, x, k) && k !in keys {
        assert k in bySender[x] - keys;
      }
    }
  }

  lemma ReleaseKeeps(s: State, keys: set<Key>)
    requires Inv(s)
    ensures Inv(Release(s, keys))
  {
    UntrackMembers(s.bySender, keys * (s.active.Keys + s.pending));
  }

  lemma TrackKeeps(s: State, k: Key)
    requires ReferencesOk(s.active, s.references) && ActiveOk(s.active, s.destroyed, s.live)
    requires OwnIndex(s.bySender) && Armed(s.bySender, s.armed, s.destroyed)
    requires forall j | (j in s.active || j in s.pending) && j != k :: In(s.bySender, j.sender, j)
    ensures Inv(Track(s, k))
  {
  }

  lemma AttachKeeps(s: State, k: Key)
    requires Inv(s)
    ensures Inv(Attach(s, k))
  {
    if CanAttach(s, k) {
      TrackKeeps(Drop(s, k).(active := s.active[k := s.live[k.path]], references := s.references + {(k.path, k)}), k);
    }
  }

  lemma DestroyKeeps(s: State, senders: set<nat>)
    requires Inv(s)
    ensures Inv(Destroy(s, senders))
  {
    var fired := (senders - s.destroyed) * s.armed;
    ReleaseKeeps(s, KeysOf(s, fired));
  }

  lemma EventKeeps(s: State, e: Event)
    requires Inv(s)
    ensures Inv(Apply(s, e))
  {
    match e {
      case Released(k) => ReleaseKeeps(s, {k});
      case Unsubscribed(k) => UnsubscribeKeeps(s, k);
      case StaleReleased(x, workspace, generation) => ReleaseKeeps(s, StaleKeys(s, x, workspace, generation));
      case AskedFor(k) => WaitKeeps(s, k);
      case Dropped(k) => DropKeeps(s, k);
      case Attached(k) => AttachKeeps(s, k);
      case Suspended(path) => SuspendKeeps(s, path);
      case Committed(keys) => ReleaseKeeps(s, keys);
      case PutBack(k) => WaitKeeps(s, k);
      case SendersDestroyed(senders) => DestroyKeeps(s, senders);
      case RuntimeStarted(path, runtime) => StartKeeps(s, path, runtime);
      case RuntimeStopped(path) => StopKeeps(s, path);
    }
    hide Inv, Release, Unsubscribe, Track, Attach, Suspend, Destroy, StaleKeys;
  }

  lemma UnsubscribeKeeps(s: State, k: Key)
    requires Inv(s)
    ensures Inv(Unsubscribe(s, k))
  {
    ReleaseKeeps(s, {k});
    hide Release;
  }

  lemma WaitKeeps(s: State, k: Key)
    requires Inv(s)
    ensures Inv(Track(s.(pending := s.pending + {k}), k))
  {
    TrackKeeps(s.(pending := s.pending + {k}), k);
  }

  lemma DropKeeps(s: State, k: Key)
    requires Inv(s)
    ensures Inv(Drop(s, k))
  {
  }

  lemma SuspendKeeps(s: State, path: string)
    requires Inv(s)
    ensures Inv(Suspend(s, path))
  {
    hide OwnIndex, Armed;
  }

  lemma StartKeeps(s: State, path: string, runtime: nat)
    requires Inv(s)
    ensures Inv(Apply(s, RuntimeStarted(path, runtime)))
  {
    hide ReferencesOk, Indexed, OwnIndex, Armed;
  }

  lemma StopKeeps(s: State, path: string)
    requires Inv(s)
    ensures Inv(Apply(s, RuntimeStopped(path)))
  {
    if ActiveOn(s, path) == {} {
      assert forall k | k in s.active && k.path == path :: k in ActiveOn(s, path);
    }
    hide Indexed, OwnIndex, Armed;
  }

  lemma {:induction false} RunKeeps(s: State, events: seq<Event>)
    requires Inv(s)
    ensures Inv(Run(s, events))
    decreases |events|
  {
    if events != [] {
      EventKeeps(s, events[0]);
      RunKeeps(Apply(s, events[0]), events[1..]);
    }
  }
}
