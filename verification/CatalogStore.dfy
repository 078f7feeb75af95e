/**
 The model catalog cache of emain/model-catalog-store.ts: a JSON file that several processes rewrite
 under a lock file, where a lock that looks old is removed by whoever waits for it. Every step is one
 file system operation, and the steps of all calls interleave freely.
 */
module CatalogStoreModel {
  import opened Wrappers

  const LOCK_STALE_MS := 120_000
  const LOCK_WAIT_MAX_MS := 60_000

  type Providers = map<string, int>

  /** What the cache path holds; `Unreadable` is text that is no JSON or no cache document. */
  datatype Contents = Missing | Unreadable | Document(providers: Providers)

  datatype Lock = Lock(owner: nat, created: int, modified: int)

  /** A temporary file of `atomicWrite`; `complete` once all of its text is written and synced. */
  datatype Temporary = Temporary(providers: Providers, complete: bool)

  /** Where one call of `writeProvider` stands; from `Entered` to `Releasing` it believes to hold the lock. */
  datatype Phase =
    | Opening
    | Statting
    | Deciding(modified: int, statAt: int)
    | Removing
    | Waiting
    | Entered
    | Locked
    | Loaded(current: Providers)
    | Filling(next: Providers)
    | Renaming(next: Providers)
    | Releasing(committed: bool)
    | Finished(committed: bool)

  datatype Call = Call(provider: string, value: int, startedAt: int, phase: Phase)

  /** `commits` are the renames in order; `stolen` says that a waiter removed a lock that existed. */
  datatype State = State(
    clock: int, lock: Option<Lock>, contents: Contents, temporaries: map<nat, Temporary>,
    calls: map<nat, Call>, commits: seq<(string, int)>, stolen: bool)

  function Initial(contents: Contents): State {
    State(0, None, contents, map[], map[], [], false)
  }

  predicate Holds(phase: Phase) {
    phase.Entered? || phase.Locked? || phase.Loaded? || phase.Filling? || phase.Renaming? || phase.Releasing?
  }

  /** What a document that cannot be read is taken for. */
  function Readable(contents: Contents): Providers {
    if contents.Document? then contents.providers else map[]
  }

  /** `ok` is whether the step's file operation succeeds, other than by finding the lock taken or gone. */
  datatype Event =
    | Begun(call: nat, provider: string, value: int)
    | Stepped(call: nat, ok: bool)
    | Ticked(ms: nat)

  function Goto(s: State, id: nat, phase: Phase): State
    requires id in s.calls
  {
    s.(calls := s.calls[id := s.calls[id].(phase := phase)])
  }

  function OpenLock(s: State, id: nat, ok: bool): State
    requires id in s.calls
  {
    if !ok then Goto(s, id, Finished(false))
    else if s.lock.Some? then Goto(s, id, Statting)
    else Goto(s, id, Entered).(lock := Some(Lock(id, s.clock, s.clock)))
  }

  function WriteOwnPid(s: State, id: nat, ok: bool): State
    requires id in s.calls
  {
    if !ok then Goto(s, id, Finished(false)).(lock := None)
    else if s.lock.Some? && s.lock.value.owner == id
    then Goto(s, id, Locked).(lock := Some(s.lock.value.(modified := s.clock)))
    else Goto(s, id, Locked)
  }

  function StatLock(s: State, id: nat, ok: bool): State
    requires id in s.calls
  {
    if !ok then Goto(s, id, Finished(false))
    else if s.lock.None? then Goto(s, id, Waiting)
    else Goto(s, id, Deciding(s.lock.value.modified, s.clock))
  }

  function Decide(s: State, id: nat, modified: int): State
    requires id in s.calls
  {
    Goto(s, id, if s.clock - modified <= LOCK_STALE_MS then Waiting else Removing)
  }

  /** Removes whatever file is at the lock's path by now. */
  function RemoveLock(s: State, id: nat, ok: bool): State
    requires id in s.calls
  {
    if !ok then Goto(s, id, Finished(false))
    else Goto(s, id, Waiting).(lock := None, stolen := s.stolen || s.lock.Some?)
  }

  function Retry(s: State, id: nat): State
    requires id in s.calls
  {
    Goto(s, id, if s.clock - s.calls[id].startedAt >= LOCK_WAIT_MAX_MS then Finished(false) else Opening)
  }

  function Load(s: State, id: nat, ok: bool): State
    requires id in s.calls
  {
    Goto(s, id, if ok then Loaded(Readable(s.contents)) else Releasing(false))
  }

  function OpenTemporary(s: State, id: nat, current: Providers, ok: bool): State
    requires id in s.calls
  {
    if !ok then Goto(s, id, Releasing(false)) else
      var next := current[s.calls[id].provider := s.calls[id].value];
      Goto(s, id, Filling(next)).(temporaries := s.temporaries[id := Temporary(next, false)])
  }

  function FillTemporary(s: State, id: nat, next: Providers, ok: bool): State
    requires id in s.calls
  {
    if !ok then Goto(s, id, Releasing(false)).(temporaries := s.temporaries - {id})
    else Goto(s, id, Renaming(next)).(temporaries := s.temporaries[id := Temporary(next, true)])
  }

  function Rename(s: State, id: nat, ok: bool): State
    requires id in s.calls
  {
    if !ok || id !in s.temporaries then Goto(s, id, Releasing(false)).(temporaries := s.temporaries - {id})
    else
      var renamed := s.temporaries[id];
      Goto(s, id, Releasing(true)).(
        contents := if renamed.complete then Document(renamed.providers) else Unreadable,
        temporaries := s.temporaries - {id},
        commits := s.commits + [(s.calls[id].provider, s.calls[id].value)])
  }

  function Release(s: State, id: nat, committed: bool): State
    requires id in s.calls
  {
    Goto(s, id, Finished(committed)).(lock := None)
  }

  function Step(s: State, id: nat, ok: bool): State
    requires id in s.calls
  {
    match s.calls[id].phase
    case Opening => OpenLock(s, id, ok)
    case Entered => WriteOwnPid(s, id, ok)
    case Statting => StatLock(s, id, ok)
    case Deciding(modified, _) => Decide(s, id, modified)
    case Removing => RemoveLock(s, id, ok)
    case Waiting => Retry(s, id)
    case Locked => Load(s, id, ok)
    case Loaded(current) => OpenTemporary(s, id, current, ok)
    case Filling(next) => FillTemporary(s, id, next, ok)
    case Renaming(next) => Rename(s, id, ok)
    case Releasing(committed) => Release(s, id, committed)
    case Finished(_) => s
  }

  /** Time may pass as long as nobody keeps the lock beyond `hold` or takes longer than `latency` to decide. */
  predicate InTime(s: State, now: int, hold: nat, latency: nat) {
    && (s.lock.Some? ==> now - s.lock.value.created <= hold)
    && (forall id | id in s.calls && s.calls[id].phase.Deciding? :: now - s.calls[id].phase.statAt <= latency)
  }

  predicate CanHappen(s: State, e: Event, hold: nat, latency: nat) {
    match e
    case Begun(id, _, _) => id !in s.calls
    case Stepped(id, _) => id in s.calls
    case Ticked(ms) => InTime(s, s.clock + ms, hold, latency)
  }

  function Apply(s: State, e: Event, hold: nat, latency: nat): State
    requires CanHappen(s, e, hold, latency)
  {
    match e
    case Begun(id, provider, value) => s.(calls := s.calls[id := Call(provider, value, s.clock, Opening)])
    case Stepped(id, ok) => Step(s, id, ok)
    case Ticked(ms) => s.(clock := s.clock + ms)
  }

  predicate IsRun(s: State, events: seq<Event>, hold: nat, latency: nat)
    decreases |events|
  {
    events == []
    || (CanHappen(s, events[0], hold, latency) && IsRun(Apply(s, events[0], hold, latency), events[1..], hold, latency))
  }

  function Run(s: State, events: seq<Event>, hold: nat, latency: nat): State
    requires IsRun(s, events, hold, latency)
    decreases |events|
  {
    if events == [] then s else Run(Apply(s, events[0], hold, latency), events[1..], hold, latency)
  }

  // ---- Invariant ----

  function Folded(start: Providers, commits: seq<(string, int)>): Providers
    decreases |commits|
  {
    if commits == [] then start else
      var last := commits[|commits| - 1];
      Folded(start, commits[..|commits| - 1])[last.0 := last.1]
  }

  /** Exactly the owner of the lock file believes to hold the lock. */
  predicate Exclusive(calls: map<nat, Call>, lock: Option<Lock>) {
    && (forall id | id in calls && Holds(calls[id].phase) :: lock.Some? && lock.value.owner == id)
    && (lock.Some? ==> lock.value.owner in calls && Holds(calls[lock.value.owner].phase))
  }

  /** Nobody has come to the conclusion that a lock is stale, or can. */
  predicate NoneStale(calls: map<nat, Call>, clock: int, hold: nat, latency: nat) {
    forall id | id in calls ::
      && calls[id].phase != Removing
      && (calls[id].phase.Deciding? ==>
            var phase := calls[id].phase;
            phase.statAt - phase.modified <= hold && clock - phase.statAt <= latency)
  }

  predicate Fresh(lock: Option<Lock>, clock: int, hold: nat) {
    lock.Some? ==>
      && lock.value.created <= lock.value.modified <= clock
      && clock - lock.value.created <= hold
  }

  /** Whoever has read the document has read what is still there, and its temporary file is what comes next. */
  predicate UpToDate(calls: map<nat, Call>, contents: Contents, temporaries: map<nat, Temporary>) {
    && (forall id | id in calls ::
          match calls[id].phase
          case Loaded(current) => current == Readable(contents)
          case Filling(next) =>
            && next == Readable(contents)[calls[id].provider := calls[id].value]
            && id in temporaries
          case Renaming(next) =>
            && next == Readable(contents)[calls[id].provider := calls[id].value]
            && id in temporaries && temporaries[id] == Temporary(next, true)
          case _ => true)
    && WritersOnly(calls, temporaries)
  }

  /** Temporary files belong to calls that are writing. */
  predicate WritersOnly(calls: map<nat, Call>, temporaries: map<nat, Temporary>) {
    forall id | id in temporaries :: id in calls && (calls[id].phase.Filling? || calls[id].phase.Renaming?)
  }

  predicate Committed(start: Contents, contents: Contents, commits: seq<(string, int)>) {
    contents == if commits == [] then start else Document(Folded(Readable(start), commits))
  }

  predicate Inv(s: State, start: Contents, hold: nat, latency: nat) {
    && !s.stolen
    && Exclusive(s.calls, s.lock)
    && NoneStale(s.calls, s.clock, hold, latency)
    && Fresh(s.lock, s.clock, hold)
    && UpToDate(s.calls, s.contents, s.temporaries)
    && Committed(start, s.contents, s.commits)
  }

  predicate TouchesNothing(phase: Phase) {
    !phase.Loaded? && !phase.Filling? && !phase.Renaming?
  }

  lemma PhaseKeepsData(calls: map<nat, Call>, contents: Contents, temporaries: map<nat, Temporary>,
                       id: nat, phase: Phase)
    requires UpToDate(calls, contents, temporaries) && id in calls && TouchesNothing(phase)
    ensures UpToDate(calls[id := calls[id].(phase := phase)], contents, temporaries - {id})
    ensures TouchesNothing(calls[id].phase) ==> temporaries - {id} == temporaries
  {
  }

  /** A call without the lock may go anywhere without it, except to removing the lock. */
  lemma GotoKeeps(s: State, id: nat, phase: Phase, start: Contents, hold: nat, latency: nat)
    requires Inv(s, start, hold, latency) && id in s.calls
    requires !Holds(s.calls[id].phase) && !Holds(phase) && phase != Removing
    requires phase.Deciding? ==> phase.statAt == s.clock && phase.statAt - phase.modified <= hold
    ensures Inv(Goto(s, id, phase), start, hold, latency)
  {
    PhaseKeepsData(s.calls, s.contents, s.temporaries, id, phase);
    hide UpToDate, Committed, Fresh;
  }

  lemma OpenKeeps(s: State, id: nat, ok: bool, start: Contents, hold: nat, latency: nat)
    requires Inv(s, start, hold, latency) && id in s.calls && s.calls[id].phase.Opening?
    ensures Inv(Step(s, id, ok), start, hold, latency)
  {
    if !ok {
      GotoKeeps(s, id, Finished(false), start, hold, latency);
    } else if s.lock.Some? {
      GotoKeeps(s, id, Statting, start, hold, latency);
    } else {
      PhaseKeepsData(s.calls, s.contents, s.temporaries, id, Entered);
    }
    hide UpToDate, Committed;
  }

  lemma WaiterKeeps(s: State, id: nat, ok: bool, start: Contents, hold: nat, latency: nat)
    requires Inv(s, start, hold, latency) && hold + latency <= LOCK_STALE_MS
    requires id in s.calls && !Holds(s.calls[id].phase) && !s.calls[id].phase.Opening?
    ensures Inv(Step(s, id, ok), start, hold, latency)
  {
    assert s.calls[id].phase != Removing;
    var after := Step(s, id, ok);
    if !s.calls[id].phase.Finished? {
      assert after == Goto(s, id, after.calls[id].phase);
      GotoKeeps(s, id, after.calls[id].phase, start, hold, latency);
    }
    hide Inv;
  }

  lemma LockerKeeps(s: State, id: nat, ok: bool, start: Contents, hold: nat, latency: nat)
    requires Inv(s, start, hold, latency) && id in s.calls
    requires s.calls[id].phase.Entered? || s.calls[id].phase.Releasing?
    ensures Inv(Step(s, id, ok), start, hold, latency)
  {
    PhaseKeepsData(s.calls, s.contents, s.temporaries, id, Step(s, id, ok).calls[id].phase);
    hide UpToDate, Committed;
  }

  /** Between taking the lock and giving it back a call stays its only holder. */
  lemma WriterHolds(s: State, id: nat, ok: bool, start: Contents, hold: nat, latency: nat)
    requires Inv(s, start, hold, latency) && id in s.calls
    requires s.calls[id].phase.Locked? || s.calls[id].phase.Loaded? || s.calls[id].phase.Filling?
    ensures var after := Step(s, id, ok);
            Exclusive(after.calls, after.lock) && NoneStale(after.calls, after.clock, hold, latency)
  {
    hide UpToDate, Committed, Fresh;
  }

  lemma WriterKeeps(s: State, id: nat, ok: bool, start: Contents, hold: nat, latency: nat)
    requires Inv(s, start, hold, latency) && id in s.calls
    requires s.calls[id].phase.Locked? || s.calls[id].phase.Loaded? || s.calls[id].phase.Filling?
    ensures Inv(Step(s, id, ok), start, hold, latency)
  {
    WriterHolds(s, id, ok, start, hold, latency);
    WriterWrites(s, id, ok);
    hide Committed, Exclusive, NoneStale, Fresh, UpToDate;
  }

  /** What it reads is up to date, and so is what it is about to put in place. */
  lemma WriterWrites(s: State, id: nat, ok: bool)
    requires UpToDate(s.calls, s.contents, s.temporaries) && id in s.calls
    requires s.calls[id].phase.Locked? || s.calls[id].phase.Loaded? || s.calls[id].phase.Filling?
    ensures var after := Step(s, id, ok); UpToDate(after.calls, after.contents, after.temporaries)
  {
    if !ok {
      PhaseKeepsData(s.calls, s.contents, s.temporaries, id, Releasing(false));
    }
  }

  /** A failed rename removes the temporary file and changes no other; one that succeeds adds one commit. */
  lemma RenameKeeps(s: State, id: nat, ok: bool, start: Contents, hold: nat, latency: nat)
    requires Inv(s, start, hold, latency)
    requires id in s.calls && s.calls[id].phase.Renaming?
    ensures var after := Step(s, id, ok);
            && Inv(after, start, hold, latency)
            && after.temporaries == s.temporaries - {id} && after.lock == s.lock
            && (!ok ==> after.contents == s.contents && after.commits == s.commits)
            && (ok ==>
                  && after.contents == Document(Readable(s.contents)[s.calls[id].provider := s.calls[id].value])
                  && after.commits == s.commits + [(s.calls[id].provider, s.calls[id].value)])
  {
    var commit := (s.calls[id].provider, s.calls[id].value);
    assert (s.commits + [commit])[..|s.commits|] == s.commits;
  }

  lemma EventKeeps(s: State, e: Event, start: Contents, hold: nat, latency: nat)
    requires Inv(s, start, hold, latency) && hold + latency <= LOCK_STALE_MS && CanHappen(s, e, hold, latency)
    ensures Inv(Apply(s, e, hold, latency), start, hold, latency)
  {
    match e {
      case Stepped(id, ok) =>
        match s.calls[id].phase {
          case Opening => OpenKeeps(s, id, ok, start, hold, latency);
          case Entered => LockerKeeps(s, id, ok, start, hold, latency);
          case Releasing(_) => LockerKeeps(s, id, ok, start, hold, latency);
          case Locked => WriterKeeps(s, id, ok, start, hold, latency);
          case Loaded(_) => WriterKeeps(s, id, ok, start, hold, latency);
          case Filling(_) => WriterKeeps(s, id, ok, start, hold, latency);
          case Renaming(_) => RenameKeeps(s, id, ok, start, hold, latency);
          case _ => WaiterKeeps(s, id, ok, start, hold, latency);
        }
        hide Step, Exclusive, NoneStale, Fresh, UpToDate, Committed;
      case _ =>
    }
  }

  lemma {:induction false} RunKeeps(s: State, events: seq<Event>, start: Contents, hold: nat, latency: nat)
    requires Inv(s, start, hold, latency) && hold + latency <= LOCK_STALE_MS && IsRun(s, events, hold, latency)
    ensures Inv(Run(s, events, hold, latency), start, hold, latency)
    decreases |events|
  {
    if events != [] {
      EventKeeps(s, events[0], start, hold, latency);
      RunKeeps(Apply(s, events[0], hold, latency), events[1..], start, hold, latency);
    }
  }

  // ---- What every run guarantees, and exactly when ----

  /** What the store is for: one holder at a time, whole documents only, and no lost update. */
  predicate Safe(s: State, start: Contents) {
    && !s.stolen
    && (forall a, b | a in s.calls && b in s.calls && Holds(s.calls[a].phase) && Holds(s.calls[b].phase) :: a == b)
    && s.contents == (if s.commits == [] then start else Document(Folded(Readable(start), s.commits)))
    && (forall id | id in s.temporaries :: id in s.calls && Holds(s.calls[id].phase))
  }

  lemma RunsAreSafe(start: Contents, events: seq<Event>, hold: nat, latency: nat)
    requires hold + latency <= LOCK_STALE_MS && IsRun(Initial(start), events, hold, latency)
    ensures Safe(Run(Initial(start), events, hold, latency), start)
  {
    RunKeeps(Initial(start), events, start, hold, latency);
  }

  lemma {:induction false} FoldedLast(start: Providers, commits: seq<(string, int)>, i: nat)
    requires i < |commits| && forall j | i < j < |commits| :: commits[j].0 != commits[i].0
    ensures commits[i].0 in Folded(start, commits) && Folded(start, commits)[commits[i].0] == commits[i].1
    decreases |commits|
  {
    var last := |commits| - 1;
    if i < last {
      assert forall j | i < j < last :: commits[..last][j].0 != commits[..last][i].0;
      FoldedLast(start, commits[..last], i);
      assert commits[last].0 != commits[i].0;
    }
  }

  /** Whatever the interleaving, every provider ends up with its last committed state. */
  lemma LastCommitWins(start: Contents, events: seq<Event>, hold: nat, latency: nat, i: nat)
    requires hold + latency <= LOCK_STALE_MS && IsRun(Initial(start), events, hold, latency)
    requires var commits := Run(Initial(start), events, hold, latency).commits;
             i < |commits| && forall j | i < j < |commits| :: commits[j].0 != commits[i].0
    ensures var s := Run(Initial(start), events, hold, latency);
            && s.contents.Document?
            && s.commits[i].0 in s.contents.providers
            && s.contents.providers[s.commits[i].0] == s.commits[i].1
  {
    RunsAreSafe(start, events, hold, latency);
    var s := Run(Initial(start), events, hold, latency);
    FoldedLast(Readable(start), s.commits, i);
  }

  // ---- Without the condition ----

  lemma RunStep(s: State, e: Event, events: seq<Event>, hold: nat, latency: nat)
    requires CanHappen(s, e, hold, latency) && IsRun(Apply(s, e, hold, latency), events, hold, latency)
    ensures IsRun(s, [e] + events, hold, latency)
    ensures Run(s, [e] + events, hold, latency) == Run(Apply(s, e, hold, latency), events, hold, latency)
  {
    assert ([e] + events)[1..] == events;
  }

  lemma {:induction false} RunAppend(s: State, first: seq<Event>, second: seq<Event>, hold: nat, latency: nat)
    requires IsRun(s, first, hold, latency) && IsRun(Run(s, first, hold, latency), second, hold, latency)
    ensures IsRun(s, first + second, hold, latency)
    ensures Run(s, first + second, hold, latency) == Run(Run(s, first, hold, latency), second, hold, latency)
    decreases |first|
  {
    if first == [] {
      assert first + second == second;
    } else {
      assert (first + second)[1..] == first[1..] + second;
      RunAppend(Apply(s, first[0], hold, latency), first[1..], second, hold, latency);
    }
  }

  /** Call 0 has held the lock as long as it may; call 1 has just looked at its file. */
  predicate Looked(s: State, hold: nat) {
    && s.calls.Keys == {0, 1} && s.clock == hold && !s.stolen
    && s.calls[0].phase == Entered && s.calls[1].phase == Deciding(0, hold)
    && s.lock == Some(Lock(0, 0, 0))
  }

  lemma Looks(start: Contents, hold: nat, latency: nat) returns (events: seq<Event>)
    ensures IsRun(Initial(start), events, hold, latency)
    ensures Looked(Run(Initial(start), events, hold, latency), hold)
  {
    var s0 := Initial(start);
    var s1 := Apply(s0, Begun(0, "", 0), hold, latency);
    var s2 := Apply(s1, Stepped(0, true), hold, latency);
    var s3 := Apply(s2, Begun(1, "", 0), hold, latency);
    var s4 := Apply(s3, Stepped(1, true), hold, latency);
    var s5 := Apply(s4, Ticked(hold), hold, latency);
    RunStep(s5, Stepped(1, true), [], hold, latency);
    RunStep(s4, Ticked(hold), [Stepped(1, true)] + [], hold, latency);
    events := [Ticked(hold)] + ([Stepped(1, true)] + []);
    RunStep(s3, Stepped(1, true), events, hold, latency);
    events := [Stepped(1, true)] + events;
    RunStep(s2, Begun(1, "", 0), events, hold, latency);
    events := [Begun(1, "", 0)] + events;
    RunStep(s1, Stepped(0, true), events, hold, latency);
    events := [Stepped(0, true)] + events;
    RunStep(s0, Begun(0, "", 0), events, hold, latency);
    events := [Begun(0, "", 0)] + events;
  }

  /**
   Call 0 gives up and releases; call 2 takes the lock just before call 1 acts on what it saw and
   removes it, so that call 3 gets it as well.
   */
  lemma Steals(s: State, hold: nat, latency: nat) returns (events: seq<Event>)
    requires Looked(s, hold) && hold + latency > LOCK_STALE_MS
    ensures IsRun(s, events, hold, latency)
    ensures var after := Run(s, events, hold, latency);
            && after.stolen && 2 in after.calls && 3 in after.calls
            && after.calls[2].phase == Entered && after.calls[3].phase == Entered
  {
    var s1 := Apply(s, Stepped(0, false), hold, latency);
    var s2 := Apply(s1, Ticked(latency), hold, latency);
    var s3 := Apply(s2, Begun(2, "", 0), hold, latency);
    var s4 := Apply(s3, Stepped(2, true), hold, latency);
    var s5 := Apply(s4, Stepped(1, true), hold, latency);
    assert s5.calls[1].phase == Removing;
    var s6 := Apply(s5, Stepped(1, true), hold, latency);
    var s7 := Apply(s6, Begun(3, "", 0), hold, latency);
    RunStep(s7, Stepped(3, true), [], hold, latency);
    RunStep(s6, Begun(3, "", 0), [Stepped(3, true)] + [], hold, latency);
    events := [Begun(3, "", 0)] + ([Stepped(3, true)] + []);
    RunStep(s5, Stepped(1, true), events, hold, latency);
    events := [Stepped(1, true)] + events;
    RunStep(s4, Stepped(1, true), events, hold, latency);
    events := [Stepped(1, true)] + events;
    RunStep(s3, Stepped(2, true), events, hold, latency);
    events := [Stepped(2, true)] + events;
    RunStep(s2, Begun(2, "", 0), events, hold, latency);
    events := [Begun(2, "", 0)] + events;
    RunStep(s1, Ticked(latency), events, hold, latency);
    events := [Ticked(latency)] + events;
    RunStep(s, Stepped(0, false), events, hold, latency);
    events := [Stepped(0, false)] + events;
  }

  ghost predicate Breaks(start: Contents, events: seq<Event>, hold: nat, latency: nat) {
    && IsRun(Initial(start), events, hold, latency)
    && var s := Run(Initial(start), events, hold, latency);
       && s.stolen
       && exists a, b | a in s.calls && b in s.calls :: a != b && Holds(s.calls[a].phase) && Holds(s.calls[b].phase)
  }

  /**
   A bound on how long a lock is held is not enough: a waiter may decide on an old look at a lock that
   was replaced meanwhile. A lock in use can be removed, and two calls can then hold the lock, exactly
   if holding a lock and deciding on a look at one together may take longer than `LockStaleMs`.
   */
  lemma LockBreaksExactlyWhen(start: Contents, hold: nat, latency: nat)
    ensures (exists events :: Breaks(start, events, hold, latency)) <==> hold + latency > LOCK_STALE_MS
  {
    if hold + latency <= LOCK_STALE_MS {
      forall events
        ensures !Breaks(start, events, hold, latency)
      {
        if Breaks(start, events, hold, latency) {
          RunsAreSafe(start, events, hold, latency);
        }
      }
    } else {
      var first := Looks(start, hold, latency);
      var second := Steals(Run(Initial(start), first, hold, latency), hold, latency);
      RunAppend(Initial(start), first, second, hold, latency);
      var s := Run(Initial(start), first + second, hold, latency);
      hide Run, IsRun;
      assert 2 in s.calls && 3 in s.calls && Holds(s.calls[2].phase) && Holds(s.calls[3].phase);
      assert Breaks(start, first + second, hold, latency);
    }
  }

  // ---- Failing ----

  /** A failing file operation ends the call, or lets it go on to give its lock back; it leaves no temporary file. */
  lemma FailuresEndTheCall(s: State, id: nat)
    requires id in s.calls
    ensures var (t, phase) := (Step(s, id, false), s.calls[id].phase);
            && id in t.calls && t.contents == s.contents && t.commits == s.commits
            && (phase.Opening? || phase.Statting? || phase.Removing? ==>
                  t.calls[id].phase == Finished(false) && t.lock == s.lock)
            && (phase.Entered? ==> t.calls[id].phase == Finished(false) && t.lock.None?)
            && (phase.Locked? || phase.Loaded? || phase.Filling? || phase.Renaming? ==>
                  t.calls[id].phase == Releasing(false) && t.lock == s.lock)
            && (phase.Filling? || phase.Renaming? ==> t.temporaries == s.temporaries - {id})
            && (phase.Releasing? ==> t.calls[id].phase == Finished(phase.committed) && t.lock.None?)
  {
  }

  // ---- Waiting ----

  /**
   A call that waits tries again exactly until it has waited for `LOCK_WAIT_MAX_MS`, and a free lock is
   then its own.
   */
  lemma WaiterGetsTheLock(s: State, id: nat)
    requires id in s.calls && s.calls[id].phase == Waiting
    ensures forall ok ::
              Step(s, id, ok).calls[id].phase ==
                if s.clock - s.calls[id].startedAt < LOCK_WAIT_MAX_MS then Opening else Finished(false)
    ensures s.clock - s.calls[id].startedAt < LOCK_WAIT_MAX_MS && s.lock.None? ==>
              var after := Step(Step(s, id, true), id, true);
              after.calls[id].phase == Entered && after.lock == Some(Lock(id, s.clock, s.clock))
  {
    hide StatLock, Decide, RemoveLock, Load, OpenTemporary, FillTemporary, Rename, Release;
    assert forall ok :: Step(s, id, ok) == Retry(s, id);
  }
}

module CatalogStore {
  import opened Wrappers
  import opened CatalogStoreModel

  /** What all other calls and the clock do before this call's next file operation, and how that one goes. */
  datatype Turn = Turn(others: seq<Event>, ok: bool)

  /** The directory as one store sees it, shared with every other call of every process. */
  class FileModelCatalogStore {
    var files: State
    var turn: nat
    const schedule: nat -> Turn
    const start: Contents
    const hold: nat
    const latency: nat

    /** Whether a lock is held and looked at so briefly that nobody takes it for a stale one. */
    ghost predicate Bounded() {
      hold + latency <= LOCK_STALE_MS
    }

    ghost predicate Valid()
      reads this
    {
      WritersOnly(files.calls, files.temporaries) && (Bounded() ==> Inv(files, start, hold, latency))
    }

    constructor (start: Contents, hold: nat, latency: nat, schedule: nat -> Turn)
      ensures Valid() && files == Initial(start)
      ensures this.start == start && this.hold == hold && this.latency == latency
    {
      this.start, this.hold, this.latency, this.schedule := start, hold, latency, schedule;
      files, turn := Initial(start), 0;
    }

    // ---- One call among the others ----

    /** An event of the others: what cannot happen, and what would act for this call, does not. */
    function Occurs(s: State, e: Event, id: nat): State {
      if CanHappen(s, e, hold, latency) && (e.Stepped? ==> e.call != id) then Apply(s, e, hold, latency) else s
    }

    function Interleaved(s: State, others: seq<Event>, id: nat): State
      decreases |others|
    {
      if others == [] then s
      else Occurs(Interleaved(s, others[..|others| - 1], id), others[|others| - 1], id)
    }

    function OneTurn(s: State, id: nat, now: Turn): State {
      var found := Interleaved(s, now.others, id);
      if id in found.calls then Step(found, id, now.ok) else found
    }

    /** The directory after `n` file operations of this call, the first of them at turn `from`. */
    function After(s: State, id: nat, from: nat, n: nat): State {
      if n == 0 then s else OneTurn(After(s, id, from, n - 1), id, schedule(from + n - 1))
    }

    predicate FoundTaken(before: State, after: State, id: nat) {
      && id in before.calls && before.calls[id].phase.Opening?
      && id in after.calls && after.calls[id].phase.Statting?
    }

    /** How often the call has found the lock taken. */
    function Rounds(s: State, id: nat, from: nat, n: nat): nat {
      if n == 0 then 0
      else Rounds(s, id, from, n - 1)
           + (if FoundTaken(After(s, id, from, n - 1), After(s, id, from, n), id) then 1 else 0)
    }

    /**
     Since turn `from` the call has done one file operation after the other, none after it was finished,
     and has found the lock taken `rounds` times.
     */
    ghost predicate Follows(s: State, id: nat, from: nat, rounds: nat)
      reads this
    {
      from <= turn && Followed(s, id, from, turn - from, rounds, files)
    }

    ghost predicate Followed(s: State, id: nat, from: nat, n: nat, rounds: nat, now: State) {
      && now == After(s, id, from, n) && rounds == Rounds(s, id, from, n)
      && forall k | 0 <= k < n ::
           var t := After(s, id, from, k);
           id in t.calls && !t.calls[id].phase.Finished?
    }

    lemma OneMore(s: State, id: nat, from: nat, n: nat, rounds: nat, now: State, next: State)
      requires Followed(s, id, from, n, rounds, now) && id in now.calls && !now.calls[id].phase.Finished?
      requires next == OneTurn(now, id, schedule(from + n))
      ensures Followed(s, id, from, n + 1, rounds + (if FoundTaken(now, next, id) then 1 else 0), next)
    {
      hide OneTurn;
    }

    /** The others' turn. */
    method Interleave(id: nat, others: seq<Event>)
      requires Valid() && id in files.calls
      modifies this`files
      ensures Valid() && id in files.calls && files.calls[id] == old(files.calls[id])
      ensures files == Interleaved(old(files), others, id)
      ensures old(files.commits) <= files.commits
      ensures Bounded() && Holds(old(files.calls[id].phase)) ==> files.commits == old(files.commits)
    {
      for k := 0 to |others|
        invariant Valid() && id in files.calls && files.calls[id] == old(files.calls[id])
        invariant files == Interleaved(old(files), others[..k], id)
        invariant old(files.commits) <= files.commits
        invariant Bounded() && Holds(old(files.calls[id].phase)) ==> files.commits == old(files.commits)
      {
        var e := others[k];
        assert others[..k + 1][..k] == others[..k];
        if CanHappen(files, e, hold, latency) && (e.Stepped? ==> e.call != id) {
          StepsOfOthers(files, e, id, hold, latency);
          if Bounded() {
            EventKeeps(files, e, start, hold, latency);
            if Holds(files.calls[id].phase) {
              HolderIsAlone(files, e, id, start, hold, latency);
            }
          }
          hide Inv, WritersOnly;
          files := Apply(files, e, hold, latency);
        }
      }
      assert others[..|others|] == others;
    }

    /** One turn: the others', and then one file operation of this call. */
    method TakeTurn(id: nat) returns (ghost before: State)
      requires Valid() && id in files.calls
      modifies this`files, this`turn
      ensures Valid() && (Bounded() ==> Inv(before, start, hold, latency))
      ensures id in before.calls && before.calls[id] == old(files.calls[id]) && old(files.commits) <= before.commits
      ensures Bounded() && Holds(old(files.calls[id].phase)) ==> before.commits == old(files.commits)
      ensures Moved(before, files, id) && exists ok :: files == Step(before, id, ok)
      ensures turn == old(turn) + 1 && files == OneTurn(old(files), id, schedule(old(turn)))
    {
      var now := schedule(turn);
      turn := turn + 1;
      Interleave(id, now.others);
      before := files;
      if Bounded() {
        EventKeeps(files, Stepped(id, now.ok), start, hold, latency);
      }
      OwnStep(files, id, now.ok);
      hide Inv, WritersOnly, Interleaved;
      files := Step(files, id, now.ok);
    }

    /** One file operation of this call; `before` is the directory it finds. */
    method Operate(id: nat, ghost s: State, ghost from: nat, ghost rounds: nat) returns (ghost before: State)
      requires Valid() && id in files.calls && !files.calls[id].phase.Finished? && Follows(s, id, from, rounds)
      modifies this`files, this`turn
      ensures Valid() && (Bounded() ==> Inv(before, start, hold, latency))
      ensures Follows(s, id, from, rounds + if FoundTaken(old(files), files, id) then 1 else 0)
      ensures id in before.calls && before.calls[id] == old(files.calls[id]) && old(files.commits) <= before.commits
      ensures Bounded() && Holds(old(files.calls[id].phase)) ==> before.commits == old(files.commits)
      ensures Moved(before, files, id) && exists ok :: files == Step(before, id, ok)
    {
      hide Inv, WritersOnly, Step, Moved, Followed, FoundTaken, OneTurn;
      before := TakeTurn(id);
      OneMore(s, id, from, turn - 1 - from, rounds, old(files), files);
    }

    /**
     Takes the lock, however long that takes; false if a file operation failed, the call has waited too
     long, or the lock was found taken `attempts` times.
     */
    method AcquireLock(id: nat, attempts: nat, ghost s: State, ghost from: nat)
      returns (acquired: bool, ghost rounds: nat)
      requires Valid() && id in files.calls && files.calls[id].phase == Opening
      requires Follows(s, id, from, 0)
      modifies this`files, this`turn
      ensures Follows(s, id, from, rounds)
      ensures id in files.calls && files.calls[id].phase == Opening ==> rounds == attempts
      ensures Valid() && id in files.calls && files.calls[id].provider == old(files.calls[id].provider)
      ensures files.calls[id].value == old(files.calls[id].value) && old(files.commits) <= files.commits
      ensures if acquired then files.calls[id].phase == Locked
              else files.calls[id].phase == Opening || files.calls[id].phase == Finished(false)
    {
      hide Step, Exclusive, NoneStale, Fresh, UpToDate, Committed, Follows, Inv, WritersOnly;
      rounds := 0;
      for i := 0 to attempts
        invariant Follows(s, id, from, i) && rounds == i
        invariant Valid() && id in files.calls && files.calls[id].phase == Opening
        invariant files.calls[id].provider == old(files.calls[id].provider)
        invariant files.calls[id].value == old(files.calls[id].value) && old(files.commits) <= files.commits
      {
        var _ := Operate(id, s, from, rounds);
        if files.calls[id].phase.Entered? {
          var _ := Operate(id, s, from, rounds);
          acquired := files.calls[id].phase.Locked?;
          return;
        }
        if files.calls[id].phase.Finished? {
          return false, rounds;
        }
        rounds := rounds + 1;
        var _, _ := RemoveStaleLock(id, s, from, rounds);
        if files.calls[id].phase.Finished? {
          return false, rounds;
        }
        var _ := Operate(id, s, from, rounds);
        if files.calls[id].phase.Finished? {
          return false, rounds;
        }
      }
      acquired := false;
    }

    /**
     Looks at the lock and removes it if it looks stale: exactly if more than `LOCK_STALE_MS` lie between
     the time it sees on the file and the decision, and the removal does not fail. Within the bounds that
     never is so.
     */
    method RemoveStaleLock(id: nat, ghost s: State, ghost from: nat, ghost rounds: nat)
      returns (ghost age: Option<int>, ghost removed: bool)
      requires Valid() && id in files.calls && files.calls[id].phase == Statting && Follows(s, id, from, rounds)
      modifies this`files, this`turn
      ensures Follows(s, id, from, rounds)
      ensures Valid() && id in files.calls && files.calls[id].provider == old(files.calls[id].provider)
      ensures files.calls[id].value == old(files.calls[id].value) && old(files.commits) <= files.commits
      ensures files.calls[id].phase == Waiting || files.calls[id].phase == Finished(false)
      ensures removed <==> files.calls[id].phase == Waiting && age.Some? && age.value > LOCK_STALE_MS
      ensures removed ==> files.lock.None?
      ensures Bounded() ==> !removed
    {
      hide Step, Exclusive, Fresh, UpToDate, Committed, WritersOnly, Follows;
      age, removed := None, false;
      var _ := Operate(id, s, from, rounds);
      if files.calls[id].phase.Deciding? {
        ghost var modified := files.calls[id].phase.modified;
        ghost var looked := Operate(id, s, from, rounds);
        age := Some(looked.clock - modified);
        DecidesByAge(looked, id);
        if files.calls[id].phase.Removing? {
          assert !Bounded();
          ghost var found := Operate(id, s, from, rounds);
          RemovesLock(found, id);
          removed := files.calls[id].phase == Waiting;
        }
      }
    }

    /** Writes a temporary file and renames it; a failure at any point removes the file again. */
    method AtomicWrite(id: nat, ghost s: State, ghost from: nat, ghost rounds: nat)
      requires Valid() && id in files.calls && files.calls[id].phase.Loaded? && Follows(s, id, from, rounds)
      modifies this`files, this`turn
      ensures Follows(s, id, from, rounds)
      ensures Valid() && id in files.calls && files.calls[id].phase.Releasing? && id !in files.temporaries
      ensures files.calls[id].provider == old(files.calls[id].provider)
      ensures files.calls[id].value == old(files.calls[id].value) && old(files.commits) <= files.commits
      ensures var mine := (old(files.calls[id].provider), old(files.calls[id].value));
              && (files.calls[id].phase.committed ==> CommittedSince(old(files.commits), files.commits, mine))
              && (Bounded() ==>
                    files.commits == old(files.commits) + (if files.calls[id].phase.committed then [mine] else []))
    {
      hide Step, Exclusive, NoneStale, Fresh, UpToDate, Committed, WritersOnly, Follows;
      var _ := Operate(id, s, from, rounds);
      if files.calls[id].phase.Filling? {
        var _ := Operate(id, s, from, rounds);
      }
      if files.calls[id].phase.Renaming? {
        ghost var before := Operate(id, s, from, rounds);
        assert files.calls[id].phase.committed ==>
          files.commits[|before.commits|] == (old(files.calls[id].provider), old(files.calls[id].value));
      }
    }

    /**
     One whole call: its file operations one after the other, until it is finished or has found the lock
     taken `attempts` times. If it reports success its state was committed during the call, and it does
     report success if the lock is free, nothing fails and nobody else is about.
     */
    method WriteProvider(id: nat, provider: string, value: int, attempts: nat) returns (committed: bool)
      requires Valid() && id !in files.calls
      modifies this`files, this`turn
      ensures Valid() && id in files.calls && old(files.commits) <= files.commits
      ensures files.calls[id].phase == Finished(committed) || (files.calls[id].phase == Opening && !committed)
      ensures committed ==> CommittedSince(old(files.commits), files.commits, (provider, value))
      ensures exists rounds: nat ::
                && Follows(Apply(old(files), Begun(id, provider, value), hold, latency), id, old(turn), rounds)
                && (files.calls[id].phase.Opening? ==> rounds == attempts)
      ensures attempts > 0 && old(files).lock.None? && id !in old(files).temporaries && IsQuiet(old(turn)) ==>
                && committed && files.lock.None? && files.temporaries == old(files).temporaries
                && files.contents == Document(Readable(old(files).contents)[provider := value])
                && files.commits == old(files).commits + [(provider, value)]
    {
      hide Step, Apply, Inv, WritersOnly, IsQuiet, Follows, IsWritten;
      ghost var s := Begin(id, provider, value);
      ghost var rounds;
      committed, rounds := Perform(id, attempts, s, turn);
      EndsWhenFinished(s, id, old(turn), rounds, attempts);
      hide Valid;
      WrittenMeans(old(files), s, files, id, provider, value);
    }

    method Begin(id: nat, provider: string, value: int) returns (ghost s: State)
      requires Valid() && id !in files.calls
      modifies this`files
      ensures Valid() && files == s && s == Apply(old(files), Begun(id, provider, value), hold, latency)
      ensures id in s.calls && s.calls[id] == Call(provider, value, old(files).clock, Opening)
      ensures s == old(files).(calls := s.calls) && Follows(s, id, turn, 0)
    {
      if Bounded() {
        EventKeeps(files, Begun(id, provider, value), start, hold, latency);
      }
      hide Inv;
      files := Apply(files, Begun(id, provider, value), hold, latency);
      s := files;
    }

    /** The call once it has begun. */
    method Perform(id: nat, attempts: nat, ghost s: State, ghost from: nat) returns (committed: bool, ghost rounds: nat)
      requires Valid() && id in files.calls && files.calls[id].phase == Opening && Follows(s, id, from, 0)
      modifies this`files, this`turn
      ensures Valid() && id in files.calls && old(files.commits) <= files.commits && Follows(s, id, from, rounds)
      ensures files.calls[id].phase == Finished(committed)
              || (files.calls[id].phase == Opening && !committed && rounds == attempts)
      ensures committed ==>
                CommittedSince(old(files.commits), files.commits,
                               (old(files.calls[id].provider), old(files.calls[id].value)))
    {
      hide Step, Exclusive, NoneStale, Fresh, UpToDate, Committed, Follows, WritersOnly, CommittedSince;
      var acquired;
      acquired, rounds := AcquireLock(id, attempts, s, from);
      if !acquired {
        committed := false;
        return;
      }
      var _ := Operate(id, s, from, rounds);
      ghost var held, written := files.commits, files.commits;
      if files.calls[id].phase.Loaded? {
        AtomicWrite(id, s, from, rounds);
        written := files.commits;
      }
      committed := files.calls[id].phase.committed;
      var _ := Operate(id, s, from, rounds);
      if committed {
        StillCommitted(old(files.commits), held, written, files.commits,
                       (old(files.calls[id].provider), old(files.calls[id].value)));
      }
    }

    /** Nobody else is about at the turns of one undisturbed call, and no file operation fails. */
    predicate IsQuiet(from: nat) {
      forall k | from <= k < from + LONE_STEPS :: schedule(k) == Turn([], true)
    }

    /** A call that is alone and finds the lock free takes it, writes its state and gives the lock back. */
    lemma LoneCall(s: State, id: nat, from: nat, n: nat)
      requires id in s.calls && s.calls[id].phase == Opening && s.lock.None? && id !in s.temporaries
      requires IsQuiet(from) && n <= LONE_STEPS
      ensures After(s, id, from, n) == Steps(s, id, n)
    {
      if n > 0 {
        LoneCall(s, id, from, n - 1);
        assert schedule(from + n - 1) == Turn([], true);
        hide Step;
      }
    }

    lemma NoRounds(s: State, id: nat, from: nat, n: nat)
      requires forall k | 0 <= k <= n ::
                 id in After(s, id, from, k).calls && !After(s, id, from, k).calls[id].phase.Statting?
      ensures Rounds(s, id, from, n) == 0
    {
      if n > 0 {
        NoRounds(s, id, from, n - 1);
      }
    }

    /** A call that is alone, finds the lock free and has stopped has written its state and given the lock back. */
    lemma EndsWhenFinished(s: State, id: nat, from: nat, rounds: nat, attempts: nat)
      requires Follows(s, id, from, rounds) && id in files.calls && id in s.calls && s.calls[id].phase == Opening
      requires files.calls[id].phase.Finished? || (files.calls[id].phase.Opening? && rounds == attempts)
      ensures attempts > 0 && s.lock.None? && id !in s.temporaries && IsQuiet(from) ==> IsWritten(s, files, id)
    {
      if attempts > 0 && s.lock.None? && id !in s.temporaries && IsQuiet(from) {
        var n := turn - from;
        forall k: nat | k <= LONE_STEPS
          ensures IsLone(s, After(s, id, from, k), id, k)
        {
          LoneCall(s, id, from, k);
          LoneSteps(s, id, k);
        }
        hide IsQuiet, After, Steps;
        LoneEnd(s, id, from, n, rounds, attempts);
      }
    }

    lemma LoneEnd(s: State, id: nat, from: nat, n: nat, rounds: nat, attempts: nat)
      requires Followed(s, id, from, n, rounds, files) && id in files.calls && attempts > 0
      requires files.calls[id].phase.Finished? || (files.calls[id].phase.Opening? && rounds == attempts)
      requires id in s.calls && forall k: nat | k <= LONE_STEPS :: IsLone(s, After(s, id, from, k), id, k)
      ensures IsWritten(s, files, id)
    {
      hide After;
      assert IsLone(s, After(s, id, from, LONE_STEPS), id, LONE_STEPS);
      assert n <= LONE_STEPS;
      assert IsLone(s, After(s, id, from, n), id, n);
      if n < LONE_STEPS {
        NoRounds(s, id, from, n);
      }
    }
  }

  /** How many file operations an undisturbed call does: open, write, read, create, fill, rename, unlink. */
  const LONE_STEPS: nat := 7

  /** The call has succeeded, and its provider has its state. */
  predicate IsWritten(s: State, after: State, id: nat)
    requires id in s.calls
  {
    && id in after.calls && after.calls[id].phase == Finished(true)
    && after.lock.None? && after.temporaries == s.temporaries
    && after.contents == Document(Readable(s.contents)[s.calls[id].provider := s.calls[id].value])
    && after.commits == s.commits + [(s.calls[id].provider, s.calls[id].value)]
  }

  function Steps(s: State, id: nat, n: nat): State {
    if n == 0 then s else
      var before := Steps(s, id, n - 1);
      if id in before.calls then Step(before, id, true) else before
  }

  lemma WrittenMeans(before: State, s: State, after: State, id: nat, provider: string, value: int)
    requires id !in before.calls && id in s.calls && s.calls[id].provider == provider && s.calls[id].value == value
    requires s == before.(calls := s.calls)
    ensures IsWritten(s, after, id) ==>
              && after.calls[id].phase == Finished(true) && after.lock.None? && after.temporaries == before.temporaries
              && after.contents == Document(Readable(before.contents)[provider := value])
              && after.commits == before.commits + [(provider, value)]
  {
  }

  function Written(s: State, id: nat): Providers
    requires id in s.calls
  {
    Readable(s.contents)[s.calls[id].provider := s.calls[id].value]
  }

  /** Where a call that is alone stands after `n` file operations. */
  function LonePhase(s: State, id: nat, n: nat): Phase
    requires id in s.calls
  {
    match n
    case 0 => Opening
    case 1 => Entered
    case 2 => Locked
    case 3 => Loaded(Readable(s.contents))
    case 4 => Filling(Written(s, id))
    case 5 => Renaming(Written(s, id))
    case 6 => Releasing(true)
    case _ => Finished(true)
  }

  /** The directory then: the lock is there while the call holds it, and nothing of the others has changed. */
  predicate IsLone(s: State, t: State, id: nat, n: nat) {
    && id in s.calls && t.calls == s.calls[id := s.calls[id].(phase := LonePhase(s, id, n))]
    && (t.lock.Some? <==> 1 <= n <= 6)
    && t.contents == (if n <= 5 then s.contents else Document(Written(s, id)))
    && t.commits == (if n <= 5 then s.commits else s.commits + [(s.calls[id].provider, s.calls[id].value)])
    && t.temporaries == (if 4 <= n <= 5 then s.temporaries[id := Temporary(Written(s, id), n == 5)] else s.temporaries)
  }

  lemma LoneTaking(s: State, t: State, id: nat, n: nat)
    requires IsLone(s, t, id, n) && n < 3
    ensures IsLone(s, Step(t, id, true), id, n + 1)
  {
  }

  lemma LoneWriting(s: State, t: State, id: nat, n: nat)
    requires IsLone(s, t, id, n) && 3 <= n < LONE_STEPS && id !in s.temporaries
    ensures IsLone(s, Step(t, id, true), id, n + 1)
  {
    assert n == 5 ==> t.temporaries - {id} == s.temporaries;
  }

  lemma {:induction false} LoneSteps(s: State, id: nat, n: nat)
    requires id in s.calls && s.calls[id].phase == Opening && s.lock.None? && id !in s.temporaries && n <= LONE_STEPS
    ensures IsLone(s, Steps(s, id, n), id, n)
  {
    if n > 0 {
      LoneSteps(s, id, n - 1);
      hide Step;
      if n - 1 < 3 {
        LoneTaking(s, Steps(s, id, n - 1), id, n - 1);
      } else {
        LoneWriting(s, Steps(s, id, n - 1), id, n - 1);
      }
      hide IsLone;
    }
  }

  /** The commit is among those that came after. */
  ghost predicate CommittedSince(earlier: seq<(string, int)>, commits: seq<(string, int)>, commit: (string, int)) {
    exists k | |earlier| <= k < |commits| :: commits[k] == commit
  }

  lemma StillCommitted(start: seq<(string, int)>, earlier: seq<(string, int)>, commits: seq<(string, int)>,
                       later: seq<(string, int)>, commit: (string, int))
    requires start <= earlier && CommittedSince(earlier, commits, commit) && commits <= later
    ensures CommittedSince(start, later, commit)
  {
    var k :| |earlier| <= k < |commits| && commits[k] == commit;
    assert later[k] == commit;
  }

  lemma StepsOfOthers(s: State, e: Event, id: nat, hold: nat, latency: nat)
    requires WritersOnly(s.calls, s.temporaries)
    requires CanHappen(s, e, hold, latency) && id in s.calls && (e.Stepped? ==> e.call != id)
    ensures var after := Apply(s, e, hold, latency);
            && id in after.calls && after.calls[id] == s.calls[id] && s.commits <= after.commits
            && WritersOnly(after.calls, after.temporaries)
  {
    if e.Stepped? {
      OwnStep(s, e.call, e.ok);
      hide Step;
    }
  }

  lemma HolderIsAlone(s: State, e: Event, id: nat, start: Contents, hold: nat, latency: nat)
    requires Inv(s, start, hold, latency) && CanHappen(s, e, hold, latency)
    requires id in s.calls && Holds(s.calls[id].phase) && (e.Stepped? ==> e.call != id)
    ensures Apply(s, e, hold, latency).commits == s.commits
  {
    hide NoneStale, Fresh, UpToDate, Committed;
  }

  /** Which phase can follow which. */
  predicate Moves(from: Phase, to: Phase) {
    match from
    case Opening => to == Entered || to == Statting || to == Finished(false)
    case Statting => to.Deciding? || to == Waiting || to == Finished(false)
    case Deciding(_, _) => to == Removing || to == Waiting
    case Removing => to == Waiting || to == Finished(false)
    case Waiting => to == Opening || to == Finished(false)
    case Entered => to == Locked || to == Finished(false)
    case Locked => to.Loaded? || to == Releasing(false)
    case Loaded(_) => to.Filling? || to == Releasing(false)
    case Filling(_) => to.Renaming? || to == Releasing(false)
    case Renaming(_) => to.Releasing?
    case Releasing(committed) => to == Finished(committed)
    case Finished(_) => to == from
  }

  /** What one step does to the call itself and to the commits. */
  predicate Moved(before: State, after: State, id: nat)
    requires id in before.calls
  {
    && id in after.calls
    && after.calls == before.calls[id := before.calls[id].(phase := after.calls[id].phase)]
    && Moves(before.calls[id].phase, after.calls[id].phase)
    && after.commits == before.commits +
         (if before.calls[id].phase.Renaming? && after.calls[id].phase == Releasing(true)
          then [(before.calls[id].provider, before.calls[id].value)] else [])
    && (after.calls[id].phase.Releasing? ==> id !in after.temporaries)
  }

  lemma OwnStep(s: State, id: nat, ok: bool)
    requires id in s.calls && WritersOnly(s.calls, s.temporaries)
    ensures Moved(s, Step(s, id, ok), id) && WritersOnly(Step(s, id, ok).calls, Step(s, id, ok).temporaries)
  {
    assert s.commits + [] == s.commits;
  }

  lemma DecidesByAge(s: State, id: nat)
    requires id in s.calls && s.calls[id].phase.Deciding?
    ensures forall ok ::
              Step(s, id, ok).calls[id].phase ==
                if s.clock - s.calls[id].phase.modified > LOCK_STALE_MS then Removing else Waiting
  {
  }

  lemma RemovesLock(s: State, id: nat)
    requires id in s.calls && s.calls[id].phase.Removing?
    ensures forall ok :: Step(s, id, ok).calls[id].phase == Waiting ==> Step(s, id, ok).lock.None?
  {
  }
}
