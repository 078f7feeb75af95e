/**
 The command history of emain/agent-tools/agent-pty-host.ts: hosted commands complete by exiting or by
 a stop that times out, whichever comes first, and only the newest completed ones are kept.
 */
module PtyHostModel {
  import opened Wrappers

  datatype Entry = Entry(running: bool, completedSequence: Option<nat>)

  /**
   `kept` are the commands in the host's map in the order of their start; `entries` has every entry
   object there ever was, since an exit handler or a pending stop may outlive the map's interest in it.
   `completions` are all completions in order, `history` those of kept commands since the last clear.
   */
  datatype State = State(
    entries: map<nat, Entry>, kept: seq<nat>, counter: nat, maxCompleted: int,
    completions: seq<nat>, history: seq<nat>)

  function Initial(maxCompleted: int): State {
    State(map[], [], 0, maxCompleted, [], [])
  }

  /** A negative limit keeps nothing, as zero does. */
  function Limit(maxCompleted: int): nat {
    if maxCompleted < 0 then 0 else maxCompleted
  }

  function SequenceOf(entries: map<nat, Entry>, id: nat): nat {
    if id in entries && entries[id].completedSequence.Some? then entries[id].completedSequence.value else 0
  }

  function Done(entries: map<nat, Entry>, kept: seq<nat>): set<nat> {
    set id | id in kept && id in entries && !entries[id].running
  }

  function Newer(entries: map<nat, Entry>, done: set<nat>, id: nat): set<nat> {
    set j | j in done && SequenceOf(entries, j) > SequenceOf(entries, id)
  }

  /** A completed command goes when the limit is filled by newer ones. */
  function Oldest(entries: map<nat, Entry>, done: set<nat>, limit: nat): set<nat> {
    set id | id in done && |Newer(entries, done, id)| >= limit
  }

  function Without(kept: seq<nat>, gone: set<nat>): seq<nat> {
    if kept == [] then []
    else if kept[0] in gone then Without(kept[1..], gone)
    else [kept[0]] + Without(kept[1..], gone)
  }

  function Prune(s: State): State {
    s.(kept := Without(s.kept, Oldest(s.entries, Done(s.entries, s.kept), Limit(s.maxCompleted))))
  }

  function Complete(s: State, id: nat): State
    requires id in s.entries
  {
    var entry := s.entries[id].(running := false, completedSequence := Some(s.counter + 1));
    s.(entries := s.entries[id := entry], counter := s.counter + 1,
       completions := s.completions + [id],
       history := if id in s.kept then s.history + [id] else s.history)
  }

  datatype Event = Started(id: nat) | Exited(id: nat) | StopTimedOut(id: nat) | HistoryCleared | Disposed

  predicate HasRunning(s: State) {
    exists id :: id in s.kept && id in s.entries && s.entries[id].running
  }

  function Apply(s: State, e: Event): State {
    match e
    case Started(id) =>
      if id in s.entries then s else s.(entries := s.entries[id := Entry(true, None)], kept := s.kept + [id])
    case Exited(id) => if id !in s.entries || !s.entries[id].running then s else Prune(Complete(s, id))
    case StopTimedOut(id) => if id !in s.entries || !s.entries[id].running then s else Prune(Complete(s, id))
    case HistoryCleared => if HasRunning(s) then s else s.(kept := [], history := [])
    case Disposed => s.(kept := [], history := [])
  }

  function Run(s: State, events: seq<Event>): State
    decreases |events|
  {
    if events == [] then s else Run(Apply(s, events[0]), events[1..])
  }

  // ---- Invariant ----

  function Last(history: seq<nat>, limit: nat): (last: seq<nat>)
    ensures |last| <= limit
  {
    if |history| <= limit then history else history[|history| - limit..]
  }

  ghost predicate Distinct(ids: seq<nat>) {
    forall i, j | 0 <= i < j < |ids| :: ids[i] != ids[j]
  }

  /** Older before newer. */
  ghost predicate BySequence(entries: map<nat, Entry>, ids: seq<nat>) {
    forall i, j | 0 <= i < j < |ids| :: SequenceOf(entries, ids[i]) < SequenceOf(entries, ids[j])
  }

  /** The numbers of the completed commands are 1, 2, 3 and so on, in the order in which they completed. */
  ghost predicate Numbered(entries: map<nat, Entry>, completions: seq<nat>, counter: nat) {
    && counter == |completions|
    && Distinct(completions)
    && (forall i | 0 <= i < |completions| ::
          completions[i] in entries && entries[completions[i]] == Entry(false, Some(i + 1)))
    && (forall id | id in entries :: id !in completions ==> entries[id] == Entry(true, None))
  }

  function Elements(ids: seq<nat>): set<nat> {
    set id | id in ids
  }

  ghost predicate Inv(s: State) {
    && Numbered(s.entries, s.completions, s.counter)
    && Distinct(s.kept) && (forall id | id in s.kept :: id in s.entries)
    && (forall id | id in s.history :: id in s.completions) && BySequence(s.entries, s.history)
    && Done(s.entries, s.kept) == Elements(Last(s.history, Limit(s.maxCompleted)))
  }

  lemma {:induction false} WithoutExact(kept: seq<nat>, gone: set<nat>)
    ensures forall id :: id in Without(kept, gone) <==> id in kept && id !in gone
    ensures Distinct(kept) ==> Distinct(Without(kept, gone))
  {
    if kept != [] {
      WithoutExact(kept[1..], gone);
    }
  }

  /** In a list from old to new, the commands behind a place are the newer ones. */
  lemma NewerAreBehind(entries: map<nat, Entry>, ids: seq<nat>, i: nat)
    requires BySequence(entries, ids) && i < |ids|
    ensures |Newer(entries, Elements(ids), ids[i])| == |ids| - 1 - i
  {
    assert Newer(entries, Elements(ids), ids[i]) == Elements(ids[i + 1..]);
    BySequenceDistinct(entries, ids);
    ElementsCount(ids[i + 1..]);
  }

  lemma BySequenceDistinct(entries: map<nat, Entry>, ids: seq<nat>)
    requires BySequence(entries, ids)
    ensures Distinct(ids)
  {
  }

  lemma {:induction false} ElementsCount(ids: seq<nat>)
    requires Distinct(ids)
    ensures |Elements(ids)| == |ids|
  {
    if ids != [] {
      ElementsCount(ids[1..]);
      assert Elements(ids) == {ids[0]} + Elements(ids[1..]);
    }
  }

  lemma OldestIsFront(entries: map<nat, Entry>, ids: seq<nat>, limit: nat, cut: nat)
    requires BySequence(entries, ids) && cut == |ids| - |Last(ids, limit)|
    ensures Oldest(entries, Elements(ids), limit) == Elements(ids[..cut])
  {
    forall i | 0 <= i < |ids|
      ensures |Newer(entries, Elements(ids), ids[i])| >= limit <==> i < cut
    {
      NewerAreBehind(entries, ids, i);
    }
    hide Newer, BySequence;
    forall id | id in Oldest(entries, Elements(ids), limit)
      ensures id in ids[..cut]
    {
      var i :| 0 <= i < |ids| && ids[i] == id;
      assert ids[..cut][i] == id;
    }
  }

  lemma FrontAndBack(ids: seq<nat>, cut: nat)
    requires Distinct(ids) && cut <= |ids|
    ensures Elements(ids) - Elements(ids[..cut]) == Elements(ids[cut..])
  {
    forall id
      ensures id in ids <==> id in ids[..cut] || id in ids[cut..]
    {
      assert ids == ids[..cut] + ids[cut..];
    }
  }

  /** So a prune takes the front of that list and keeps its end. */
  lemma OldestAreInFront(entries: map<nat, Entry>, ids: seq<nat>, limit: nat)
    requires BySequence(entries, ids)
    ensures Elements(ids) - Oldest(entries, Elements(ids), limit) == Elements(Last(ids, limit))
  {
    BySequenceDistinct(entries, ids);
    var cut := |ids| - |Last(ids, limit)|;
    OldestIsFront(entries, ids, limit, cut);
    FrontAndBack(ids, cut);
    assert Last(ids, limit) == ids[cut..];
  }

  lemma LastOfMore(history: seq<nat>, id: nat, limit: nat)
    ensures Last(Last(history, limit) + [id], limit) == Last(history + [id], limit)
  {
  }

  lemma CompleteKeeps(s: State, id: nat)
    requires Inv(s) && id in s.entries && s.entries[id].running
    ensures Inv(Prune(Complete(s, id)))
  {
    var after := Complete(s, id);
    assert id !in s.completions;
    var limit := Limit(s.maxCompleted);
    var listed := Last(s.history, limit) + (if id in s.kept then [id] else []);
    CompletedInOrder(s, id);
    CompletedJoins(s, id);
    OldestAreInFront(after.entries, listed, limit);
    LastOfMore(s.history, id, limit);
    WithoutExact(s.kept, Oldest(after.entries, Elements(listed), limit));
    var pruned := Prune(after);
    assert Done(pruned.entries, pruned.kept) == Elements(listed) - Oldest(after.entries, Elements(listed), limit);
  }

  lemma CompletedJoins(s: State, id: nat)
    requires Inv(s) && id in s.entries && s.entries[id].running
    ensures var after := Complete(s, id);
            Done(after.entries, after.kept) ==
              Elements(Last(s.history, Limit(s.maxCompleted)) + (if id in s.kept then [id] else []))
  {
    var after := Complete(s, id);
    var last := Last(s.history, Limit(s.maxCompleted));
    hide Numbered, BySequence, Distinct, Last;
    assert Done(after.entries, after.kept) == Done(s.entries, s.kept) + (if id in s.kept then {id} else {});
    forall j
      ensures j in Elements(last + [id]) <==> j in Elements(last) || j == id
    {
      assert j in last + [id] <==> j in last || j in [id];
    }
    assert last + [] == last;
  }

  lemma CompletedNumbered(s: State, id: nat)
    requires Numbered(s.entries, s.completions, s.counter) && id in s.entries && s.entries[id].running
    ensures var after := Complete(s, id); Numbered(after.entries, after.completions, after.counter)
  {
    assert id !in s.completions;
  }

  lemma CompletedIsNewest(s: State, ids: seq<nat>, id: nat)
    requires Numbered(s.entries, s.completions, s.counter) && id in s.entries && s.entries[id].running
    requires BySequence(s.entries, ids) && forall j | j in ids :: j in s.completions
    ensures BySequence(Complete(s, id).entries, ids) && BySequence(Complete(s, id).entries, ids + [id])
  {
    var after := Complete(s, id);
    assert id !in s.completions;
    forall i | 0 <= i < |ids|
      ensures ids[i] != id && ids[i] in s.entries && ids[i] in after.entries
      ensures after.entries[ids[i]] == s.entries[ids[i]] && SequenceOf(s.entries, ids[i]) <= s.counter
    {
      assert ids[i] in ids;
    }
    hide Numbered;
  }

  lemma CompletedInOrder(s: State, id: nat)
    requires Inv(s) && id in s.entries && s.entries[id].running
    ensures var after := Complete(s, id);
            && Numbered(after.entries, after.completions, after.counter)
            && BySequence(after.entries, after.history)
            && BySequence(after.entries, Last(s.history, Limit(s.maxCompleted)) + (if id in s.kept then [id] else []))
  {
    var last := Last(s.history, Limit(s.maxCompleted));
    assert forall j | j in last :: j in s.history;
    assert BySequence(s.entries, last);
    CompletedNumbered(s, id);
    CompletedIsNewest(s, s.history, id);
    CompletedIsNewest(s, last, id);
    assert last + [] == last;
    hide Numbered, BySequence, Last;
  }

  lemma EventKeeps(s: State, e: Event)
    requires Inv(s)
    ensures Inv(Apply(s, e))
  {
    match e {
      case Exited(id) => if id in s.entries && s.entries[id].running { CompleteKeeps(s, id); }
      case StopTimedOut(id) => if id in s.entries && s.entries[id].running { CompleteKeeps(s, id); }
      case Started(id) => StartKeeps(s, id);
      case _ => ClearKeeps(s);
    }
  }

  lemma StartKeeps(s: State, id: nat)
    requires Inv(s)
    ensures Inv(Apply(s, Started(id)))
  {
  }

  lemma ClearKeeps(s: State)
    requires Inv(s)
    ensures Inv(s.(kept := [], history := []))
  {
  }

  lemma {:induction false} RunKeeps(s: State, events: seq<Event>)
    requires Inv(s)
    ensures Inv(Run(s, events)) && Run(s, events).maxCompleted == s.maxCompleted
    decreases |events|
  {
    if events != [] {
      EventKeeps(s, events[0]);
      RunKeeps(Apply(s, events[0]), events[1..]);
    }
  }

  // ---- What every run guarantees ----

  /**
   In every state the completed commands in the map are exactly the newest completions since the last
   clear, at most as many as the limit allows.
   */
  lemma KeepsTheNewest(maxCompleted: int, events: seq<Event>)
    ensures var s := Run(Initial(maxCompleted), events);
            && Done(s.entries, s.kept) == Elements(Last(s.history, Limit(maxCompleted)))
            && |Done(s.entries, s.kept)| <= Limit(maxCompleted)
            && (forall i, j | 0 <= i < j < |s.history| ::
                  SequenceOf(s.entries, s.history[i]) < SequenceOf(s.entries, s.history[j]))
  {
    RunKeeps(Initial(maxCompleted), events);
    var s := Run(Initial(maxCompleted), events);
    var last := Last(s.history, Limit(maxCompleted));
    assert BySequence(s.entries, last);
    BySequenceDistinct(s.entries, last);
    ElementsCount(last);
  }

  /** Completion numbers are distinct and count up in the order of completion, and every number is used. */
  lemma NumbersCountUp(maxCompleted: int, events: seq<Event>, i: nat)
    requires i < |Run(Initial(maxCompleted), events).completions|
    ensures var s := Run(Initial(maxCompleted), events);
            && s.counter == |s.completions|
            && s.completions[i] in s.entries && s.entries[s.completions[i]] == Entry(false, Some(i + 1))
            && (forall j | 0 <= j < |s.completions| && j != i :: s.completions[j] != s.completions[i])
  {
    RunKeeps(Initial(maxCompleted), events);
  }

  /** A command that starts enters the map as a running one. */
  lemma StartedIsKept(s: State, id: nat)
    requires id !in s.entries
    ensures var t := Apply(s, Started(id));
            && t.entries == s.entries[id := Entry(true, None)] && t.kept == s.kept + [id]
            && HasRunning(t) && t.completions == s.completions
  {
    assert id in Apply(s, Started(id)).kept;
  }

  /** A running command completes by an exit or a stop that timed out: it gets the next number. */
  lemma CompletesExactly(s: State, e: Event, id: nat)
    requires Inv(s) && id in s.entries && s.entries[id].running && (e == Exited(id) || e == StopTimedOut(id))
    ensures var t := Apply(s, e);
            && t.entries == s.entries[id := Entry(false, Some(s.counter + 1))]
            && t.completions == s.completions + [id] && t.counter == s.counter + 1
            && (forall j | j in s.kept && j in s.entries && s.entries[j].running && j != id :: j in t.kept)
  {
    var completed := Complete(s, id);
    WithoutExact(s.kept, Oldest(completed.entries, Done(completed.entries, s.kept), Limit(s.maxCompleted)));
  }

  /** The history is cleared exactly if no command in the map runs; then the map is empty. */
  lemma ClearsExactlyWhenIdle(s: State)
    ensures var t := Apply(s, HistoryCleared);
            if exists id | id in s.kept :: id in s.entries && s.entries[id].running then t == s
            else t.kept == [] && t.entries == s.entries
    ensures Apply(s, Disposed).kept == []
  {
  }

  /** Exit and stop timeout may both happen, in either order: only the first completes the command. */
  lemma FirstCompletionWins(s: State, e: Event, id: nat)
    requires Inv(s) && id in s.entries && !s.entries[id].running
    ensures id in Apply(s, e).entries && Apply(s, e).entries[id] == s.entries[id]
    ensures e == Exited(id) || e == StopTimedOut(id) ==> Apply(s, e) == s
  {
  }

  /** A prune drops exactly the completed commands that have `limit` newer ones, and keeps the order of the rest. */
  lemma PruneDropsTheOldest(s: State, id: nat)
    requires id in s.kept && id in s.entries
    ensures var done := Done(s.entries, s.kept);
            id !in Prune(s).kept <==>
              && !s.entries[id].running
              && |(set j | j in done && SequenceOf(s.entries, j) > SequenceOf(s.entries, id))| >= Limit(s.maxCompleted)
  {
    WithoutExact(s.kept, Oldest(s.entries, Done(s.entries, s.kept), Limit(s.maxCompleted)));
  }
}

module PtyHost {
  import opened Wrappers
  import opened PtyHostModel
  import Model = PtyHostModel

  class AgentPtyHost {
    var entries: map<nat, Entry>
    var kept: seq<nat>
    var completedSequence: nat
    const maxCompletedCommands: int
    ghost var completions: seq<nat>
    ghost var history: seq<nat>

    ghost function Snapshot(): State
      reads this
    {
      State(entries, kept, completedSequence, maxCompletedCommands, completions, history)
    }

    ghost predicate Valid()
      reads this
    {
      Inv(Snapshot())
    }

    constructor (maxCompletedCommands: int)
      ensures Valid() && Snapshot() == Initial(maxCompletedCommands)
    {
      this.maxCompletedCommands := maxCompletedCommands;
      entries, kept, completedSequence, completions, history := map[], [], 0, [], [];
    }

    method Start(id: nat)
      requires Valid() && id !in entries
      modifies this
      ensures Valid() && Snapshot() == Apply(old(Snapshot()), Started(id))
    {
      EventKeeps(Snapshot(), Started(id));
      entries := entries[id := Entry(true, None)];
      kept := kept + [id];
    }

    /** The exit handler. */
    method OnExit(id: nat)
      requires Valid() && id in entries
      modifies this
      ensures Valid() && Snapshot() == Apply(old(Snapshot()), Exited(id))
    {
      EventKeeps(Snapshot(), Exited(id));
      if entries[id].running {
        CompleteEntry(id);
      }
    }

    /** The end of `terminateEntry` when its timeout won the race. */
    method OnStopTimeout(id: nat)
      requires Valid() && id in entries
      modifies this
      ensures Valid() && Snapshot() == Apply(old(Snapshot()), StopTimedOut(id))
    {
      EventKeeps(Snapshot(), StopTimedOut(id));
      if entries[id].running {
        CompleteEntry(id);
      }
    }

    /** Refuses while a command runs. */
    method ClearCompletedHistory() returns (ok: bool)
      requires Valid()
      modifies this
      ensures Valid() && Snapshot() == Apply(old(Snapshot()), HistoryCleared)
      ensures ok == !HasRunning(old(Snapshot()))
    {
      EventKeeps(Snapshot(), HistoryCleared);
      hide Inv;
      var running := HasRunningCommands();
      hide HasRunning;
      if running {
        return false;
      }
      kept, history := [], [];
      return true;
    }

    method HasRunningCommands() returns (running: bool)
      ensures running == HasRunning(Snapshot())
    {
      for i := 0 to |kept|
        invariant forall j | 0 <= j < i :: kept[j] in entries ==> !entries[kept[j]].running
      {
        if kept[i] in entries && entries[kept[i]].running {
          return true;
        }
      }
      return false;
    }

    method CompleteEntry(id: nat)
      requires Valid() && id in entries && entries[id].running
      modifies this
      ensures Snapshot() == Prune(Complete(old(Snapshot()), id))
    {
      CompletedApart(Snapshot(), id);
      hide Inv, Prune, Distinct, Apart;
      completedSequence := completedSequence + 1;
      entries := entries[id := entries[id].(running := false, completedSequence := Some(completedSequence))];
      completions := completions + [id];
      history := if id in kept then history + [id] else history;
      PruneCompletedEntries();
    }

    /** Sorts the completed commands by their numbers and deletes the first ones until the limit is met. */
    method PruneCompletedEntries()
      requires Distinct(kept) && Apart(entries, Done(entries, kept))
      modifies this`kept
      ensures Snapshot() == Prune(old(Snapshot()))
    {
      ghost var done := Done(entries, kept);
      var completed := CompletedIds();
      completed := SortBySequence(completed);
      var overflow := |completed| - maxCompletedCommands;
      ghost var cut := |completed| - |Last(completed, Limit(maxCompletedCommands))|;
      OldestIsFront(entries, completed, Limit(maxCompletedCommands), cut);
      WithoutNothing(kept);
      var i := 0;
      while i < overflow && i < |completed|
        invariant 0 <= i <= cut && kept == Without(old(kept), Elements(completed[..i]))
      {
        assert completed[..i + 1] == completed[..i] + [completed[i]];
        ElementsOfMore(completed[..i], completed[i]);
        WithoutTwice(old(kept), Elements(completed[..i]), completed[i]);
        kept := Without(kept, {completed[i]});
        i := i + 1;
      }
      assert i == cut;
    }

    method CompletedIds() returns (completed: seq<nat>)
      requires Distinct(kept)
      ensures Distinct(completed) && Elements(completed) == Done(entries, kept)
    {
      completed := [];
      for i := 0 to |kept|
        invariant Distinct(completed) && Elements(completed) == Done(entries, kept[..i])
      {
        assert kept[..i + 1] == kept[..i] + [kept[i]];
        DoneOfMore(entries, kept[..i], kept[i]);
        if kept[i] in entries && !entries[kept[i]].running {
          assert kept[i] !in kept[..i];
          assert kept[i] !in Elements(completed);
          ElementsOfMore(completed, kept[i]);
          completed := completed + [kept[i]];
        }
      }
      assert kept[..|kept|] == kept;
    }

    method SortBySequence(ids: seq<nat>) returns (sorted: seq<nat>)
      requires Distinct(ids) && Apart(entries, Elements(ids))
      ensures BySequence(entries, sorted) && Elements(sorted) == Elements(ids)
    {
      sorted := [];
      for i := 0 to |ids|
        invariant BySequence(entries, sorted) && Elements(sorted) == Elements(ids[..i])
      {
        var id := ids[i];
        assert ids[..i + 1] == ids[..i] + [id];
        ElementsOfMore(ids[..i], id);
        assert id !in ids[..i];
        var k := |sorted|;
        while k > 0 && SequenceOf(entries, sorted[k - 1]) > SequenceOf(entries, id)
          invariant 0 <= k <= |sorted|
          invariant forall j | k <= j < |sorted| :: SequenceOf(entries, sorted[j]) > SequenceOf(entries, id)
        {
          k := k - 1;
        }
        if k > 0 {
          assert sorted[k - 1] in Elements(sorted) && sorted[k - 1] in ids[..i];
          assert sorted[k - 1] in Elements(ids) && id in Elements(ids);
        }
        InsertBySequence(entries, sorted, k, id);
        InsertElements(sorted, k, id);
        sorted := sorted[..k] + [id] + sorted[k..];
      }
      assert ids[..|ids|] == ids;
    }
  }

  ghost predicate Apart(entries: map<nat, Entry>, ids: set<nat>) {
    forall a, b | a in ids && b in ids && a != b :: SequenceOf(entries, a) != SequenceOf(entries, b)
  }

  lemma CompletedApart(s: State, id: nat)
    requires Inv(s) && id in s.entries && s.entries[id].running
    ensures var after := Complete(s, id); Distinct(after.kept) && Apart(after.entries, Done(after.entries, after.kept))
  {
    var listed := Last(s.history, Limit(s.maxCompleted)) + (if id in s.kept then [id] else []);
    CompletedInOrder(s, id);
    CompletedJoins(s, id);
    ListedAreApart(Complete(s, id).entries, listed);
    hide BySequence, Numbered, Apart, Last;
  }

  lemma ListedAreApart(entries: map<nat, Entry>, listed: seq<nat>)
    requires BySequence(entries, listed)
    ensures Apart(entries, Elements(listed))
  {
  }

  lemma ElementsOfMore(ids: seq<nat>, id: nat)
    ensures Elements(ids + [id]) == Elements(ids) + {id}
  {
    assert forall j :: j in ids + [id] <==> j in ids || j == id;
  }

  lemma DoneOfMore(entries: map<nat, Entry>, kept: seq<nat>, id: nat)
    ensures Done(entries, kept + [id]) ==
              Done(entries, kept) + (if id in entries && !entries[id].running then {id} else {})
  {
    assert forall j :: j in kept + [id] <==> j in kept || j == id;
  }

  lemma {:induction false} WithoutTwice(kept: seq<nat>, gone: set<nat>, id: nat)
    ensures Without(Without(kept, gone), {id}) == Without(kept, gone + {id})
  {
    if kept != [] {
      WithoutTwice(kept[1..], gone, id);
      if kept[0] !in gone {
        assert ([kept[0]] + Without(kept[1..], gone))[1..] == Without(kept[1..], gone);
      }
    }
  }

  lemma {:induction false} WithoutNothing(kept: seq<nat>)
    ensures Without(kept, Elements([])) == kept
  {
    if kept != [] {
      WithoutNothing(kept[1..]);
      assert [kept[0]] + kept[1..] == kept;
    }
  }

  lemma InsertBySequence(entries: map<nat, Entry>, sorted: seq<nat>, k: nat, id: nat)
    requires BySequence(entries, sorted) && k <= |sorted|
    requires k > 0 ==> SequenceOf(entries, sorted[k - 1]) < SequenceOf(entries, id)
    requires forall j | k <= j < |sorted| :: SequenceOf(entries, sorted[j]) > SequenceOf(entries, id)
    ensures BySequence(entries, sorted[..k] + [id] + sorted[k..])
  {
    var after := sorted[..k] + [id] + sorted[k..];
    forall i, j | 0 <= i < j < |after|
      ensures SequenceOf(entries, after[i]) < SequenceOf(entries, after[j])
    {
      if i < k - 1 {
        assert SequenceOf(entries, sorted[i]) < SequenceOf(entries, sorted[k - 1]);
      }
    }
  }

  lemma InsertElements(sorted: seq<nat>, k: nat, id: nat)
    requires k <= |sorted|
    ensures Elements(sorted[..k] + [id] + sorted[k..]) == Elements(sorted) + {id}
  {
    var after := sorted[..k] + [id] + sorted[k..];
    assert sorted == sorted[..k] + sorted[k..];
    assert forall j :: j in after <==> j in sorted[..k] || j == id || j in sorted[k..];
    assert forall j :: j in sorted <==> j in sorted[..k] || j in sorted[k..];
  }
}
