/**
 The trace coalescer of emain/agent-observability-ipc.ts: streaming updates of a session are held back
 so that only the newest is published when a timer fires or another kind of event arrives.
 */
module TraceCoalescerModel {
  import opened Wrappers

  /** One trace detail as the builder made it; `update` tells a `message_update` from everything else. */
  datatype Entry = Entry(session: string, detail: int, update: bool)

  datatype Pending = Pending(entry: Entry, timer: nat)

  /** `live` are the timers that will still fire, `all` is every detail in the order it was built. */
  datatype State = State(
    pending: map<string, Pending>, live: map<nat, string>, nextTimer: nat,
    all: seq<Entry>, published: seq<Entry>, saved: seq<Entry>, dropped: set<string>)

  function Initial(): State {
    State(map[], map[], 0, [], [], [], {})
  }

  function Flush(s: State, session: string): State {
    if session !in s.pending then s else
      s.(pending := s.pending - {session},
         live := s.live - {s.pending[session].timer},
         published := s.published + [s.pending[session].entry])
  }

  function Hold(s: State, e: Entry): State {
    var built := s.(all := s.all + [e], dropped := s.dropped - {e.session});
    if e.session in s.pending
    then built.(pending := s.pending[e.session := s.pending[e.session].(entry := e)])
    else built.(pending := s.pending[e.session := Pending(e, s.nextTimer)],
                live := s.live[s.nextTimer := e.session], nextTimer := s.nextTimer + 1)
  }

  /** `detail` is what the builder makes of the event, if anything. */
  function Handle(s: State, session: string, update: bool, detail: Option<int>): State {
    if update then
      if detail.None? then s else Hold(s, Entry(session, detail.value, true))
    else
      var flushed := Flush(s, session);
      if detail.None? then flushed else
        var e := Entry(session, detail.value, false);
        flushed.(all := flushed.all + [e], dropped := flushed.dropped - {session},
                 saved := flushed.saved + [e], published := flushed.published + [e])
  }

  function Fire(s: State, timer: nat): State {
    if timer !in s.live then s else Flush(s.(live := s.live - {timer}), s.live[timer])
  }

  function Dispose(s: State): State {
    s.(pending := map[],
       live := map t | t in s.live && t !in (set p | p in s.pending :: s.pending[p].timer) :: s.live[t],
       dropped := s.dropped + s.pending.Keys)
  }

  datatype Event = Handled(session: string, update: bool, detail: Option<int>) | Fired(timer: nat) | Disposed

  function Apply(s: State, e: Event): State {
    match e
    case Handled(session, update, detail) => Handle(s, session, update, detail)
    case Fired(timer) => Fire(s, timer)
    case Disposed => Dispose(s)
  }

  function Run(s: State, events: seq<Event>): State
    decreases |events|
  {
    if events == [] then s else Run(Apply(s, events[0]), events[1..])
  }

  // ---- What a log may look like ----

  function On(log: seq<Entry>, session: string): seq<Entry>
    decreases |log|
  {
    if log == [] then [] else
      On(log[..|log| - 1], session) + (if log[|log| - 1].session == session then [log[|log| - 1]] else [])
  }

  function NonUpdates(log: seq<Entry>): seq<Entry>
    decreases |log|
  {
    if log == [] then [] else
      NonUpdates(log[..|log| - 1]) + (if log[|log| - 1].update then [] else [log[|log| - 1]])
  }

  /** `some` is `all` with nothing but updates left out. */
  predicate OmitsOnlyUpdates(some: seq<Entry>, all: seq<Entry>)
    decreases |all|
  {
    if all == [] then some == [] else
      var last := all[|all| - 1];
      var earlier := all[..|all| - 1];
      || (some != [] && some[|some| - 1] == last && OmitsOnlyUpdates(some[..|some| - 1], earlier))
      || (last.update && OmitsOnlyUpdates(some, earlier))
  }

  // ---- Invariant ----

  ghost predicate TimersOk(pending: map<string, Pending>, live: map<nat, string>, nextTimer: nat) {
    && (forall x | x in pending :: pending[x].timer in live && live[pending[x].timer] == x)
    && (forall t | t in live :: t < nextTimer && live[t] in pending && pending[live[t]].timer == t)
    && (forall x | x in pending :: pending[x].entry.session == x && pending[x].entry.update)
  }

  /** `mine` and `shown` are one session's built and published details. */
  ghost predicate SessionOk(mine: seq<Entry>, shown: seq<Entry>, held: Option<Entry>, dropped: bool) {
    match held
    case Some(e) => e.update && mine != [] && mine[|mine| - 1] == e && OmitsOnlyUpdates(shown + [e], mine) && !dropped
    case None =>
      && OmitsOnlyUpdates(shown, mine)
      && (!dropped && mine != [] ==> shown != [] && shown[|shown| - 1] == mine[|mine| - 1])
  }

  function Held(s: State, session: string): Option<Entry> {
    if session in s.pending then Some(s.pending[session].entry) else None
  }

  ghost predicate Inv(s: State) {
    && TimersOk(s.pending, s.live, s.nextTimer)
    && (forall x :: SessionOk(On(s.all, x), On(s.published, x), Held(s, x), x in s.dropped))
    && s.saved == NonUpdates(s.all)
  }

  lemma OnAppend(log: seq<Entry>, e: Entry, session: string)
    ensures On(log + [e], session) == if e.session == session then On(log, session) + [e] else On(log, session)
  {
    assert (log + [e])[..|log|] == log;
    assert On(log, session) + [] == On(log, session);
  }

  lemma NonUpdatesAppend(log: seq<Entry>, e: Entry)
    ensures NonUpdates(log + [e]) == if e.update then NonUpdates(log) else NonUpdates(log) + [e]
  {
    assert (log + [e])[..|log|] == log;
    assert NonUpdates(log) + [] == NonUpdates(log);
  }

  lemma OmitsBoth(some: seq<Entry>, all: seq<Entry>, e: Entry)
    requires OmitsOnlyUpdates(some, all)
    ensures OmitsOnlyUpdates(some + [e], all + [e])
  {
    assert (all + [e])[..|all|] == all && (some + [e])[..|some|] == some;
  }

  /** An update that was kept may as well be left out. */
  lemma {:induction false} OmitsOneMore(some: seq<Entry>, e: Entry, all: seq<Entry>)
    requires OmitsOnlyUpdates(some + [e], all) && e.update
    ensures OmitsOnlyUpdates(some, all)
    decreases |all|
  {
    var earlier := all[..|all| - 1];
    assert (some + [e])[..|some|] == some;
    if all[|all| - 1].update && OmitsOnlyUpdates(some + [e], earlier) {
      OmitsOneMore(some, e, earlier);
    }
  }

  lemma SessionHolds(mine: seq<Entry>, shown: seq<Entry>, held: Option<Entry>, dropped: bool, e: Entry)
    requires SessionOk(mine, shown, held, dropped) && e.update
    ensures SessionOk(mine + [e], shown, Some(e), false)
  {
    if held.Some? {
      OmitsOneMore(shown, held.value, mine);
    }
    OmitsBoth(shown, mine, e);
  }

  lemma SessionPublishes(mine: seq<Entry>, shown: seq<Entry>, dropped: bool, e: Entry)
    requires SessionOk(mine, shown, None, dropped)
    ensures SessionOk(mine + [e], shown + [e], None, false)
  {
    OmitsBoth(shown, mine, e);
  }

  lemma SessionDrops(mine: seq<Entry>, shown: seq<Entry>, held: Entry)
    requires SessionOk(mine, shown, Some(held), false)
    ensures SessionOk(mine, shown, None, true)
  {
    OmitsOneMore(shown, held, mine);
  }

  lemma HoldKeeps(s: State, e: Entry)
    requires Inv(s) && e.update
    ensures Inv(Hold(s, e))
  {
    var after := Hold(s, e);
    hide OmitsOnlyUpdates, NonUpdates, SessionOk, On;
    NonUpdatesAppend(s.all, e);
    forall x
      ensures SessionOk(On(after.all, x), On(after.published, x), Held(after, x), x in after.dropped)
    {
      OnAppend(s.all, e, x);
      assert SessionOk(On(s.all, x), On(s.published, x), Held(s, x), x in s.dropped);
      if x == e.session {
        SessionHolds(On(s.all, x), On(s.published, x), Held(s, x), x in s.dropped, e);
      }
    }
  }

  lemma FlushKeeps(s: State, session: string)
    requires Inv(s)
    ensures Inv(Flush(s, session)) && session !in Flush(s, session).pending
  {
    hide OmitsOnlyUpdates, NonUpdates;
    if session in s.pending {
      var after := Flush(s, session);
      forall x
        ensures SessionOk(On(after.all, x), On(after.published, x), Held(after, x), x in after.dropped)
      {
        OnAppend(s.published, s.pending[session].entry, x);
        assert SessionOk(On(s.all, x), On(s.published, x), Held(s, x), x in s.dropped);
      }
    }
  }

  lemma HandleKeeps(s: State, session: string, update: bool, detail: Option<int>)
    requires Inv(s)
    ensures Inv(Handle(s, session, update, detail))
  {
    if update {
      if detail.Some? {
        HoldKeeps(s, Entry(session, detail.value, true));
      }
    } else {
      FlushKeeps(s, session);
      if detail.Some? {
        PublishKeeps(Flush(s, session), Entry(session, detail.value, false));
      }
    }
  }

  lemma PublishKeeps(s: State, e: Entry)
    requires Inv(s) && !e.update && e.session !in s.pending
    ensures Inv(s.(all := s.all + [e], dropped := s.dropped - {e.session},
                   saved := s.saved + [e], published := s.published + [e]))
  {
    hide OmitsOnlyUpdates, NonUpdates, SessionOk, On;
    var after := s.(all := s.all + [e], dropped := s.dropped - {e.session},
                    saved := s.saved + [e], published := s.published + [e]);
    NonUpdatesAppend(s.all, e);
    forall x
      ensures SessionOk(On(after.all, x), On(after.published, x), Held(after, x), x in after.dropped)
    {
      OnAppend(s.all, e, x);
      OnAppend(s.published, e, x);
      assert SessionOk(On(s.all, x), On(s.published, x), Held(s, x), x in s.dropped);
      if x == e.session {
        SessionPublishes(On(s.all, x), On(s.published, x), x in s.dropped, e);
      }
    }
  }

  lemma FireKeeps(s: State, timer: nat)
    requires Inv(s)
    ensures Inv(Fire(s, timer))
    ensures timer in s.live ==> Fire(s, timer) == Flush(s, s.live[timer])
  {
    if timer in s.live {
      FlushKeeps(s, s.live[timer]);
      assert s.live - {timer} - {timer} == s.live - {timer};
    }
  }

  lemma DisposeKeeps(s: State)
    requires Inv(s)
    ensures Inv(Dispose(s)) && Dispose(s).live == map[]
  {
    var after := Dispose(s);
    forall t | t in s.live
      ensures t in (set p | p in s.pending :: s.pending[p].timer)
    {
      assert s.live[t] in s.pending;
    }
    forall x
      ensures SessionOk(On(after.all, x), On(after.published, x), Held(after, x), x in after.dropped)
    {
      assert SessionOk(On(s.all, x), On(s.published, x), Held(s, x), x in s.dropped);
      if x in s.pending {
        SessionDrops(On(s.all, x), On(s.published, x), s.pending[x].entry);
      }
    }
  }

  lemma {:induction false} RunKeeps(s: State, events: seq<Event>)
    requires Inv(s)
    ensures Inv(Run(s, events))
    decreases |events|
  {
    if events != [] {
      match events[0] {
        case Handled(session, update, detail) => HandleKeeps(s, session, update, detail);
        case Fired(timer) => FireKeeps(s, timer);
        case Disposed => DisposeKeeps(s);
      }
      RunKeeps(Apply(s, events[0]), events[1..]);
    }
  }

  // ---- What every run guarantees ----

  ghost predicate IsSubsequence(some: seq<Entry>, all: seq<Entry>, at: seq<nat>) {
    && |at| == |some|
    && (forall i | 0 <= i < |at| :: at[i] < |all| && all[at[i]] == some[i])
    && (forall i, j | 0 <= i < j < |at| :: at[i] < at[j])
  }

  ghost predicate Subsequence(some: seq<Entry>, all: seq<Entry>) {
    exists at :: IsSubsequence(some, all, at)
  }

  lemma SubsequenceExtends(some: seq<Entry>, all: seq<Entry>, at: seq<nat>, e: Entry)
    requires IsSubsequence(some, all, at)
    ensures IsSubsequence(some + [e], all + [e], at + [|all|])
    ensures IsSubsequence(some, all + [e], at)
  {
  }

  lemma {:induction false} OmittingKeepsOrder(some: seq<Entry>, all: seq<Entry>) returns (at: seq<nat>)
    requires OmitsOnlyUpdates(some, all)
    ensures IsSubsequence(some, all, at)
    decreases |all|
  {
    at := [];
    if all != [] {
      var last, earlier := all[|all| - 1], all[..|all| - 1];
      assert all == earlier + [last];
      if some != [] && some[|some| - 1] == last && OmitsOnlyUpdates(some[..|some| - 1], earlier) {
        assert some == some[..|some| - 1] + [last];
        at := OmittingKeepsOrder(some[..|some| - 1], earlier);
        SubsequenceExtends(some[..|some| - 1], earlier, at, last);
        at := at + [|earlier|];
      } else {
        at := OmittingKeepsOrder(some, earlier);
        SubsequenceExtends(some, earlier, at, last);
      }
      hide IsSubsequence;
    }
  }

  lemma {:induction false} OmittingKeepsNonUpdates(some: seq<Entry>, all: seq<Entry>)
    requires OmitsOnlyUpdates(some, all)
    ensures NonUpdates(some) == NonUpdates(all)
    decreases |all|
  {
    if all != [] {
      var last, earlier := all[|all| - 1], all[..|all| - 1];
      if some != [] && some[|some| - 1] == last && OmitsOnlyUpdates(some[..|some| - 1], earlier) {
        OmittingKeepsNonUpdates(some[..|some| - 1], earlier);
      } else {
        OmittingKeepsNonUpdates(some, earlier);
        assert NonUpdates(earlier) + [] == NonUpdates(earlier);
      }
    }
  }

  /**
   Per session, what was published is a subsequence of what was built, in order and with every detail
   that is not an update; everything but updates is saved, in order.
   */
  lemma PublishedIsComplete(events: seq<Event>, session: string)
    ensures var s := Run(Initial(), events);
            && Subsequence(On(s.published, session), On(s.all, session))
            && NonUpdates(On(s.published, session)) == NonUpdates(On(s.all, session))
            && s.saved == NonUpdates(s.all)
  {
    RunKeeps(Initial(), events);
    hide Run, On;
    var s := Run(Initial(), events);
    var mine, shown := On(s.all, session), On(s.published, session);
    assert SessionOk(mine, shown, Held(s, session), session in s.dropped);
    if session in s.pending {
      OmitsOneMore(shown, s.pending[session].entry, mine);
    }
    OmittingKeepsNonUpdates(shown, mine);
    var at := OmittingKeepsOrder(shown, mine);
    assert IsSubsequence(shown, mine, at);
  }

  /**
   The newest detail of a session is the one published last or the one waiting, unless the coalescer
   was disposed of since; and a session has exactly one live timer if something waits and none otherwise.
   */
  lemma NewestIsNeverLost(events: seq<Event>, session: string)
    ensures var s := Run(Initial(), events);
            var mine, shown := On(s.all, session), On(s.published, session);
            && (session in s.pending ==>
                  && mine != [] && s.pending[session].entry == mine[|mine| - 1]
                  && (forall t :: t in s.live && s.live[t] == session <==> t == s.pending[session].timer))
            && (session !in s.pending ==>
                  && (forall t | t in s.live :: s.live[t] != session)
                  && (session in s.dropped || mine == [] || (shown != [] && shown[|shown| - 1] == mine[|mine| - 1])))
  {
    RunKeeps(Initial(), events);
    hide Run, Inv, On;
    NewestIsKept(Run(Initial(), events), session);
  }

  lemma NewestIsKept(s: State, session: string)
    requires Inv(s)
    ensures var mine, shown := On(s.all, session), On(s.published, session);
            && (session in s.pending ==>
                  && mine != [] && s.pending[session].entry == mine[|mine| - 1]
                  && (forall t :: t in s.live && s.live[t] == session <==> t == s.pending[session].timer))
            && (session !in s.pending ==>
                  && (forall t | t in s.live :: s.live[t] != session)
                  && (session in s.dropped || mine == [] || (shown != [] && shown[|shown| - 1] == mine[|mine| - 1])))
  {
    hide On, OmitsOnlyUpdates, NonUpdates;
    assert SessionOk(On(s.all, session), On(s.published, session), Held(s, session), session in s.dropped);
  }

  // ---- What one event does ----

  function Updates(session: string, details: seq<int>): seq<Event> {
    seq(|details|, i requires 0 <= i < |details| => Handled(session, true, Some(details[i])))
  }

  /** A burst of updates publishes nothing and saves nothing: the newest waits, with the timer of the first. */
  lemma {:induction false} BurstIsHeldBack(s: State, session: string, details: seq<int>)
    requires details != [] && session !in s.pending
    ensures var t := Run(s, Updates(session, details));
            && t.published == s.published && t.saved == s.saved
            && t.pending == s.pending[session := Pending(Entry(session, details[|details| - 1], true), s.nextTimer)]
            && t.live == s.live[s.nextTimer := session] && t.nextTimer == s.nextTimer + 1
    decreases |details|
  {
    var events, earlier := Updates(session, details), details[..|details| - 1];
    assert events == Updates(session, earlier) + [events[|details| - 1]];
    RunMore(s, Updates(session, earlier), events[|details| - 1]);
    if earlier != [] {
      BurstIsHeldBack(s, session, earlier);
    } else {
      assert Updates(session, earlier) == [];
    }
  }

  lemma {:induction false} RunMore(s: State, events: seq<Event>, e: Event)
    ensures Run(s, events + [e]) == Apply(Run(s, events), e)
    decreases |events|
  {
    if events == [] {
      assert [e][1..] == [];
    } else {
      assert (events + [e])[1..] == events[1..] + [e];
      RunMore(Apply(s, events[0]), events[1..], e);
    }
  }

  /** When the timer fires, exactly the newest of the burst is published, and nothing waits any more. */
  lemma BurstIsPublishedOnce(s: State, session: string, details: seq<int>)
    requires Inv(s) && details != [] && session !in s.pending
    ensures var t := Run(s, Updates(session, details) + [Fired(s.nextTimer)]);
            && t.published == s.published + [Entry(session, details[|details| - 1], true)] && t.saved == s.saved
            && t.pending == s.pending && t.live == s.live
  {
    BurstIsHeldBack(s, session, details);
    RunMore(s, Updates(session, details), Fired(s.nextTimer));
    hide Run, On;
    assert s.nextTimer !in s.live;
  }

  /** Any other event publishes what waits for its session, then itself, and is saved. */
  lemma OtherEventsFlush(s: State, session: string, detail: Option<int>)
    ensures var t := Apply(s, Handled(session, false, detail));
            var held := if session in s.pending then [s.pending[session].entry] else [];
            var own := if detail.Some? then [Entry(session, detail.value, false)] else [];
            && t.published == s.published + held + own && t.saved == s.saved + own
            && t.pending == s.pending - {session}
            && t.live == s.live - (if session in s.pending then {s.pending[session].timer} else {})
  {
    assert s.pending - {} == s.pending && s.live - {} == s.live;
    assert session !in s.pending ==> s.pending - {session} == s.pending;
  }

  /** An update that the builder makes nothing of changes nothing; nor does a timer that was cleared. */
  lemma NothingToDo(s: State, session: string, timer: nat)
    requires timer !in s.live
    ensures Apply(s, Handled(session, true, None)) == s && Apply(s, Fired(timer)) == s
  {
  }

  lemma DisposedHoldsNothing(s: State)
    requires Inv(s)
    ensures var t := Apply(s, Disposed);
            t.pending == map[] && t.live == map[] && t.published == s.published && t.saved == s.saved
  {
    DisposeKeeps(s);
    hide On;
  }
}

module TraceCoalescer {
  import opened Wrappers
  import opened TraceCoalescerModel
  import Model = TraceCoalescerModel

  class TraceEventCoalescer {
    var pendingUpdates: map<string, Pending>
    var live: map<nat, string>
    var nextTimer: nat
    ghost var all: seq<Entry>
    var published: seq<Entry>
    var saved: seq<Entry>
    ghost var dropped: set<string>

    ghost function Snapshot(): State
      reads this
    {
      State(pendingUpdates, live, nextTimer, all, published, saved, dropped)
    }

    ghost predicate Valid()
      reads this
    {
      Inv(Snapshot())
    }

    constructor ()
      ensures Valid() && Snapshot() == Initial()
    {
      pendingUpdates, live, nextTimer := map[], map[], 0;
      all, published, saved, dropped := [], [], [], {};
    }

    method Handle(session: string, update: bool, detail: Option<int>)
      requires Valid()
      modifies this
      ensures Valid() && Snapshot() == Model.Handle(old(Snapshot()), session, update, detail)
    {
      hide SessionOk, NonUpdates, On;
      HandleKeeps(Snapshot(), session, update, detail);
      if update {
        if detail.None? {
          return;
        }
        var e := Entry(session, detail.value, true);
        all, dropped := all + [e], dropped - {session};
        if session in pendingUpdates {
          pendingUpdates := pendingUpdates[session := pendingUpdates[session].(entry := e)];
          return;
        }
        var timer := nextTimer;
        live, nextTimer := live[timer := session], nextTimer + 1;
        pendingUpdates := pendingUpdates[session := Pending(e, timer)];
        return;
      }
      FlushSession(session);
      if detail.None? {
        return;
      }
      var e := Entry(session, detail.value, false);
      all, dropped := all + [e], dropped - {session};
      saved := saved + [e];
      published := published + [e];
    }

    method FlushSession(session: string)
      requires Valid()
      modifies this
      ensures Valid() && Snapshot() == Flush(old(Snapshot()), session)
    {
      FlushKeeps(Snapshot(), session);
      if session !in pendingUpdates {
        return;
      }
      var pending := pendingUpdates[session];
      live := live - {pending.timer};
      pendingUpdates := pendingUpdates - {session};
      published := published + [pending.entry];
    }

    method TimerFires(timer: nat)
      requires Valid() && timer in live
      modifies this
      ensures Valid() && Snapshot() == Fire(old(Snapshot()), timer)
    {
      FireKeeps(Snapshot(), timer);
      FlushSession(live[timer]);
    }

    method Dispose()
      requires Valid()
      modifies this
      ensures Valid() && Snapshot() == Model.Dispose(old(Snapshot()))
      ensures live == map[]
    {
      DisposeKeeps(Snapshot());
      ClearTimers();
      dropped := dropped + pendingUpdates.Keys;
      pendingUpdates := map[];
      hide Inv;
      assert live == Model.Dispose(old(Snapshot())).live;
    }

    method ClearTimers()
      modifies this`live
      ensures live == map t | t in old(live) && t !in (set x | x in pendingUpdates :: pendingUpdates[x].timer) ::
                old(live)[t]
    {
      var todo := pendingUpdates.Keys;
      while todo != {}
        invariant todo <= pendingUpdates.Keys
        invariant forall t :: t in live <==>
                    t in old(live) && forall x | x in pendingUpdates && x !in todo :: pendingUpdates[x].timer != t
        invariant forall t | t in live :: live[t] == old(live)[t]
        decreases |todo|
      {
        var x :| x in todo;
        live := live - {pendingUpdates[x].timer};
        todo := todo - {x};
      }
    }
  }
}
