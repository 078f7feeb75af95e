/**
 The send ingress of emain/agent-ipc.ts: sends for one session or workspace queue up behind a chain of
 promises, and the map that holds the end of each chain cleans up after itself.
 */
module SendIngressModel {
  import opened Wrappers

  datatype Phase = Waiting | Running | Done(failed: bool)

  /**
   One reservation. `previous` is the promise it waits for, named by the ticket whose tail it is;
   `settled` says that this ticket's own tail has resolved. `epoch` counts shutdown clears.
   */
  datatype Ticket = Ticket(key: string, epoch: nat, previous: Option<nat>, phase: Phase, settled: bool)

  datatype State = State(tails: map<string, nat>, tickets: seq<Ticket>, epoch: nat)

  function Initial(): State {
    State(map[], [], 0)
  }

  function Reserve(s: State, key: string): State {
    var previous := if key in s.tails then Some(s.tails[key]) else None;
    s.(tails := s.tails[key := |s.tickets|],
       tickets := s.tickets + [Ticket(key, s.epoch, previous, Waiting, false)])
  }

  predicate PreviousSettled(s: State, t: nat)
    requires t < |s.tickets|
  {
    var previous := s.tickets[t].previous;
    previous.Some? ==> previous.value < |s.tickets| && s.tickets[previous.value].settled
  }

  /** `await previous` resumes and the operation begins. */
  predicate CanStart(s: State, t: nat) {
    t < |s.tickets| && s.tickets[t].phase == Waiting && PreviousSettled(s, t)
  }

  function Start(s: State, t: nat): State {
    if !CanStart(s, t) then s else s.(tickets := s.tickets[t := s.tickets[t].(phase := Running)])
  }

  predicate CanFinish(s: State, t: nat) {
    t < |s.tickets| && s.tickets[t].phase == Running
  }

  /** The operation returns or throws; either way the hold is released and an unused map entry goes. */
  function Finish(s: State, t: nat, failed: bool): State {
    if !CanFinish(s, t) then s else
      var key := s.tickets[t].key;
      s.(tickets := s.tickets[t := s.tickets[t].(phase := Done(failed))],
         tails := if key in s.tails && s.tails[key] == t then s.tails - {key} else s.tails)
  }

  /** A tail resolves once its predecessor has and its own hold is released. */
  predicate CanSettle(s: State, t: nat) {
    t < |s.tickets| && s.tickets[t].phase.Done? && PreviousSettled(s, t)
  }

  function Settle(s: State, t: nat): State {
    if !CanSettle(s, t) then s else s.(tickets := s.tickets[t := s.tickets[t].(settled := true)])
  }

  datatype Event =
    | Reserved(key: string)
    | Started(ticket: nat)
    | Finished(ticket: nat, failed: bool)
    | Settled(ticket: nat)
    | Cleared

  function Apply(s: State, e: Event): State {
    match e
    case Reserved(key) => Reserve(s, key)
    case Started(t) => Start(s, t)
    case Finished(t, failed) => Finish(s, t, failed)
    case Settled(t) => Settle(s, t)
    case Cleared => s.(tails := map[], epoch := s.epoch + 1)
  }

  function Run(s: State, events: seq<Event>): State
    decreases |events|
  {
    if events == [] then s else Run(Apply(s, events[0]), events[1..])
  }

  // ---- Invariant ----

  /** Two tickets of one key, reserved between the same two clears. */
  predicate Chained(a: Ticket, b: Ticket) {
    a.key == b.key && a.epoch == b.epoch
  }

  ghost predicate EarlierDone(tickets: seq<Ticket>, t: nat)
    requires t < |tickets|
  {
    forall u | 0 <= u < t && Chained(tickets[u], tickets[t]) :: tickets[u].phase.Done?
  }

  /** The predecessor is the ticket before this one in its chain, if that still was unfinished. */
  ghost predicate LinkOk(tickets: seq<Ticket>, t: nat)
    requires t < |tickets|
  {
    match tickets[t].previous
    case None => EarlierDone(tickets, t)
    case Some(p) =>
      && p < t && Chained(tickets[p], tickets[t])
      && (forall u | p < u < t :: !Chained(tickets[u], tickets[t]))
  }

  ghost predicate TicketOk(tickets: seq<Ticket>, t: nat)
    requires t < |tickets|
  {
    && LinkOk(tickets, t)
    && (tickets[t].phase != Waiting ==> EarlierDone(tickets, t))
    && (tickets[t].settled ==> tickets[t].phase.Done?)
  }

  ghost predicate TailOk(s: State, key: string) {
    if key in s.tails then
      var t := s.tails[key];
      && t < |s.tickets| && s.tickets[t].key == key && s.tickets[t].epoch == s.epoch
      && !s.tickets[t].phase.Done?
      && (forall u | t < u < |s.tickets| :: !Chained(s.tickets[u], s.tickets[t]))
    else
      forall u | 0 <= u < |s.tickets| && s.tickets[u].key == key && s.tickets[u].epoch == s.epoch ::
        s.tickets[u].phase.Done?
  }

  ghost predicate Inv(s: State) {
    && (forall t | 0 <= t < |s.tickets| :: TicketOk(s.tickets, t) && s.tickets[t].epoch <= s.epoch)
    && (forall key :: TailOk(s, key))
  }

  lemma ReserveKeeps(s: State, key: string)
    requires Inv(s)
    ensures Inv(Reserve(s, key))
  {
    var after := Reserve(s, key);
    forall t | 0 <= t < |s.tickets|
      ensures TicketOk(after.tickets, t)
    {
      assert TicketOk(s.tickets, t);
    }
    assert TailOk(s, key);
    assert TicketOk(after.tickets, |s.tickets|);
    forall k
      ensures TailOk(after, k)
    {
      assert TailOk(s, k);
    }
  }

  /** What a wait for the predecessor is worth. */
  lemma TurnComes(s: State, t: nat)
    requires Inv(s) && t < |s.tickets| && PreviousSettled(s, t)
    ensures EarlierDone(s.tickets, t)
  {
    assert TicketOk(s.tickets, t);
    if s.tickets[t].previous.Some? {
      var p := s.tickets[t].previous.value;
      assert TicketOk(s.tickets, p);
    }
  }

  lemma AdvanceKeeps(s: State, t: nat, ticket: Ticket)
    requires Inv(s) && t < |s.tickets|
    requires Chained(ticket, s.tickets[t]) && ticket.previous == s.tickets[t].previous
    requires s.tickets[t].phase.Done? ==> ticket.phase.Done?
    requires ticket.phase != Waiting ==> EarlierDone(s.tickets, t)
    requires ticket.settled ==> ticket.phase.Done?
    ensures var tickets := s.tickets[t := ticket]; forall u | 0 <= u < |s.tickets| :: TicketOk(tickets, u)
  {
    var tickets := s.tickets[t := ticket];
    forall u | 0 <= u < |s.tickets|
      ensures TicketOk(tickets, u)
    {
      assert TicketOk(s.tickets, u);
    }
  }

  lemma EventKeeps(s: State, e: Event)
    requires Inv(s)
    ensures Inv(Apply(s, e))
  {
    match e {
      case Reserved(key) => ReserveKeeps(s, key);
      case Started(t) => StartKeeps(s, t);
      case Finished(t, failed) => FinishKeeps(s, t, failed);
      case Settled(t) => SettleKeeps(s, t);
      case Cleared =>
    }
  }

  lemma StartKeeps(s: State, t: nat)
    requires Inv(s)
    ensures Inv(Start(s, t))
  {
    if CanStart(s, t) {
      TurnComes(s, t);
      AdvanceKeeps(s, t, s.tickets[t].(phase := Running));
      forall k
        ensures TailOk(Start(s, t), k)
      {
        assert TailOk(s, k);
      }
    }
  }

  lemma SettleKeeps(s: State, t: nat)
    requires Inv(s)
    ensures Inv(Settle(s, t))
  {
    if CanSettle(s, t) {
      TurnComes(s, t);
      AdvanceKeeps(s, t, s.tickets[t].(settled := true));
      forall k
        ensures TailOk(Settle(s, t), k)
      {
        assert TailOk(s, k);
      }
    }
  }

  lemma FinishKeeps(s: State, t: nat, failed: bool)
    requires Inv(s)
    ensures Inv(Finish(s, t, failed))
  {
    if CanFinish(s, t) {
      assert TicketOk(s.tickets, t);
      AdvanceKeeps(s, t, s.tickets[t].(phase := Done(failed)));
      forall k
        ensures TailOk(Finish(s, t, failed), k)
      {
        assert TailOk(s, k);
      }
    }
  }

  lemma {:induction false} RunKeeps(s: State, events: seq<Event>)
    requires Inv(s)
    ensures Inv(Run(s, events))
    decreases |events|
  {
    if events != [] {
      EventKeeps(s, events[0]);
      RunKeeps(Apply(s, events[0]), events[1..]);
    }
  }

  // ---- What every run guarantees ----

  /**
   The sends of one key run one at a time and in the order they were reserved: while one runs, all
   that were reserved before it are done, failed ones included, and all after it still wait.
   */
  lemma OneAtATimeInOrder(events: seq<Event>, t: nat)
    requires t < |Run(Initial(), events).tickets| && Run(Initial(), events).tickets[t].phase.Running?
    ensures var tickets := Run(Initial(), events).tickets;
            forall u | 0 <= u < |tickets| && u != t && Chained(tickets[u], tickets[t]) ::
              if u < t then tickets[u].phase.Done? else tickets[u].phase.Waiting?
  {
    RunKeeps(Initial(), events);
    var s := Run(Initial(), events);
    forall u | 0 <= u < |s.tickets|
      ensures TicketOk(s.tickets, u)
    {
    }
  }

  /** The map has an entry for a key exactly while a send reserved since the last clear is unfinished. */
  lemma EntryExactlyWhileUnfinished(events: seq<Event>, key: string)
    ensures var s := Run(Initial(), events);
            key in s.tails <==>
              exists t | 0 <= t < |s.tickets| ::
                s.tickets[t].key == key && s.tickets[t].epoch == s.epoch && !s.tickets[t].phase.Done?
  {
    RunKeeps(Initial(), events);
    assert TailOk(Run(Initial(), events), key);
  }

  // ---- Taking a place ----

  /** A new send waits, at the end of its chain: for the newest send of its key that is not done, if there is one. */
  lemma ReserveJoinsItsChain(s: State, key: string)
    requires Inv(s)
    ensures var t, n := Apply(s, Reserved(key)), |s.tickets|;
            && |t.tickets| == n + 1 && t.tickets[..n] == s.tickets && t.tails == s.tails[key := n] && t.epoch == s.epoch
            && var ticket := t.tickets[n];
               && ticket.key == key && ticket.epoch == s.epoch && ticket.phase == Waiting && !ticket.settled
               && (ticket.previous.None? ==>
                     forall u | 0 <= u < n && Chained(s.tickets[u], ticket) :: s.tickets[u].phase.Done?)
               && (ticket.previous.Some? ==>
                     var p := ticket.previous.value;
                     && p < n && Chained(s.tickets[p], ticket) && !s.tickets[p].phase.Done?
                     && forall u | p < u < n :: !Chained(s.tickets[u], ticket))
  {
    assert TailOk(s, key);
  }

  /** A shutdown forgets every chain: the next send of any key waits for nobody and can start at once. */
  lemma ClearForgets(s: State, key: string)
    ensures var t := Apply(s, Cleared);
            && t.tails == map[] && t.tickets == s.tickets && t.epoch == s.epoch + 1
            && Apply(t, Reserved(key)).tickets[|s.tickets|].previous.None?
            && CanStart(Apply(t, Reserved(key)), |s.tickets|)
  {
  }

  /** A send that ends is done, well or badly, and frees its key exactly if it still is the end of its chain. */
  lemma FinishFreesItsKey(s: State, t: nat, failed: bool)
    requires Inv(s) && t < |s.tickets| && s.tickets[t].phase == Running
    ensures var (after, key) := (Apply(s, Finished(t, failed)), s.tickets[t].key);
            && after.tickets == s.tickets[t := s.tickets[t].(phase := Done(failed))]
            && after.tails == s.tails - (if key in s.tails && s.tails[key] == t then {key} else {})
  {
    assert s.tails - {} == s.tails;
  }

  // ---- Progress ----

  /** How many sends a ticket still has to wait for. */
  function Ahead(tickets: seq<Ticket>, t: nat, below: nat): nat
    requires t < |tickets| && below <= t
  {
    if below == 0 then 0
    else Ahead(tickets, t, below - 1)
         + (if Chained(tickets[below - 1], tickets[t]) && !tickets[below - 1].phase.Done? then 1 else 0)
  }

  lemma {:induction false} AheadZero(tickets: seq<Ticket>, t: nat, below: nat)
    requires t < |tickets| && below <= t
    ensures Ahead(tickets, t, below) == 0 <==>
              forall u | 0 <= u < below && Chained(tickets[u], tickets[t]) :: tickets[u].phase.Done?
  {
    if below > 0 {
      AheadZero(tickets, t, below - 1);
    }
  }

  lemma {:induction false} AheadStep(s: State, e: Event, t: nat, below: nat)
    requires t < |s.tickets| && below <= t
    ensures |Apply(s, e).tickets| >= |s.tickets| && Chained(Apply(s, e).tickets[t], s.tickets[t])
    ensures Ahead(Apply(s, e).tickets, t, below) ==
              Ahead(s.tickets, t, below) -
                (if e.Finished? && CanFinish(s, e.ticket) && e.ticket < below
                    && Chained(s.tickets[e.ticket], s.tickets[t])
                 then 1 else 0)
    decreases below
  {
    if below > 0 {
      AheadStep(s, e, t, below - 1);
    }
  }

  /** No event puts anybody ahead of a ticket, and each earlier send that finishes takes one away. */
  lemma AheadOnlyShrinks(s: State, e: Event, t: nat)
    requires t < |s.tickets|
    ensures t < |Apply(s, e).tickets|
    ensures Ahead(Apply(s, e).tickets, t, t) <= Ahead(s.tickets, t, t)
    ensures Ahead(Apply(s, e).tickets, t, t) < Ahead(s.tickets, t, t) <==>
              e.Finished? && CanFinish(s, e.ticket) && e.ticket < t && Chained(s.tickets[e.ticket], s.tickets[t])
  {
    AheadStep(s, e, t, t);
  }

  /** Events that concern only this ticket and those it waits for: no new send is needed, or can help. */
  predicate Only(events: seq<Event>, tickets: seq<Ticket>, t: nat)
    requires t < |tickets|
  {
    forall e | e in events ::
      && (e.Started? || e.Finished? || e.Settled?)
      && e.ticket <= t && Chained(tickets[e.ticket], tickets[t])
  }

  predicate SameChains(before: seq<Ticket>, after: seq<Ticket>, t: nat) {
    && |after| == |before|
    && (forall u | 0 <= u < |before| ::
          Chained(after[u], before[u]) && after[u].previous == before[u].previous && (u > t ==> after[u] == before[u]))
  }

  lemma {:induction false} OnlyFrame(s: State, events: seq<Event>, t: nat)
    requires t < |s.tickets| && Only(events, s.tickets, t)
    ensures SameChains(s.tickets, Run(s, events).tickets, t)
    decreases |events|
  {
    if events != [] {
      assert events[0] in events;
      OnlyStep(s, events[0], t);
      hide Apply;
      forall e | e in events[1..]
        ensures e in events
      {
      }
      OnlyFrame(Apply(s, events[0]), events[1..], t);
    }
  }

  lemma OnlyStep(s: State, e: Event, t: nat)
    requires e.Started? || e.Finished? || e.Settled?
    requires e.ticket <= t < |s.tickets|
    ensures SameChains(s.tickets, Apply(s, e).tickets, t)
  {
  }

  lemma {:induction false} RunAppend(s: State, first: seq<Event>, second: seq<Event>)
    ensures Run(s, first + second) == Run(Run(s, first), second)
    decreases |first|
  {
    if first == [] {
      assert first + second == second;
    } else {
      assert (first + second)[1..] == first[1..] + second;
      RunAppend(Apply(s, first[0]), first[1..], second);
    }
  }

  lemma RunOne(s: State, e: Event)
    ensures Run(s, [e]) == Apply(s, e)
  {
    assert Run(s, [e]) == Run(Apply(s, e), [e][1..]);
  }

  /** Events of a predecessor, then more events of this ticket. */
  lemma Then(s: State, first: seq<Event>, p: nat, second: seq<Event>, t: nat)
    requires Inv(s) && p < t < |s.tickets| && Chained(s.tickets[p], s.tickets[t])
    requires Only(first, s.tickets, p) && Only(second, s.tickets, t)
    ensures Only(first + second, s.tickets, t)
    ensures Run(s, first + second) == Run(Run(s, first), second)
    ensures Inv(Run(s, first)) && SameChains(s.tickets, Run(s, first).tickets, p)
  {
    RunAppend(s, first, second);
    OnlyFrame(s, first, p);
    RunKeeps(s, first);
  }

  /** Once a send is done, its tail resolves after the tails it waits for. */
  lemma {:induction false} TailResolves(s: State, t: nat) returns (events: seq<Event>)
    requires Inv(s) && t < |s.tickets| && s.tickets[t].phase.Done?
    ensures Only(events, s.tickets, t) && |Run(s, events).tickets| == |s.tickets| && Run(s, events).tickets[t].settled
    ensures forall e | e in events :: e.Settled?
    decreases t
  {
    assert TicketOk(s.tickets, t);
    RunOne(s, Settled(t));
    events := [Settled(t)];
    if s.tickets[t].previous.Some? {
      var p := s.tickets[t].previous.value;
      var first := TailResolves(s, p);
      Then(s, first, p, [Settled(t)], t);
      RunOne(Run(s, first), Settled(t));
      events := first + [Settled(t)];
    }
  }

  /** If the operations before it end, a waiting send gets its turn; all it takes are events of its own chain. */
  lemma {:induction false} TurnIsReached(s: State, t: nat) returns (events: seq<Event>)
    requires Inv(s) && t < |s.tickets| && s.tickets[t].phase == Waiting
    ensures Only(events, s.tickets, t) && |Run(s, events).tickets| == |s.tickets|
            && Run(s, events).tickets[t].phase == Running
    decreases t, 0
  {
    assert TicketOk(s.tickets, t);
    RunOne(s, Started(t));
    events := [Started(t)];
    if s.tickets[t].previous.Some? {
      var p := s.tickets[t].previous.value;
      var first := Completes(s, p);
      Then(s, first, p, [Started(t)], t);
      var second := TailResolves(Run(s, first), p);
      Then(Run(s, first), second, p, [Started(t)], t);
      RunAppend(s, first, second);
      RunOne(Run(s, first + second), Started(t));
      RunAppend(s, first + second, [Started(t)]);
      events := first + second + [Started(t)];
    }
  }

  lemma {:induction false} Completes(s: State, t: nat) returns (events: seq<Event>)
    requires Inv(s) && t < |s.tickets|
    ensures Only(events, s.tickets, t) && |Run(s, events).tickets| == |s.tickets|
            && Run(s, events).tickets[t].phase.Done?
    decreases t, 1
  {
    if s.tickets[t].phase.Done? {
      events := [];
    } else {
      var first := [];
      if s.tickets[t].phase == Waiting {
        first := TurnIsReached(s, t);
      }
      OnlyFrame(s, first, t);
      RunAppend(s, first, [Finished(t, false)]);
      RunOne(Run(s, first), Finished(t, false));
      events := first + [Finished(t, false)];
    }
  }

  /** Events in which no operation ends. */
  predicate NoneFinishes(events: seq<Event>) {
    forall e | e in events :: !e.Finished?
  }

  predicate HasTurn(s: State, t: nat) {
    t < |s.tickets| && s.tickets[t].phase == Running
  }

  /** Without an operation that ends, a ticket waits for as many as before. */
  lemma {:induction false} AheadStays(s: State, events: seq<Event>, t: nat)
    requires t < |s.tickets| && NoneFinishes(events)
    ensures t < |Run(s, events).tickets| && Ahead(Run(s, events).tickets, t, t) == Ahead(s.tickets, t, t)
    decreases |events|
  {
    if events != [] {
      assert events[0] in events;
      AheadStep(s, events[0], t, t);
      hide Apply, Ahead;
      assert forall e | e in events[1..] :: e in events;
      AheadStays(Apply(s, events[0]), events[1..], t);
    }
  }

  /** With nobody ahead, the tails before this ticket only have to resolve. */
  lemma TurnAtZero(s: State, t: nat) returns (events: seq<Event>)
    requires Inv(s) && t < |s.tickets| && s.tickets[t].phase == Waiting && Ahead(s.tickets, t, t) == 0
    ensures Only(events, s.tickets, t) && HasTurn(Run(s, events), t)
    ensures forall e | e in events :: e.Settled? || e == Started(t)
  {
    AheadZero(s.tickets, t, t);
    assert TicketOk(s.tickets, t);
    RunOne(s, Started(t));
    events := [Started(t)];
    if s.tickets[t].previous.Some? {
      var p := s.tickets[t].previous.value;
      var first := TailResolves(s, p);
      Then(s, first, p, [Started(t)], t);
      RunOne(Run(s, first), Started(t));
      events := first + [Started(t)];
    }
  }

  /**
   What the measure is worth: a waiting send can get its turn before any other operation ends exactly if
   it is zero, and then by the resolution of the tails before it and its own start alone.
   */
  lemma TurnExactlyAtZero(s: State, t: nat)
    requires Inv(s) && t < |s.tickets| && s.tickets[t].phase == Waiting
    ensures Ahead(s.tickets, t, t) == 0 <==> exists events :: NoneFinishes(events) && HasTurn(Run(s, events), t)
    ensures Ahead(s.tickets, t, t) == 0 ==>
              exists events :: (forall e: Event | e in events :: e.Settled? || e == Started(t))
                && HasTurn(Run(s, events), t)
  {
    hide Run;
    if Ahead(s.tickets, t, t) == 0 {
      var events := TurnAtZero(s, t);
      assert NoneFinishes(events);
    }
    forall events | NoneFinishes(events) && HasTurn(Run(s, events), t)
      ensures Ahead(s.tickets, t, t) == 0
    {
      AheadStays(s, events, t);
      RunKeeps(s, events);
      assert TicketOk(Run(s, events).tickets, t);
      AheadZero(Run(s, events).tickets, t, t);
    }
  }

  /** In every run, no waiting send is stuck. */
  lemma NobodyIsStuck(events: seq<Event>, t: nat)
    requires t < |Run(Initial(), events).tickets| && Run(Initial(), events).tickets[t].phase == Waiting
    ensures var s := Run(Initial(), events);
            exists more ::
              && Only(more, s.tickets, t) && |Run(s, more).tickets| == |s.tickets|
              && Run(s, more).tickets[t].phase == Running
  {
    RunKeeps(Initial(), events);
    var more := TurnIsReached(Run(Initial(), events), t);
  }
}

module SendIngress {
  import opened Wrappers
  import opened SendIngressModel
  import Model = SendIngressModel

  class SendIngressQueue {
    var tails: map<string, nat>
    var tickets: seq<Ticket>
    var epoch: nat

    function Snapshot(): State
      reads this
    {
      State(tails, tickets, epoch)
    }

    ghost predicate Valid()
      reads this
    {
      Inv(Snapshot())
    }

    constructor ()
      ensures Valid() && Snapshot() == Initial()
    {
      tails, tickets, epoch := map[], [], 0;
    }

    /** `reserveAgentSendIngress`: takes a place in the queue at once. */
    method Reserve(key: string) returns (ticket: nat)
      requires Valid()
      modifies this
      ensures Valid() && Snapshot() == Model.Reserve(old(Snapshot()), key) && ticket == |old(tickets)|
    {
      EventKeeps(Snapshot(), Reserved(key));
      var previous := None;
      if key in tails {
        previous := Some(tails[key]);
      }
      ticket := |tickets|;
      tickets := tickets + [Ticket(key, epoch, previous, Waiting, false)];
      tails := tails[key := ticket];
    }

    /** The returned runner, up to the operation: everything reserved before it is done by now. */
    method Begin(ticket: nat)
      requires Valid() && CanStart(Snapshot(), ticket)
      modifies this
      ensures Valid() && Snapshot() == Start(old(Snapshot()), ticket)
      ensures EarlierDone(tickets, ticket)
    {
      EventKeeps(Snapshot(), Started(ticket));
      TurnComes(Snapshot(), ticket);
      tickets := tickets[ticket := tickets[ticket].(phase := Running)];
    }

    /** Its `finally` block. */
    method Finish(ticket: nat, failed: bool)
      requires Valid() && CanFinish(Snapshot(), ticket)
      modifies this
      ensures Valid() && Snapshot() == Model.Finish(old(Snapshot()), ticket, failed)
    {
      EventKeeps(Snapshot(), Finished(ticket, failed));
      tickets := tickets[ticket := tickets[ticket].(phase := Done(failed))];
      var key := tickets[ticket].key;
      if key in tails && tails[key] == ticket {
        tails := tails - {key};
      }
    }

    method Clear()
      requires Valid()
      modifies this
      ensures Valid() && Snapshot() == Apply(old(Snapshot()), Cleared)
    {
      EventKeeps(Snapshot(), Cleared);
      tails := map[];
      epoch := epoch + 1;
    }
  }
}
