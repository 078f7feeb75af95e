/**
 The one-shot vote of emain/emain-workspace-close-handshake.ts: the renderer is asked whether its
 workspace may close, and an allowing answer is finalized once, as a commit or a rollback.
 */
module CloseHandshakeModel {
  import opened Wrappers

  datatype Pending = Pending(requestId: nat, senderId: nat)
  datatype Prepared = Prepared(requestId: nat, senderId: nat)

  /** What reached the renderer; a send that throws reaches nobody. */
  datatype Message =
    | Asked(to: nat, requestId: nat)
    | Finalized(to: nat, requestId: nat, commit: bool)

  /** A response as it arrives; `allow` is `None` when it is not a boolean. */
  datatype Response = Malformed | Answer(requestId: nat, allow: Option<bool>)

  /** `answers` holds the promises that have resolved; request ids are never reused. */
  datatype State = State(
    pending: Option<Pending>,
    prepared: Option<Prepared>,
    currentSender: Option<nat>,
    destroyed: set<nat>,
    nextRequest: nat,
    answers: map<nat, bool>,
    mailbox: seq<Message>)

  /** The `finish` closure of one request: only its first call does anything. */
  function Finish(s: State, p: Pending, allow: bool): State {
    if p.requestId in s.answers then s else
      s.(pending := if s.pending.Some? && s.pending.value.requestId == p.requestId then None else s.pending,
         prepared := if allow then Some(Prepared(p.requestId, p.senderId)) else s.prepared,
         answers := s.answers[p.requestId := allow])
  }

  predicate CanAsk(s: State) {
    && s.pending.None? && s.prepared.None?
    && s.currentSender.Some? && s.currentSender.value !in s.destroyed
  }

  /** Returns the id of the promise, or none for a promise that is already resolved to false. */
  function Request(s: State, sent: bool): (State, Option<nat>) {
    if !CanAsk(s) then (s, None) else
      var p := Pending(s.nextRequest, s.currentSender.value);
      var s1 := s.(pending := Some(p), nextRequest := s.nextRequest + 1);
      if sent then (s1.(mailbox := s.mailbox + [Asked(p.senderId, p.requestId)]), Some(p.requestId))
      else (Finish(s1, p, false), Some(p.requestId))
  }

  function Respond(s: State, senderId: nat, response: Response): State {
    if s.pending.None? then s else
      var p := s.pending.value;
      var senderMatches := p.senderId == senderId && s.currentSender == Some(senderId);
      match response
      case Malformed => if senderMatches then Finish(s, p, false) else s
      case Answer(requestId, allow) =>
        if requestId != p.requestId then s
        else if !senderMatches || allow.None? then Finish(s, p, false)
        else Finish(s, p, allow.value)
  }

  /** The timeout of the pending request fires. */
  function Expire(s: State): State {
    if s.pending.None? then s else Finish(s, s.pending.value, false)
  }

  /** A renderer is destroyed; the pending request listens for that. */
  function Destroy(s: State, senderId: nat): State {
    var s1 := s.(destroyed := s.destroyed + {senderId});
    if s.pending.Some? && s.pending.value.senderId == senderId then Finish(s1, s.pending.value, false) else s1
  }

  /** The prepared renderer is still there and still the current one. */
  predicate CanDeliver(s: State) {
    && s.prepared.Some?
    && s.prepared.value.senderId !in s.destroyed
    && s.currentSender == Some(s.prepared.value.senderId)
  }

  /** The preparation is used up whether or not the message gets through. */
  function Finalize(s: State, commit: bool, sent: bool): (State, bool) {
    if s.prepared.None? then (s, false)
    else if !CanDeliver(s) || !sent then (s.(prepared := None), false)
    else (s.(prepared := None,
             mailbox := s.mailbox + [Finalized(s.prepared.value.senderId, s.prepared.value.requestId, commit)]), true)
  }

  datatype Event =
    | Requested(sent: bool)
    | Responded(senderId: nat, response: Response)
    | Expired
    | Destroyed(senderId: nat)
    | SenderChanged(sender: Option<nat>)
    | FinalizeCalled(commit: bool, sent: bool)

  function Apply(s: State, e: Event): State {
    match e
    case Requested(sent) => Request(s, sent).0
    case Responded(senderId, response) => Respond(s, senderId, response)
    case Expired => Expire(s)
    case Destroyed(senderId) => Destroy(s, senderId)
    case SenderChanged(sender) => s.(currentSender := sender)
    case FinalizeCalled(commit, sent) => Finalize(s, commit, sent).0
  }

  function Run(s: State, events: seq<Event>): State
    decreases |events|
  {
    if events == [] then s else Run(Apply(s, events[0]), events[1..])
  }

  function Initial(sender: Option<nat>): State {
    State(None, None, sender, {}, 0, map[], [])
  }

  // ---- Invariant ----

  predicate WasAsked(mailbox: seq<Message>, k: nat)
    requires k < |mailbox| && mailbox[k].Finalized?
  {
    exists j | 0 <= j < k :: mailbox[j] == Asked(mailbox[k].to, mailbox[k].requestId)
  }

  ghost predicate MailboxOk(s: State) {
    && (forall k | 0 <= k < |s.mailbox| :: s.mailbox[k].requestId < s.nextRequest)
    && (forall k | 0 <= k < |s.mailbox| && s.mailbox[k].Finalized? ::
          && WasAsked(s.mailbox, k)
          && s.mailbox[k].requestId in s.answers && s.answers[s.mailbox[k].requestId]
          && (s.prepared.Some? ==> s.prepared.value.requestId != s.mailbox[k].requestId))
    && (forall j, k | 0 <= j < k < |s.mailbox| ::
          s.mailbox[j].Asked? == s.mailbox[k].Asked? ==> s.mailbox[j].requestId != s.mailbox[k].requestId)
  }

  ghost predicate Valid(s: State) {
    && !(s.pending.Some? && s.prepared.Some?)
    && (forall id | id in s.answers :: id < s.nextRequest)
    && (s.pending.Some? ==>
          && s.pending.value.requestId < s.nextRequest && s.pending.value.requestId !in s.answers
          && Asked(s.pending.value.senderId, s.pending.value.requestId) in s.mailbox)
    && (s.prepared.Some? ==>
          && s.prepared.value.requestId in s.answers && s.answers[s.prepared.value.requestId]
          && Asked(s.prepared.value.senderId, s.prepared.value.requestId) in s.mailbox)
    && MailboxOk(s)
  }

  lemma FinalizeKeeps(s: State, commit: bool, sent: bool)
    requires Valid(s)
    ensures Valid(Finalize(s, commit, sent).0)
  {
    if CanDeliver(s) && sent {
      var message := Finalized(s.prepared.value.senderId, s.prepared.value.requestId, commit);
      var mailbox := s.mailbox + [message];
      var j :| 0 <= j < |s.mailbox| && s.mailbox[j] == Asked(message.to, message.requestId);
      assert mailbox[j] == Asked(message.to, message.requestId);
      forall k | 0 <= k < |mailbox| && mailbox[k].Finalized?
        ensures WasAsked(mailbox, k)
      {
        if k < |s.mailbox| {
          var i :| 0 <= i < k && s.mailbox[i] == Asked(s.mailbox[k].to, s.mailbox[k].requestId);
          assert mailbox[i] == s.mailbox[i];
        }
      }
    }
  }

  lemma AskKeeps(s: State, sent: bool)
    requires Valid(s)
    ensures Valid(Request(s, sent).0)
  {
    if CanAsk(s) && sent {
      var mailbox := s.mailbox + [Asked(s.currentSender.value, s.nextRequest)];
      assert mailbox[|s.mailbox|] == Asked(s.currentSender.value, s.nextRequest);
      forall k | 0 <= k < |mailbox| && mailbox[k].Finalized?
        ensures WasAsked(mailbox, k)
      {
        var i :| 0 <= i < k && s.mailbox[i] == Asked(s.mailbox[k].to, s.mailbox[k].requestId);
        assert mailbox[i] == s.mailbox[i];
      }
    }
  }

  lemma EventKeeps(s: State, e: Event)
    requires Valid(s)
    ensures Valid(Apply(s, e))
  {
    match e {
      case FinalizeCalled(commit, sent) => FinalizeKeeps(s, commit, sent);
      case Requested(sent) => AskKeeps(s, sent);
      case _ =>
    }
  }

  lemma {:induction false} RunKeeps(s: State, events: seq<Event>)
    requires Valid(s)
    ensures Valid(Run(s, events))
    decreases |events|
  {
    if events != [] {
      EventKeeps(s, events[0]);
      RunKeeps(Apply(s, events[0]), events[1..]);
    }
  }

  /**
   In every run a renderer receives at most one finalize for a request id, and only for a request
   that this very renderer was asked before and that was answered with true.
   */
  lemma FinalizedAtMostOnce(sender: Option<nat>, events: seq<Event>, j: nat, k: nat)
    requires j < |Run(Initial(sender), events).mailbox| && k < |Run(Initial(sender), events).mailbox|
    requires Run(Initial(sender), events).mailbox[k].Finalized?
    ensures var s := Run(Initial(sender), events);
            && (s.mailbox[j].Finalized? && s.mailbox[j].requestId == s.mailbox[k].requestId ==> j == k)
            && (exists i | 0 <= i < k :: s.mailbox[i] == Asked(s.mailbox[k].to, s.mailbox[k].requestId))
            && s.mailbox[k].requestId in s.answers && s.answers[s.mailbox[k].requestId]
  {
    RunKeeps(Initial(sender), events);
  }

  /**
   A request resolves to true in exactly one way: the renderer that was asked, being still the
   current one, answers that request with true.
   */
  lemma AllowedExactlyWhen(s: State, e: Event, id: nat)
    requires Valid(s) && id !in s.answers
    ensures id in Apply(s, e).answers && Apply(s, e).answers[id] <==>
              && e.Responded? && e.response == Answer(id, Some(true))
              && s.pending == Some(Pending(id, e.senderId)) && s.currentSender == Some(e.senderId)
  {
  }

  /** What ends a request that is pending. */
  predicate Ends(s: State, p: Pending, e: Event) {
    match e
    case Expired => true
    case Destroyed(senderId) => senderId == p.senderId
    case Responded(senderId, Malformed) => senderId == p.senderId && s.currentSender == Some(senderId)
    case Responded(_, Answer(requestId, _)) => requestId == p.requestId
    case _ => false
  }

  /**
   A pending request ends exactly with its timeout, the death of its renderer, nonsense from that
   renderer while it is the current one, or any answer to it whatever that says and whoever sends it.
   Then nothing is pending, and the renderer is prepared exactly if the answer was true.
   */
  lemma EndsExactlyWhen(s: State, e: Event, p: Pending)
    requires Valid(s) && s.pending == Some(p)
    ensures p.requestId in Apply(s, e).answers <==> Ends(s, p, e)
    ensures Apply(s, e).pending == if Ends(s, p, e) then None else Some(p)
    ensures Ends(s, p, e) ==>
              Apply(s, e).answers[p.requestId] ==
                (e == Responded(p.senderId, Answer(p.requestId, Some(true))) && s.currentSender == Some(p.senderId))
    ensures Apply(s, e).prepared ==
              if p.requestId in Apply(s, e).answers && Apply(s, e).answers[p.requestId]
              then Some(Prepared(p.requestId, p.senderId)) else None
    ensures Apply(s, e).mailbox == s.mailbox && Apply(s, e).nextRequest == s.nextRequest
    ensures Apply(s, e).destroyed == s.destroyed + (if e.Destroyed? then {e.senderId} else {})
    ensures Apply(s, e).currentSender == if e.SenderChanged? then e.sender else s.currentSender
  {
  }

  /**
   The renderer is asked exactly if no vote is open or waits to be finalized and the current renderer
   is alive. If the message gets through, that request pends; if not, it is answered with false.
   */
  lemma AsksExactlyWhen(s: State, sent: bool)
    requires Valid(s)
    ensures var (after, promise) := Request(s, sent);
            var asks := s.pending.None? && s.prepared.None? && s.currentSender.Some?
                        && s.currentSender.value !in s.destroyed;
            && promise == (if asks then Some(s.nextRequest) else None)
            && (!asks ==> after == s)
            && (asks && sent ==>
                  && after.pending == Some(Pending(s.nextRequest, s.currentSender.value)) && after.answers == s.answers
                  && after.mailbox == s.mailbox + [Asked(s.currentSender.value, s.nextRequest)])
            && (asks && !sent ==>
                  after.pending.None? && after.mailbox == s.mailbox
                  && after.answers == s.answers[s.nextRequest := false])
            && (asks ==> after.nextRequest == s.nextRequest + 1 && after.prepared.None?)
  {
  }

  /**
   A finalize reaches the renderer exactly if this renderer allowed it, is alive, is still the current
   one, and the message gets through; the preparation is used up in any case.
   */
  lemma DeliversExactlyWhen(s: State, commit: bool, sent: bool)
    ensures var (after, delivered) := Finalize(s, commit, sent);
            && after.prepared.None? && after.pending == s.pending && after.answers == s.answers
            && delivered == (s.prepared.Some? && s.prepared.value.senderId !in s.destroyed
                             && s.currentSender == Some(s.prepared.value.senderId) && sent)
            && after.mailbox == s.mailbox +
                 if delivered then [Finalized(s.prepared.value.senderId, s.prepared.value.requestId, commit)] else []
  {
  }

  /** Late answers and timeouts change nothing, and the environment does what its events say. */
  lemma NothingPendingNothingEnds(s: State, e: Event)
    requires s.pending.None? && !e.Requested? && !e.FinalizeCalled?
    ensures var after := Apply(s, e);
            && after == s.(destroyed := after.destroyed, currentSender := after.currentSender)
            && after.destroyed == s.destroyed + (if e.Destroyed? then {e.senderId} else {})
            && after.currentSender == (if e.SenderChanged? then e.sender else s.currentSender)
  {
  }

  /** The whole vote: asked, allowed and finalized, the renderer has got exactly these two messages. */
  lemma VoteIsFinalized(s: State, commit: bool)
    requires Valid(s) && CanAsk(s)
    ensures var (to, id) := (s.currentSender.value, s.nextRequest);
            var after := Run(s, [Requested(true), Responded(to, Answer(id, Some(true))), FinalizeCalled(commit, true)]);
            && after.mailbox == s.mailbox + [Asked(to, id), Finalized(to, id, commit)]
            && after.answers == s.answers[id := true] && CanAsk(after)
  {
    var answer := Responded(s.currentSender.value, Answer(s.nextRequest, Some(true)));
    var s1 := Apply(s, Requested(true));
    var s2 := Apply(s1, answer);
    assert Run(s2, [FinalizeCalled(commit, true)]) == Run(Apply(s2, FinalizeCalled(commit, true)), []);
    assert [answer, FinalizeCalled(commit, true)][1..] == [FinalizeCalled(commit, true)];
    assert [Requested(true), answer, FinalizeCalled(commit, true)][1..] == [answer, FinalizeCalled(commit, true)];
  }

  /** A resolved promise never changes its value. */
  lemma AnswersStand(s: State, e: Event, id: nat)
    requires Valid(s) && id in s.answers
    ensures id in Apply(s, e).answers && Apply(s, e).answers[id] == s.answers[id]
  {
  }
}

module CloseHandshake {
  import opened Wrappers
  import opened CloseHandshakeModel
  import Model = CloseHandshakeModel

  class WorkspaceCloseHandshake {
    var pending: Option<Pending>
    var prepared: Option<Prepared>
    var currentSender: Option<nat>
    var destroyed: set<nat>
    var nextRequest: nat
    var answers: map<nat, bool>
    var mailbox: seq<Message>

    ghost function Snapshot(): State
      reads this
    {
      State(pending, prepared, currentSender, destroyed, nextRequest, answers, mailbox)
    }

    ghost predicate Valid()
      reads this
    {
      Model.Valid(Snapshot())
    }

    constructor (sender: Option<nat>)
      ensures Valid() && Snapshot() == Initial(sender)
    {
      pending, prepared, currentSender := None, None, sender;
      destroyed, nextRequest, answers, mailbox := {}, 0, map[], [];
    }

    method Finish(p: Pending, allow: bool)
      modifies this`pending, this`prepared, this`answers
      ensures Snapshot() == Model.Finish(old(Snapshot()), p, allow)
    {
      if p.requestId in answers {
        return;
      }
      answers := answers[p.requestId := allow];
      if pending.Some? && pending.value.requestId == p.requestId {
        pending := None;
      }
      if allow {
        prepared := Some(Prepared(p.requestId, p.senderId));
      }
    }

    method Request(sent: bool) returns (promise: Option<nat>)
      requires Valid()
      modifies this
      ensures Valid()
      ensures (Snapshot(), promise) == Model.Request(old(Snapshot()), sent)
    {
      EventKeeps(Snapshot(), Requested(sent));
      if pending.Some? || prepared.Some? {
        return None;
      }
      if currentSender.None? || currentSender.value in destroyed {
        return None;
      }
      var p := Pending(nextRequest, currentSender.value);
      nextRequest := nextRequest + 1;
      pending := Some(p);
      if sent {
        mailbox := mailbox + [Asked(p.senderId, p.requestId)];
      } else {
        Finish(p, false);
      }
      return Some(p.requestId);
    }

    method Respond(senderId: nat, response: Response)
      requires Valid()
      modifies this
      ensures Valid()
      ensures Snapshot() == Model.Respond(old(Snapshot()), senderId, response)
    {
      EventKeeps(Snapshot(), Responded(senderId, response));
      if pending.None? {
        return;
      }
      var p := pending.value;
      var senderMatches := p.senderId == senderId && currentSender == Some(senderId);
      if response.Malformed? {
        if senderMatches {
          Finish(p, false);
        }
        return;
      }
      if p.requestId != response.requestId {
        return;
      }
      if !senderMatches || response.allow.None? {
        Finish(p, false);
        return;
      }
      Finish(p, response.allow.value);
    }

    method Expire()
      requires Valid()
      modifies this
      ensures Valid()
      ensures Snapshot() == Model.Expire(old(Snapshot()))
      ensures pending.None?
    {
      EventKeeps(Snapshot(), Expired);
      if pending.Some? {
        Finish(pending.value, false);
      }
    }

    /** The renderers change while the handshake waits. */
    method Environment(gone: nat, current: Option<nat>)
      requires Valid()
      modifies this
      ensures Valid()
      ensures Snapshot() == Model.Destroy(old(Snapshot()), gone).(currentSender := current)
    {
      EventKeeps(Snapshot(), Destroyed(gone));
      EventKeeps(Model.Destroy(Snapshot(), gone), SenderChanged(current));
      destroyed := destroyed + {gone};
      if pending.Some? && pending.value.senderId == gone {
        Finish(pending.value, false);
      }
      currentSender := current;
    }

    method Finalize(commit: bool, sent: bool) returns (delivered: bool)
      requires Valid()
      modifies this
      ensures Valid()
      ensures (Snapshot(), delivered) == Model.Finalize(old(Snapshot()), commit, sent)
    {
      EventKeeps(Snapshot(), FinalizeCalled(commit, sent));
      if prepared.None? {
        return false;
      }
      var p := prepared.value;
      prepared := None;
      if p.senderId in destroyed || currentSender != Some(p.senderId) {
        return false;
      }
      if sent {
        mailbox := mailbox + [Finalized(p.senderId, p.requestId, commit)];
      }
      return sent;
    }
  }
}
