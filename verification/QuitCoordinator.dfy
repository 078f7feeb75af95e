/**
 Quitting over any number of windows (emain/emain-quit-coordinator.ts): every window's renderer is
 asked first, and only if all of them allow it the action runs and the windows are told to commit.

 Everything that can happen while the coordinator awaits something is a script of happenings, chosen
 by the caller: renderers answer, time out, vanish, and other code calls the coordinator again.
 */
module QuitCoordinator {
  import opened Wrappers
  import opened CloseHandshakeModel

  datatype Call = BeforeQuit | GuardAction | DeclineSettles

  datatype Happening =
    | AtWindow(window: nat, event: Event)
    | AtCoordinator(call: Call)

  /** `app.quit()` and the like: what the action calls back before it returns, and how it ends. */
  datatype Action = Action(calls: seq<Call>, throws: bool, meanwhile: seq<Happening>, rejects: bool)

  /** `inflight` holds the promise of a quit; one that was declined clears itself shortly after. */
  datatype Inflight = Idle | Declined | Quitting

  /** The handshake has one user at a time: nobody else asks or finalizes during a run. */
  predicate IsPassive(e: Event) {
    !e.Requested? && !e.FinalizeCalled?
  }

  predicate PassiveScript(script: seq<Happening>) {
    forall k | 0 <= k < |script| && script[k].AtWindow? :: IsPassive(script[k].event)
  }

  predicate IsIdle(w: State) {
    w.pending.None? && w.prepared.None?
  }

  /** The window has been asked in this run and allowed it. */
  predicate VotedYes(before: State, w: State) {
    CanAsk(before) && before.nextRequest in w.answers && w.answers[before.nextRequest]
  }

  /** What a request sends to a window that was idle. */
  function AskedPart(before: State, sent: bool): seq<Message> {
    if CanAsk(before) && sent then [Asked(before.currentSender.value, before.nextRequest)] else []
  }

  /** How far one window has come since it was idle: not askable, asked, or answered. */
  ghost predicate Asking(before: State, sent: bool, w: State) {
    && Valid(w)
    && w.mailbox == before.mailbox + AskedPart(before, sent)
    && if !CanAsk(before) then IsIdle(w) && w.answers == before.answers && w.nextRequest == before.nextRequest
       else
         && w.nextRequest == before.nextRequest + 1
         && (w.pending.Some? ==>
               w.pending.value == Pending(before.nextRequest, before.currentSender.value) && w.prepared.None?)
         && (w.pending.None? ==> before.nextRequest in w.answers)
         && (w.prepared.Some? <==> VotedYes(before, w))
         && (w.prepared.Some? ==> w.prepared.value == Prepared(before.nextRequest, before.currentSender.value))
  }

  ghost predicate AllAsking(before: seq<State>, sent: seq<bool>, windows: seq<State>) {
    |windows| == |before| == |sent| && forall i | 0 <= i < |before| :: Asking(before[i], sent[i], windows[i])
  }

  ghost predicate AllAnswered(before: seq<State>, sent: seq<bool>, windows: seq<State>) {
    AllAsking(before, sent, windows) && forall i | 0 <= i < |before| :: windows[i].pending.None?
  }

  lemma RequestAsks(before: State, sent: bool)
    requires Valid(before) && IsIdle(before)
    ensures Asking(before, sent, CloseHandshakeModel.Request(before, sent).0)
  {
    AskKeeps(before, sent);
    AsksExactlyWhen(before, sent);
  }

  lemma PassiveKeepsAsking(before: State, sent: bool, w: State, e: Event)
    requires Asking(before, sent, w) && IsPassive(e) && Valid(before)
    ensures Asking(before, sent, Apply(w, e))
    ensures w.pending.None? ==> Apply(w, e).pending.None? && Apply(w, e).answers == w.answers
  {
    EventKeeps(w, e);
  }

  /** What a finalize call leaves of a window that has answered. */
  ghost predicate Told(before: State, w: State, commit: bool) {
    && Valid(w) && IsIdle(w)
    && before.mailbox <= w.mailbox
    && (forall k | |before.mailbox| <= k < |w.mailbox| && w.mailbox[k].Finalized? ::
          w.mailbox[k].commit == commit && w.mailbox[k].requestId == before.nextRequest)
    && (VotedYes(before, w) || forall k | |before.mailbox| <= k < |w.mailbox| :: w.mailbox[k].Asked?)
  }

  /**
   The renderer that was asked voted yes, is alive and still the current one when the finalizes go out,
   and the message gets through.
   */
  predicate IsReached(before: State, w: State, told: bool) {
    VotedYes(before, w) && before.currentSender.value !in w.destroyed && w.currentSender == before.currentSender && told
  }

  /** Exactly what a run has sent to one window: the question, and one finalize if it can be reached. */
  ghost predicate ToldExactly(before: State, w: State, asked: bool, told: bool, commit: bool) {
    w.mailbox == before.mailbox + AskedPart(before, asked) +
      if IsReached(before, w, told) then [Finalized(before.currentSender.value, before.nextRequest, commit)] else []
  }

  lemma FinalizeTells(before: State, asked: bool, w: State, commit: bool, sent: bool)
    requires Asking(before, asked, w) && w.pending.None?
    ensures Told(before, Finalize(w, commit, sent).0, commit)
    ensures VotedYes(before, Finalize(w, commit, sent).0) == VotedYes(before, w)
    ensures ToldExactly(before, Finalize(w, commit, sent).0, asked, sent, commit)
  {
    FinalizeKeeps(w, commit, sent);
    DeliversExactlyWhen(w, commit, sent);
  }

  // ---- What one window goes through ----

  /** The events of a script at one window, in order. */
  function EventsAt(script: seq<Happening>, i: nat): seq<Event>
    decreases |script|
  {
    if script == [] then [] else
      EventsAt(script[..|script| - 1], i) +
      match script[|script| - 1] {
        case AtWindow(j, event) => if j == i then [event] else []
        case AtCoordinator(_) => []
      }
  }

  /** What a happening does to window `i`. */
  function After(w: State, happening: Happening, i: nat): State {
    if happening.AtWindow? && happening.window == i then Apply(w, happening.event) else w
  }

  lemma EventsOfMore(script: seq<Happening>, k: nat, i: nat)
    requires k < |script|
    ensures EventsAt(script[..k + 1], i) ==
              EventsAt(script[..k], i) + if script[k].AtWindow? && script[k].window == i then [script[k].event] else []
  {
    assert script[..k + 1][..k] == script[..k];
  }

  lemma {:induction false} RunAppend(w: State, first: seq<Event>, second: seq<Event>)
    ensures Run(w, first + second) == Run(Run(w, first), second)
    decreases |first|
  {
    if first == [] {
      assert first + second == second;
    } else {
      assert (first + second)[1..] == first[1..] + second;
      RunAppend(Apply(w, first[0]), first[1..], second);
    }
  }

  lemma RunOne(w: State, e: Event)
    ensures Run(w, [e]) == Apply(w, e)
  {
    assert Run(w, [e]) == Run(Apply(w, e), [e][1..]);
  }

  /** All that a guarded run lets happen at one window. */
  function Course(asked: bool, voting: seq<Event>, meanwhile: seq<Event>, commit: bool, told: bool): seq<Event> {
    [Requested(asked)] + voting + [Expired] + meanwhile + [FinalizeCalled(commit, told)]
  }

  /** `answered` is the window after the votes, `last` just before the finalizes. */
  lemma CourseInSteps(before: State, asked: bool, voting: seq<Event>, answered: State, meanwhile: seq<Event>,
                      last: State, commit: bool, told: bool)
    requires answered == Apply(Run(Apply(before, Requested(asked)), voting), Expired)
    requires last == Run(answered, meanwhile)
    ensures Run(before, Course(asked, voting, meanwhile, commit, told)) == Apply(last, FinalizeCalled(commit, told))
  {
    hide Apply;
    var s1 := [Requested(asked)];
    RunOne(before, Requested(asked));
    RunAppend(before, s1, voting);
    RunAppend(before, s1 + voting, [Expired]);
    RunOne(Run(before, s1 + voting), Expired);
    RunAppend(before, s1 + voting + [Expired], meanwhile);
    RunAppend(before, s1 + voting + [Expired] + meanwhile, [FinalizeCalled(commit, told)]);
    RunOne(last, FinalizeCalled(commit, told));
    hide Run;
  }

  class EMainQuitCoordinator {
    var approvedQuit: bool
    var inflight: Inflight
    var guardInflight: bool
    var windows: seq<State>
    var letThrough: nat   // how often `beforeQuit` returned true
    var actionsRun: nat

    ghost predicate AtRest()
      reads this
    {
      !approvedQuit && !inflight.Quitting? && !guardInflight
      && forall i | 0 <= i < |windows| :: Valid(windows[i]) && IsIdle(windows[i])
    }

    constructor (windows: seq<State>)
      requires forall i | 0 <= i < |windows| :: Valid(windows[i]) && IsIdle(windows[i])
      ensures AtRest() && this.windows == windows && letThrough == 0 && actionsRun == 0
    {
      approvedQuit, inflight, guardInflight := false, Idle, false;
      this.windows, letThrough, actionsRun := windows, 0, 0;
    }

    /** True lets the quit through; `starts` says that this call set a quit of its own going. */
    method HandleBeforeQuit() returns (allowed: bool, starts: bool)
      modifies this`approvedQuit, this`inflight, this`letThrough
      ensures allowed == old(approvedQuit) && !approvedQuit
      ensures letThrough == old(letThrough) + (if allowed then 1 else 0)
      ensures starts == (!allowed && old(inflight).Idle? && !guardInflight)
      ensures inflight == if allowed || !old(inflight).Idle? then old(inflight)
                          else if guardInflight then Declined else Quitting
    {
      if approvedQuit {
        approvedQuit := false;
        letThrough := letThrough + 1;
        return true, false;
      }
      if !inflight.Idle? {
        return false, false;
      }
      if guardInflight {
        inflight := Declined;
        return false, false;
      }
      inflight := Quitting;
      return false, true;
    }

    /** Another call of the coordinator while a run is under way: it starts nothing. */
    method Reenter(call: Call)
      requires guardInflight
      modifies this`approvedQuit, this`inflight, this`letThrough
      ensures letThrough == old(letThrough) + (if call.BeforeQuit? && old(approvedQuit) then 1 else 0)
      ensures approvedQuit == (old(approvedQuit) && !call.BeforeQuit?)
      ensures inflight.Quitting? == old(inflight).Quitting?
    {
      match call {
        case BeforeQuit =>
          var _, _ := HandleBeforeQuit();
        case GuardAction =>
          // `guardInflight` is set, so the call returns false at once.
        case DeclineSettles =>
          if inflight.Declined? {
            inflight := Idle;
          }
      }
    }

    /** Everything that happens at one await. */
    method Await(script: seq<Happening>, ghost before: seq<State>, ghost asked: seq<bool>)
      requires guardInflight && !approvedQuit && PassiveScript(script)
      requires (forall i | 0 <= i < |before| :: Valid(before[i])) && AllAsking(before, asked, windows)
      modifies this`approvedQuit, this`inflight, this`letThrough, this`windows
      ensures !approvedQuit && letThrough == old(letThrough)
      ensures inflight.Quitting? == old(inflight).Quitting?
      ensures AllAsking(before, asked, windows)
      ensures forall i | 0 <= i < |windows| :: windows[i] == Run(old(windows)[i], EventsAt(script, i))
      ensures old(AllAnswered(before, asked, windows)) ==>
                AllAnswered(before, asked, windows)
                && forall i | 0 <= i < |before| :: windows[i].answers == old(windows)[i].answers
    {
      ghost var start := windows;
      assert script[..0] == [];
      assert forall i | 0 <= i < |windows| :: Run(start[i], EventsAt(script[..0], i)) == windows[i];
      hide Apply, Run, EventsAt, IsPassive, Asking;
      for k := 0 to |script|
        invariant !approvedQuit && letThrough == old(letThrough)
        invariant inflight.Quitting? == old(inflight).Quitting?
        invariant AllAsking(before, asked, windows)
        invariant forall i | 0 <= i < |windows| :: windows[i] == Run(start[i], EventsAt(script[..k], i))
        invariant old(AllAnswered(before, asked, windows)) ==>
                    AllAnswered(before, asked, windows)
                    && forall i | 0 <= i < |before| :: windows[i].answers == start[i].answers
      {
        forall i | 0 <= i < |windows|
          ensures Run(start[i], EventsAt(script[..k + 1], i)) == After(windows[i], script[k], i)
        {
          StepAt(start[i], script, k, i);
        }
        Occur(script[k], before, asked);
      }
      assert script[..|script|] == script;
    }

    /** One of the things that happen at an await. */
    method Occur(happening: Happening, ghost before: seq<State>, ghost asked: seq<bool>)
      requires guardInflight && !approvedQuit && (happening.AtWindow? ==> IsPassive(happening.event))
      requires (forall i | 0 <= i < |before| :: Valid(before[i])) && AllAsking(before, asked, windows)
      modifies this`approvedQuit, this`inflight, this`letThrough, this`windows
      ensures !approvedQuit && letThrough == old(letThrough)
      ensures inflight.Quitting? == old(inflight).Quitting?
      ensures AllAsking(before, asked, windows)
      ensures forall i | 0 <= i < |windows| :: windows[i] == After(old(windows)[i], happening, i)
      ensures old(AllAnswered(before, asked, windows)) ==>
                AllAnswered(before, asked, windows)
                && forall i | 0 <= i < |before| :: windows[i].answers == old(windows)[i].answers
    {
      hide Apply, IsPassive, Asking;
      match happening {
        case AtCoordinator(call) =>
          Reenter(call);
        case AtWindow(i, event) =>
          if i < |windows| {
            PassiveKeepsAsking(before[i], asked[i], windows[i], event);
            windows := windows[i := Apply(windows[i], event)];
          }
      }
    }

    method RequestAll(sent: seq<bool>)
      requires AtRestExceptGuard() && |sent| == |windows|
      modifies this`windows
      ensures AllAsking(old(windows), sent, windows)
      ensures forall i | 0 <= i < |windows| :: windows[i] == Apply(old(windows)[i], Requested(sent[i]))
    {
      ghost var before := windows;
      for i := 0 to |windows|
        invariant |windows| == |before|
        invariant forall j | 0 <= j < i ::
                    Asking(before[j], sent[j], windows[j]) && windows[j] == Apply(before[j], Requested(sent[j]))
        invariant forall j | i <= j < |windows| :: windows[j] == before[j]
      {
        RequestAsks(windows[i], sent[i]);
        windows := windows[i := CloseHandshakeModel.Request(windows[i], sent[i]).0];
      }
    }

    /** The timeouts of the windows that have not answered. */
    method ExpireAll(ghost before: seq<State>, ghost asked: seq<bool>)
      requires (forall i | 0 <= i < |before| :: Valid(before[i])) && AllAsking(before, asked, windows)
      modifies this`windows
      ensures AllAnswered(before, asked, windows)
      ensures forall i | 0 <= i < |windows| :: windows[i] == Apply(old(windows)[i], Expired)
    {
      ghost var start := windows;
      for i := 0 to |windows|
        invariant AllAsking(before, asked, windows)
        invariant forall j | 0 <= j < i :: windows[j].pending.None? && windows[j] == Apply(start[j], Expired)
        invariant forall j | i <= j < |windows| :: windows[j] == start[j]
      {
        PassiveKeepsAsking(before[i], asked[i], windows[i], Expired);
        windows := windows[i := Expire(windows[i])];
      }
    }

    /** `Promise.all` over the requests: every window answers, at the latest by its timeout. */
    method CollectVotes(sent: seq<bool>, script: seq<Happening>) returns (votes: seq<bool>)
      requires AtRestExceptGuard() && |sent| == |windows| && PassiveScript(script)
      modifies this`approvedQuit, this`inflight, this`letThrough, this`windows
      ensures !approvedQuit && letThrough == old(letThrough)
      ensures inflight.Quitting? == old(inflight).Quitting?
      ensures AllAnswered(old(windows), sent, windows)
      ensures forall i | 0 <= i < |windows| ::
                windows[i] == Apply(Run(Apply(old(windows)[i], Requested(sent[i])), EventsAt(script, i)), Expired)
      ensures |votes| == |windows| && forall i | 0 <= i < |votes| :: votes[i] == VotedYes(old(windows)[i], windows[i])
    {
      ghost var before := windows;
      hide Apply, Run, EventsAt;
      RequestAll(sent);
      Await(script, before, sent);
      ExpireAll(before, sent);
      var answered := windows;
      votes := seq(|answered|, i requires 0 <= i < |answered| => answered[i].prepared.Some?);
    }

    ghost predicate AtRestExceptGuard()
      reads this
    {
      !approvedQuit && guardInflight && forall i | 0 <= i < |windows| :: Valid(windows[i]) && IsIdle(windows[i])
    }

    method FinalizeAll(commit: bool, sent: seq<bool>, ghost before: seq<State>, ghost asked: seq<bool>)
      requires AllAnswered(before, asked, windows) && |sent| == |windows|
      modifies this`windows
      ensures |windows| == |before|
      ensures forall i | 0 <= i < |before| ::
                && Told(before[i], windows[i], commit)
                && ToldExactly(before[i], windows[i], asked[i], sent[i], commit)
                && VotedYes(before[i], windows[i]) == VotedYes(before[i], old(windows)[i])
                && windows[i] == Apply(old(windows)[i], FinalizeCalled(commit, sent[i]))
    {
      ghost var answered := windows;
      hide Told, ToldExactly, Asking;
      for i := 0 to |windows|
        invariant |windows| == |before|
        invariant forall j | 0 <= j < i ::
                    && Told(before[j], windows[j], commit)
                    && ToldExactly(before[j], windows[j], asked[j], sent[j], commit)
                    && VotedYes(before[j], windows[j]) == VotedYes(before[j], answered[j])
                    && windows[j] == Apply(answered[j], FinalizeCalled(commit, sent[j]))
        invariant forall j | i <= j < |windows| :: windows[j] == answered[j]
      {
        FinalizeTells(before[i], asked[i], windows[i], commit, sent[i]);
        windows := windows[i := Finalize(windows[i], commit, sent[i]).0];
      }
    }

    /** The synchronous part of the action, which may call the coordinator back. */
    method RunAction(calls: seq<Call>, approve: bool)
      requires guardInflight && !approvedQuit
      modifies this`approvedQuit, this`inflight, this`letThrough, this`actionsRun
      ensures !approvedQuit && actionsRun == old(actionsRun) + 1
      ensures inflight.Quitting? == old(inflight).Quitting?
      ensures letThrough == old(letThrough) +
              (if approve && (exists k | 0 <= k < |calls| :: calls[k].BeforeQuit?) then 1 else 0)
    {
      approvedQuit := approve;
      actionsRun := actionsRun + 1;
      for k := 0 to |calls|
        invariant inflight.Quitting? == old(inflight).Quitting?
        invariant actionsRun == old(actionsRun) + 1
        invariant approvedQuit == (approve && forall j | 0 <= j < k :: !calls[j].BeforeQuit?)
        invariant letThrough == old(letThrough) +
                (if approve && (exists j | 0 <= j < k :: calls[j].BeforeQuit?) then 1 else 0)
      {
        Reenter(calls[k]);
      }
      approvedQuit := false;
    }

    /**
     One whole guarded run. The action runs exactly when every window voted yes; the run returns true
     exactly when the action then succeeded; afterwards no window is left pending or prepared. A window
     gets one finalize exactly if it voted yes, its renderer is alive and still the current one, and the
     message gets through, and it is told commit exactly when the run returns true. A quit is let
     through only by a call made from inside the action of an approving run, and only once. Each window
     goes through the handshake's steps in this order and no others.
     */
    method RunGuardedAction(approve: bool, asked: seq<bool>, voting: seq<Happening>, action: Action, told: seq<bool>)
      returns (done: bool, votes: seq<bool>)
      requires AtRestExceptGuard() && |asked| == |windows| && |told| == |windows|
      requires PassiveScript(voting) && PassiveScript(action.meanwhile)
      modifies this`approvedQuit, this`inflight, this`letThrough, this`windows, this`actionsRun
      ensures AtRestExceptGuard() && |windows| == |old(windows)| == |votes|
      ensures inflight.Quitting? == old(inflight).Quitting?
      ensures forall i | 0 <= i < |votes| :: votes[i] == VotedYes(old(windows)[i], windows[i])
      ensures actionsRun == old(actionsRun) + (if IsUnanimous(votes) then 1 else 0)
      ensures done == (IsUnanimous(votes) && !action.throws && !action.rejects)
      ensures forall i | 0 <= i < |windows| ::
                && Told(old(windows)[i], windows[i], done)
                && ToldExactly(old(windows)[i], windows[i], asked[i], told[i], done)
                && windows[i] == Run(old(windows)[i], Course(asked[i], EventsAt(voting, i),
                                       Meanwhile(votes, action, i), done, told[i]))
      ensures letThrough == old(letThrough) + (if IsUnanimous(votes) && approve && CallsBack(action) then 1 else 0)
    {
      ghost var before := windows;
      hide Apply, Run, EventsAt, Told, ToldExactly, Asking, VotedYes;
      votes := CollectVotes(asked, voting);
      ghost var answered := windows;
      assert forall i | 0 <= i < |windows| :: Run(answered[i], []) == windows[i] by { RunNothing(answered); }
      var unanimous := IsUnanimous(votes);
      done := false;
      if unanimous {
        RunAction(action.calls, approve);
        if !action.throws {
          Await(action.meanwhile, before, asked);
          done := !action.rejects;
        }
      }
      ghost var last := windows;
      FinalizeAll(done, told, before, asked);
      SameVotes(before, answered, last);
      forall i | 0 <= i < |windows|
        ensures windows[i] == Run(before[i],
                                     Course(asked[i], EventsAt(voting, i), Meanwhile(votes, action, i), done, told[i]))
      {
        CourseInSteps(before[i], asked[i], EventsAt(voting, i), answered[i], Meanwhile(votes, action, i), last[i],
                      done, told[i]);
      }
      ToldAreIdle(before, windows, done);
    }

    /** `guardAction`: a second one while a run is under way returns false and does nothing. */
    method GuardedRun(approve: bool, asked: seq<bool>, voting: seq<Happening>, action: Action, told: seq<bool>)
      returns (done: bool, votes: seq<bool>)
      requires AtRest() && |asked| == |windows| && |told| == |windows|
      requires PassiveScript(voting) && PassiveScript(action.meanwhile)
      modifies this
      ensures AtRest() && |windows| == |old(windows)| == |votes|
      ensures forall i | 0 <= i < |votes| :: votes[i] == VotedYes(old(windows)[i], windows[i])
      ensures actionsRun == old(actionsRun) + (if IsUnanimous(votes) then 1 else 0)
      ensures done == (IsUnanimous(votes) && !action.throws && !action.rejects)
      ensures forall i | 0 <= i < |windows| ::
                && Told(old(windows)[i], windows[i], done)
                && ToldExactly(old(windows)[i], windows[i], asked[i], told[i], done)
                && windows[i] == Run(old(windows)[i], Course(asked[i], EventsAt(voting, i),
                                       Meanwhile(votes, action, i), done, told[i]))
      ensures letThrough == old(letThrough) + (if IsUnanimous(votes) && approve && CallsBack(action) then 1 else 0)
    {
      hide Run, EventsAt, Told, ToldExactly, VotedYes;
      guardInflight := true;
      done, votes := RunGuardedAction(approve, asked, voting, action, told);
      guardInflight := false;
    }

    /**
     A quit from outside: prevented, but unless a declined one has yet to settle it sets a guarded quit
     going, which lets one through exactly if every window voted yes and the action quits again.
     */
    method Quit(asked: seq<bool>, voting: seq<Happening>, action: Action, told: seq<bool>) returns (allowed: bool)
      requires AtRest() && |asked| == |windows| && |told| == |windows|
      requires PassiveScript(voting) && PassiveScript(action.meanwhile)
      modifies this
      ensures AtRest() && !allowed && |windows| == |old(windows)|
      ensures var votes := Votes(old(windows), windows);
              var done := IsUnanimous(votes) && !action.throws && !action.rejects;
              if old(inflight).Declined? then
                windows == old(windows) && letThrough == old(letThrough) && actionsRun == old(actionsRun)
              else
                && letThrough == old(letThrough) + (if IsUnanimous(votes) && CallsBack(action) then 1 else 0)
                && actionsRun == old(actionsRun) + (if IsUnanimous(votes) then 1 else 0)
                && forall i | 0 <= i < |windows| ::
                     && ToldExactly(old(windows)[i], windows[i], asked[i], told[i], done)
                     && windows[i] == Run(old(windows)[i], Course(asked[i], EventsAt(voting, i),
                                            Meanwhile(votes, action, i), done, told[i]))
    {
      hide Run, EventsAt, Told, ToldExactly, VotedYes;
      var starts;
      allowed, starts := HandleBeforeQuit();
      if starts {
        guardInflight := true;
        var _, votes := RunGuardedAction(true, asked, voting, action, told);
        guardInflight := false;
        inflight := Idle;
        assert votes == Votes(old(windows), windows);
      }
    }
  }

  function Votes(before: seq<State>, after: seq<State>): seq<bool>
    requires |before| == |after|
  {
    seq(|before|, i requires 0 <= i < |before| => VotedYes(before[i], after[i]))
  }

  predicate IsUnanimous(votes: seq<bool>) {
    forall i | 0 <= i < |votes| :: votes[i]
  }

  /** The action quits the application before it returns. */
  predicate CallsBack(action: Action) {
    exists k | 0 <= k < |action.calls| :: action.calls[k].BeforeQuit?
  }

  /** What happens at a window while the action is under way, if it gets that far. */
  function Meanwhile(votes: seq<bool>, action: Action, i: nat): seq<Event> {
    if IsUnanimous(votes) && !action.throws then EventsAt(action.meanwhile, i) else []
  }

  lemma StepAt(w: State, script: seq<Happening>, k: nat, i: nat)
    requires k < |script|
    ensures Run(w, EventsAt(script[..k + 1], i)) == After(Run(w, EventsAt(script[..k], i)), script[k], i)
  {
    hide Apply, EventsAt;
    EventsOfMore(script, k, i);
    if script[k].AtWindow? && script[k].window == i {
      RunAppend(w, EventsAt(script[..k], i), [script[k].event]);
      RunOne(Run(w, EventsAt(script[..k], i)), script[k].event);
    } else {
      assert EventsAt(script[..k], i) + [] == EventsAt(script[..k], i);
    }
  }

  lemma RunNothing(windows: seq<State>)
    ensures forall i | 0 <= i < |windows| :: Run(windows[i], []) == windows[i]
  {
  }

  /** Nothing that happens after the votes changes them. */
  lemma SameVotes(before: seq<State>, answered: seq<State>, last: seq<State>)
    requires |answered| == |before| == |last| && forall i | 0 <= i < |before| :: last[i].answers == answered[i].answers
    ensures forall i | 0 <= i < |before| :: VotedYes(before[i], last[i]) == VotedYes(before[i], answered[i])
  {
  }

  lemma ToldAreIdle(before: seq<State>, windows: seq<State>, commit: bool)
    requires |windows| == |before| && forall i | 0 <= i < |before| :: Told(before[i], windows[i], commit)
    ensures forall i | 0 <= i < |windows| :: Valid(windows[i]) && IsIdle(windows[i])
  {
  }
}
