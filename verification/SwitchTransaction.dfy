/**
 The workspace switch of emain/emain-workspace-switch-transaction.ts, run over the real close
 handshake and over a backend whose failed switch may or may not have taken effect.
 */
module SwitchTransaction {
  import opened Wrappers
  import opened CloseHandshakeModel
  import CloseHandshake

  /** A switch that is refused or throws may have been applied all the same. */
  datatype SwitchReply = Switched | Refused(applied: bool) | SwitchThrew(applied: bool)

  datatype AuthorityReply = Reached | Unreachable

  datatype InitReply = Initialised | NotReady | InitThrew

  /** What happens to the renderers before a finalize call, and whether its send goes through. */
  datatype Delivery = Delivery(gone: nat, current: Option<nat>, sent: bool)

  /** How the outside answers each call the transaction can make. */
  datatype Outside = Outside(
    switchNew: SwitchReply, initNew: InitReply, commit: Delivery,
    authority: AuthorityReply, switchOld: SwitchReply, authorityAfter: AuthorityReply,
    recover: InitReply, conclude: Delivery, abandon: Delivery)

  datatype TransactionResult =
    | Committed(workspaceId: string)
    | RolledBack(workspaceId: string)
    | RecoveredNew(workspaceId: string)
    | Fatal(authority: Option<string>)

  predicate Wins(result: TransactionResult) {
    result.Committed? || result.RecoveredNew?
  }

  function AppliedTo(reply: SwitchReply, workspaceId: string, backend: string): string {
    if reply.Switched? || (reply.Refused? && reply.applied) || (reply.SwitchThrew? && reply.applied)
    then workspaceId else backend
  }

  /** A finalize made now, under this delivery, would reach the prepared renderer. */
  predicate Reaches(handshake: State, delivery: Delivery) {
    delivery.sent && CanDeliver(Changed(handshake, delivery))
  }

  function Changed(handshake: State, delivery: Delivery): State {
    Destroy(handshake, delivery.gone).(currentSender := delivery.current)
  }

  // ---- What the transaction amounts to ----

  /** The commit attempted first goes as far as its finalize call. */
  predicate ReachesCommit(outside: Outside) {
    outside.switchNew.Switched? && outside.initNew.Initialised?
  }

  /** The backend's workspace once rolling back has been tried. */
  function BackendAfter(outside: Outside, backend: string, old': string, new': string): string {
    var first := AppliedTo(outside.switchNew, new', backend);
    if outside.authority.Reached? && first != "" && first == new'
    then AppliedTo(outside.switchOld, old', first) else first
  }

  /** The preparation is still there and the concluding finalize reaches its renderer. */
  predicate Concludes(outside: Outside, handshake: State) {
    && !ReachesCommit(outside)
    && outside.authorityAfter.Reached?
    && outside.recover.Initialised?
    && Reaches(handshake, outside.conclude)
  }

  /** No finalize was tried before the transaction gave up, and the last one gets through. */
  predicate Abandons(outside: Outside, handshake: State, after: string, old': string, new': string) {
    && !ReachesCommit(outside)
    && !(outside.authorityAfter.Reached? && after != "" && (after == old' || after == new')
         && outside.recover.Initialised?)
    && Reaches(handshake, outside.abandon)
  }

  class WindowSession {
    const handshake: CloseHandshake.WorkspaceCloseHandshake
    var backend: string
    var lastInitialised: Option<string>
    var oldViewCommits: nat
    var fatals: seq<Option<string>>

    constructor (handshake: CloseHandshake.WorkspaceCloseHandshake, backend: string)
      ensures this.handshake == handshake && this.backend == backend
      ensures lastInitialised.None? && oldViewCommits == 0 && fatals == []
    {
      this.handshake, this.backend := handshake, backend;
      lastInitialised, oldViewCommits, fatals := None, 0, [];
    }

    /** False stands for a refusal as well as for an exception: the source treats both alike. */
    method SwitchBackend(workspaceId: string, reply: SwitchReply) returns (ok: bool)
      modifies this`backend
      ensures ok == reply.Switched? && backend == AppliedTo(reply, workspaceId, old(backend))
    {
      backend := AppliedTo(reply, workspaceId, backend);
      return reply.Switched?;
    }

    /** `authoritativeWorkspaceId`: an empty answer counts as an exception. */
    method AuthoritativeWorkspaceId(reply: AuthorityReply) returns (workspaceId: Option<string>)
      ensures workspaceId == if reply.Reached? && backend != "" then Some(backend) else None
    {
      if reply.Unreachable? || backend == "" {
        return None;
      }
      return Some(backend);
    }

    method Initialize(workspaceId: string, reply: InitReply) returns (ok: bool)
      modifies this`lastInitialised
      ensures ok == reply.Initialised?
      ensures lastInitialised == if ok then Some(workspaceId) else old(lastInitialised)
    {
      ok := reply.Initialised?;
      if ok {
        lastInitialised := Some(workspaceId);
      }
    }

    method FinalizePreparedClose(commit: bool, delivery: Delivery) returns (delivered: bool)
      requires handshake.Valid()
      modifies handshake
      ensures handshake.Valid()
      ensures (handshake.Snapshot(), delivered)
              == Finalize(Changed(old(handshake.Snapshot()), delivery), commit, delivery.sent)
    {
      handshake.Environment(delivery.gone, delivery.current);
      delivered := handshake.Finalize(commit, delivery.sent);
    }

    /** The body of the outer `try`: true when nothing in it threw. */
    method TryCommit(new': string, outside: Outside) returns (committed: bool)
      requires handshake.Valid() && handshake.pending.None?
      modifies this, handshake
      ensures handshake.Valid() && handshake.pending.None?
      ensures backend == AppliedTo(outside.switchNew, new', old(backend))
      ensures committed == (ReachesCommit(outside) && Reaches(old(handshake.Snapshot()), outside.commit))
      ensures committed ==> lastInitialised == Some(new')
      ensures oldViewCommits == old(oldViewCommits) + (if committed then 1 else 0)
      ensures fatals == old(fatals)
      ensures if ReachesCommit(outside)
              then (handshake.Snapshot(), committed)
                   == Finalize(Changed(old(handshake.Snapshot()), outside.commit), true, outside.commit.sent)
              else handshake.Snapshot() == old(handshake.Snapshot())
    {
      var switched := SwitchBackend(new', outside.switchNew);
      if !switched {
        return false;
      }
      var initialised := Initialize(new', outside.initNew);
      if !initialised {
        return false;
      }
      var delivered := FinalizePreparedClose(true, outside.commit);
      if !delivered {
        return false;
      }
      oldViewCommits := oldViewCommits + 1;
      return true;
    }

    /** Switching back, when the backend says it is on the new workspace; failures are kept for later. */
    method TryRollBack(old': string, new': string, outside: Outside)
      modifies this`backend
      ensures backend == (if outside.authority.Reached? && old(backend) != "" && old(backend) == new'
                          then AppliedTo(outside.switchOld, old', old(backend)) else old(backend))
    {
      var authority := AuthoritativeWorkspaceId(outside.authority);
      if authority == Some(new') {
        var _ := SwitchBackend(old', outside.switchOld);
      }
    }

    method EnterFatal(authority: Option<string>, outside: Outside) returns (result: TransactionResult)
      requires handshake.Valid() && handshake.pending.None?
      modifies this`fatals, handshake
      ensures handshake.Valid() && handshake.pending.None? && handshake.prepared.None?
      ensures result == Fatal(authority) && fatals == old(fatals) + [authority]
      ensures exists delivered :: (handshake.Snapshot(), delivered)
                == Finalize(Changed(old(handshake.Snapshot()), outside.abandon), false, outside.abandon.sent)
    {
      var _ := FinalizePreparedClose(false, outside.abandon);
      fatals := fatals + [authority];
      return Fatal(authority);
    }

    /** Initialising the workspace the backend is on and telling the renderer how its close ended. */
    method TryConclude(workspaceId: string, commit: bool, outside: Outside) returns (concluded: bool)
      requires handshake.Valid() && handshake.pending.None?
      modifies this`lastInitialised, handshake
      ensures handshake.Valid() && handshake.pending.None?
      ensures concluded == (outside.recover.Initialised? && Reaches(old(handshake.Snapshot()), outside.conclude))
      ensures concluded ==> lastInitialised == Some(workspaceId)
      ensures if outside.recover.Initialised?
              then (handshake.Snapshot(), concluded)
                   == Finalize(Changed(old(handshake.Snapshot()), outside.conclude), commit, outside.conclude.sent)
              else handshake.Snapshot() == old(handshake.Snapshot())
    {
      var initialised := Initialize(workspaceId, outside.recover);
      if !initialised {
        return false;
      }
      concluded := FinalizePreparedClose(commit, outside.conclude);
    }

    /** What follows once the backend has named its workspace: conclude there, or give up. */
    method Settle(authority: string, old': string, new': string, outside: Outside) returns (result: TransactionResult)
      requires handshake.Valid() && handshake.pending.None?
      modifies this`lastInitialised, this`oldViewCommits, this`fatals, handshake
      ensures handshake.Valid() && handshake.pending.None? && handshake.prepared.None?
      ensures var concludes := outside.recover.Initialised? && Reaches(old(handshake.Snapshot()), outside.conclude);
              && (result.RolledBack? <==> authority == old' && concludes)
              && (result.RecoveredNew? <==> authority == new' && authority != old' && concludes)
              && !result.Committed?
      ensures !result.Fatal? ==> result.workspaceId == authority && lastInitialised == Some(authority)
      ensures result.Fatal? ==> result.authority == Some(authority)
      ensures oldViewCommits == old(oldViewCommits) + (if Wins(result) then 1 else 0)
      ensures fatals == old(fatals) + (if result.Fatal? then [result.authority] else [])
      ensures Told(old(handshake.Snapshot()), handshake.Snapshot(), result)
      ensures result.Fatal? ==>
                (handshake.mailbox != old(handshake.mailbox) <==>
                  && !((authority == old' || authority == new') && outside.recover.Initialised?)
                  && Reaches(old(handshake.Snapshot()), outside.abandon))
    {
      hide CloseHandshakeModel.Valid;
      if authority == old' {
        var concluded := TryConclude(old', false, outside);
        if concluded {
          return RolledBack(old');
        }
      } else if authority == new' {
        var concluded := TryConclude(new', true, outside);
        if concluded {
          oldViewCommits := oldViewCommits + 1;
          return RecoveredNew(new');
        }
      }
      result := EnterFatal(Some(authority), outside);
    }

    /**
     Started after a close request was allowed. The clauses say, in order: the handshake is used up;
     every result that is not fatal agrees with the backend and with the renderer; the old view is
     given up exactly when the new workspace wins; the fatal state is entered exactly when the result
     is fatal; the renderer hears "commit" exactly when the new workspace wins, hears the opposite
     exactly once when it does not, and when the result is fatal exactly if nothing was told before and
     the renderer can be reached; a commit that was
     tried and did not get through is fatal; and exactly when each result comes about.
     */
    method RunWorkspaceSwitchTransaction(old': string, new': string, outside: Outside)
      returns (result: TransactionResult)
      requires handshake.Valid() && handshake.pending.None?
      modifies this, handshake
      ensures handshake.Valid() && handshake.pending.None? && handshake.prepared.None?
      ensures !result.Fatal? ==> backend == result.workspaceId && lastInitialised == Some(result.workspaceId)
      ensures Wins(result) ==> result.workspaceId == new'
      ensures result.RolledBack? ==> result.workspaceId == old'
      ensures oldViewCommits == old(oldViewCommits) + (if Wins(result) then 1 else 0)
      ensures fatals == old(fatals) + (if result.Fatal? then [result.authority] else [])
      ensures result.Fatal? && result.authority.Some? ==> result.authority == Some(backend)
      ensures Told(old(handshake.Snapshot()), handshake.Snapshot(), result)
      ensures !result.Committed? ==> backend == BackendAfter(outside, old(backend), old', new')
      ensures result.Fatal? ==>
                && result.authority ==
                    (if outside.authorityAfter.Reached? && backend != "" then Some(backend) else None)
                && (handshake.mailbox != old(handshake.mailbox) <==>
                      Abandons(outside, old(handshake.Snapshot()), backend, old', new'))
      ensures ReachesCommit(outside) && !Reaches(old(handshake.Snapshot()), outside.commit) ==> result.Fatal?
      ensures result.Committed? <==> ReachesCommit(outside) && Reaches(old(handshake.Snapshot()), outside.commit)
      ensures var after := BackendAfter(outside, old(backend), old', new');
              result.RolledBack? <==>
                Concludes(outside, old(handshake.Snapshot())) && after != "" && after == old'
      ensures var after := BackendAfter(outside, old(backend), old', new');
              result.RecoveredNew? <==>
                Concludes(outside, old(handshake.Snapshot())) && after != "" && after == new' && after != old'
    {
      hide CloseHandshakeModel.Valid;
      var committed := TryCommit(new', outside);
      if committed {
        return Committed(new');
      }
      TryRollBack(old', new', outside);
      var authority := AuthoritativeWorkspaceId(outside.authorityAfter);
      if authority.None? {
        result := EnterFatal(None, outside);
        return;
      }
      result := Settle(authority.value, old', new', outside);
    }
  }

  /**
   What the renderer was told in between: one finalize for the prepared request, committing exactly
   when the new workspace won; or, if the result is fatal, at most one, and that a rollback.
   */
  predicate Told(before: State, after: State, result: TransactionResult) {
    if result.Fatal? then
      || after.mailbox == before.mailbox
      || (before.prepared.Some? && after.mailbox == before.mailbox +
            [Finalized(before.prepared.value.senderId, before.prepared.value.requestId, false)])
    else
      before.prepared.Some? && after.mailbox == before.mailbox +
        [Finalized(before.prepared.value.senderId, before.prepared.value.requestId, Wins(result))]
  }
}
