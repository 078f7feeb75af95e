# Verified models of the Crest desktop main process

This project models the parts of the Crest desktop application where several things happen at once or
where an exact answer matters, and proves what they guarantee. `dafny verify dfyconfig.toml` checks it.

Most parts come in two layers. A `...Model` module gives the state as one value, each uninterrupted
stretch of code (from one await to the next) as a function on it, and every way the outside world can
interleave as an event; its lemmas speak about all runs. Beside it a class keeps the fields of the
source and each of its methods is proved to do exactly what the model's function says, so what holds of
every run of the model holds of the code's steps.

## What is modelled

**Terminal surface controller** (`Surface*.dfy`, `TerminalSurfaceController.dfy`). Overlapping
`request` calls share view creations and initialisations, and each must find out after every await
whether it still matters. Promise reactions are jobs in one first-in first-out queue; all other code of
the process may run between two jobs. The reactions that `then`, `finally` and `await` add are counted
out, because the one extra `await Promise.resolve()` of a stale request is right only through that order.
Assumptions: `createView` makes a fresh view each time, of the tab it is asked for; views leave the
registry only through the controller's `disposeView`; the identity's generation strictly grows;
workspace and tab ids contain no colon, so that a creation key stands for its three parts;
`initializeView` returns a promise and the other dependencies do not throw. What a request may count on
fails in one way: its view can be *taken* by another attempt at initialising the same view, which
fails over the renderer kind and disposes of it while the request awaits its own attempt. The model
keeps a record of that for the latest request (`Track.taken`), which the next accepted request clears.
A view is shown while registered and alive if and only if it was not taken, and what is on screen
beyond the taken views is stated for every run. `SurfaceRivals` says exactly when a view that was
disposed of can still come to be shown: another attempt must still be awaited, must have failed over the
kind or be able to, and, if the request's own attempt has settled, must come before it in the queue. A
request that awaits no initialisation yet cannot come to show such a view at all. `SurfaceCache` steps
outside the first assumption and gives the run that then goes wrong. `SurfaceOutcomes` says what an
arriving surface sets going and what the request gets when its promises have settled, and
`SurfaceProgress` that every accepted request for a terminal is answered in the end.

**Closing, switching and quitting** (`CloseHandshake.dfy`, `SwitchTransaction.dfy`,
`QuitCoordinator.dfy`). The close handshake is a one-shot vote that is used up by `finalize` even when
the message does not get through. The switch transaction and the quit coordinator are run over the real
handshake, not over an abstract vote. A refused or throwing backend switch may have taken effect or not.
Assumptions: during a run nobody else uses the handshake or changes the backend; `commitOldView` does
not throw; a window's finalize is the handshake's, which returns and does not throw.

**Agent subscriptions** (`SubscriptionModel.dfy`, `SubscriptionTheorems.dfy`, `AgentSubscriptions.dfy`).
Three coupled tables (active, pending, by sender) and the references the runtime registry holds, under
subscribing, attaching, suspending, committing, restoring, stale release and the death of senders at any
await. Assumptions: equal keys have equal fields; `acquire` succeeds for a live runtime; a runtime with
references is not stopped; a passed guard still holds when the code behind it runs.

**Send ingress** (`SendIngress.dfy`). The promise chain that makes sends for one key take turns, with map
entries that remove themselves.

**Sequential cores.** The delayed delivery pipe (`DeliveryPipe.dfy`), the trace coalescer
(`TraceCoalescer.dfy`), the session branch walk and its export (`SessionBranch.dfy`), the escapers and
the startup-replay guard (`Escapes.dfy`), the lock-protected catalog cache (`CatalogStore.dfy`), the
history of hosted commands (`PtyHost.dfy`) and window placement (`WindowPlacement.dfy`).

## Findings

- A view that was disposed of can be shown, and then stays on screen through a reset
  (`SurfaceRace.DisposedViewCanBeShown`); the next request for another tab leaves two views on screen
  (`SurfaceRace.TwoViewsOnScreen`). The exact condition is `SurfaceRivals.DisposedCanBeShownExactlyWhen`.
- If `createView` gives out a view it still has cached, as `getOrCreateWebViewForTab` may, a stale
  creation disposes of the view that the desired request has claimed, and that request shows it
  (`SurfaceCache.CachedViewCanBeShown`).
- A sender that dies while a restore authorizes it again keeps a pending subscription that no
  "destroyed" listener will release, only a later attach, commit, restore or release; no other step
  leaves one behind (`SubscriptionTheorems.OrphansComeFromRestore`, `SubscriptionTheorems.RestoreOneOrphans`).
- Bounding how long a catalog lock is held by `LockStaleMs` is not enough: a waiter that looked at a lock
  file just before it was replaced removes the new one. The lock is safe exactly if the holding time and
  the time from looking to deciding stay within `LockStaleMs` together
  (`CatalogStoreModel.LockBreaksExactlyWhen`).
- A startup command that itself begins with ^A is not recognized when it is given again, in any mode:
  the leading ^A are taken off the input but not off the command (`PtyWrite.StartupCommandIsIgnored`).
- Twice the skew is the exact bound on reordering in the delivery pipe
  (`DeliveryPipeModel.NeverFarOutOfOrder`, `DeliveryPipeModel.CloserMayOvertake`).

## Model

| member | source | states |
|---|---|---|
| SurfaceTheorems.CreationsResolved | emain/emain-terminal-surface.ts:106-153 | in every run, however many requests shared it, a created view is claimed and registered exactly once or given up and disposed of exactly once, never both, and once the microtask queue is empty one of the two has happened |
| SurfaceTheorems.NeverOverwritten | emain/emain-terminal-surface.ts:118-149 | a registered view is registered once and stays its tab's view until it is disposed of |
| SurfaceTheorems.ShownForDesired | emain/emain-terminal-surface.ts:155-225 | a shown view belongs to the latest accepted request under the current identity, is of terminal kind and ready; it is registered, and never disposed of, if and only if it was not taken from its request by another attempt at initialising it, and then it was initialised by an entry that was current |
| SurfaceTheorems.ReadyWasShown | emain/emain-terminal-surface.ts:212-224 | "ready" is announced only for a request that has put a view on screen |
| SurfaceTheorems.StatusesInOrder | emain/emain-terminal-surface.ts:79-225 | between resets, announced revisions never decrease and each gets at most one of ready, error and idle |
| SurfaceTheorems.OneViewVisible | emain/emain-terminal-surface.ts:207-225 | in every reachable state the views on screen are all that were shown after they had been taken and at most one other, which is registered |
| SurfaceTheorems.NothingVisible | emain/emain-terminal-surface.ts:91-96 | after a non-terminal surface, a reset or a destruction exactly the views that were shown after they had been taken are on screen, so none if and only if there are none |
| SurfaceTheorems.WithdrawnHides | emain/emain-terminal-surface.ts:227-240 | in every good state, whatever is suspended, `reset` and `destroy` leave exactly those views on screen |
| SurfaceTheorems.NoSizeHidesAll | emain/emain-terminal-surface.ts:207-211 | a surface without size ends with exactly those views on screen; it announces nothing |
| SurfaceTheorems.StaleTakesViewExactlyWhen | emain/emain-terminal-surface.ts:183-197 | a stale continuation disposes of the desired request's registered view if and only if it awaited an initialisation of that view under the desired request's key that failed over the renderer kind |
| SurfaceProgress.RequestIsAnswered | emain/emain-terminal-surface.ts:79-225 | in every run, once the promises an accepted request for a terminal waits for have settled and no microtask is left, whatever else settled and ran meanwhile, it has been announced as loading exactly if its view was missing or not ready, and then exactly once as ready, with a view shown for it, or exactly once as failed; only a surface without size ends without an answer |
| SurfaceProgress.AwaitedInitialisationIsAnswered | emain/emain-terminal-surface.ts:182-225 | a request that awaits an initialisation ends, once that has settled and the queue is empty, with that view on screen and ready, or with one error if the attempt failed or the view is of the wrong kind |
| SurfaceProgress.AwaitedCreationIsAnswered | emain/emain-terminal-surface.ts:106-225 | a request that awaits a creation ends with one error if that failed and otherwise as the initialisation of the created view does |
| SurfaceOutcomes.RequestStarts | emain/emain-terminal-surface.ts:79-182 | exactly what an arriving surface sets going: refused, idle, shown at once, joined to the attempt or the creation of its own key, or the start of a new one, with the statuses announced |
| SurfaceOutcomes.ResumedRequestClaims | emain/emain-terminal-surface.ts:110-182 | the microtask that resumes the desired request after its creation claims and registers the created view and leaves the request awaiting an initialisation of that view; if the creation failed it ends with an error |
| SurfaceOutcomes.ResumedRequestEnds | emain/emain-terminal-surface.ts:182-225 | the microtask that resumes the desired request after its initialisation shows the view and announces it, reports the error, or hides everything for a surface without size |
| SurfaceOutcomes.StaleLetsGo | emain/emain-terminal-surface.ts:183-201 | a stale request whose attempt has ended disposes of the view exactly if no current attempt and no desired tab needs it, or it was of the wrong kind and the desired request works on it under the same key |
| SurfaceOutcomes.CreatorComesFourJobsLater | emain/emain-terminal-surface.ts:126-137 | a creator runs again exactly four jobs after its promise has settled, the sharers having been queued with the first of them |
| SurfaceOutcomes.StaleSharerYields | emain/emain-terminal-surface.ts:112-116 | a stale sharer yields once, changing nothing, before it gives a created view up |
| SurfaceOutcomes.YieldedGivesUp | emain/emain-terminal-surface.ts:277-282 | after the yield an unclaimed view is disposed of and a claimed one is left alone |
| SurfaceOutcomes.WithdrawalForgets | emain/emain-terminal-surface.ts:227-257 | after a reset any positive revision of the current identity is accepted again, after a destruction nothing is |
| SurfaceRace.DisposedViewCanBeShown | emain/emain-terminal-surface.ts:159-225 | a concrete run in which a disposed view is shown and stays on screen through a reset or a destruction |
| SurfaceRace.TwoViewsOnScreen | emain/emain-terminal-surface.ts:207-225 | the same run goes on to have two views on screen |
| SurfaceCache.CachedViewCanBeShown | emain/emain-tabview.ts:314-318 | a concrete run in which two creations get the same cached view, the stale one disposes of it and the desired request, with the only attempt at it, shows it |
| SurfaceRivals.DisposedCanBeShownExactlyWhen | emain/emain-terminal-surface.ts:155-225 | while the request the controller works for, whose surface has a size, awaits an initialisation, events without a new request can lead to a disposed view being shown if and only if its attempt has not failed and the view was taken already or another attempt at it under the same key is still awaited, has failed over the kind or may, and runs again before it |
| SurfaceRivals.DisposedCanBeShownWhileRunning | emain/emain-terminal-surface.ts:155-225 | as long as the request's own attempt runs, that order does not matter |
| SurfaceRivals.NotThreatenedBefore | emain/emain-terminal-surface.ts:106-182 | in every other good state, a request that still awaits a creation included, no events without a new request lead there |
| SurfaceRivals.OnlyRivalsTake | emain/emain-terminal-surface.ts:183-197 | a stale continuation takes the view from the request if and only if its attempt is such a rival |
| SurfaceRivals.StepKeepsThreat | emain/emain-terminal-surface.ts:106-225 | no microtask but the request's own continuation ends or makes such a threat |
| TerminalSurface.TerminalSurfaceController.RequestSurface | emain/emain-terminal-surface.ts:79-105 | the synchronous part of a request keeps the invariant and is the model's |
| TerminalSurface.TerminalSurfaceController.RequestCreation | emain/emain-terminal-surface.ts:106-153 | joining, starting or failing a creation changes exactly what the model says |
| TerminalSurface.TerminalSurfaceController.ResumeSharer | emain/emain-terminal-surface.ts:110-123 | the continuation of a request that shared a creation |
| TerminalSurface.TerminalSurfaceController.ResumeCreator | emain/emain-terminal-surface.ts:133-149 | the continuation of the request that started a creation |
| TerminalSurface.TerminalSurfaceController.Prepare | emain/emain-terminal-surface.ts:155-182 | the way from a found view to the await of its initialisation |
| TerminalSurface.TerminalSurfaceController.ResumeAfterInit | emain/emain-terminal-surface.ts:183-197 | the continuation after an initialisation, with its failure branches |
| TerminalSurface.TerminalSurfaceController.Present | emain/emain-terminal-surface.ts:198-225 | releasing, rejecting, hiding or showing at the end of a request |
| TerminalSurface.TerminalSurfaceController.IsViewOwnedByCurrentWork | emain/emain-terminal-surface.ts:300-315 | the search over the entries answers whether some current entry or the desired request owns the view |
| TerminalSurface.TerminalSurfaceController.DisposeView | emain/emain-terminal-surface.ts:284-291 | disposing of a view twice is disposing of it once, and frees its tab only if the tab still maps to it |
| TerminalSurface.TerminalSurfaceController.RunMicrotask | emain/emain-terminal-surface.ts:106-225 | running the oldest job keeps the invariant and is the model's step |
| TerminalSurface.TerminalSurfaceController.Reset | emain/emain-terminal-surface.ts:234-240 | forgets the desired request and all entries and leaves only the views on screen that were shown after they had been taken |
| TerminalSurface.TerminalSurfaceController.Destroy | emain/emain-terminal-surface.ts:227-232 | the same for good |
| CloseHandshakeModel.FinalizedAtMostOnce | emain/emain-workspace-close-handshake.ts:36-119 | in every run a renderer gets at most one finalize per request id, only after this renderer was asked and allowed it |
| CloseHandshakeModel.AllowedExactlyWhen | emain/emain-workspace-close-handshake.ts:80-101 | a request resolves to true in exactly one way: the renderer that was asked, still current, answers it with true |
| CloseHandshakeModel.EndsExactlyWhen | emain/emain-workspace-close-handshake.ts:47-101 | a pending request ends exactly with its timeout, the death of its renderer, nonsense from the current renderer, or any answer to it; then nothing is pending, and the renderer is prepared exactly if the answer was an allowing one from the asked, current renderer |
| CloseHandshakeModel.AsksExactlyWhen | emain/emain-workspace-close-handshake.ts:36-78 | the renderer is asked exactly if no vote is open or unfinalized and it is alive; an undelivered question is answered with false |
| CloseHandshakeModel.DeliversExactlyWhen | emain/emain-workspace-close-handshake.ts:103-119 | a finalize is delivered exactly if the renderer allowed it, is alive and current and the message gets through |
| CloseHandshakeModel.VoteIsFinalized | emain/emain-workspace-close-handshake.ts:36-119 | an asked, allowing and finalized renderer has got exactly the question and the outcome, and can be asked again |
| CloseHandshakeModel.AnswersStand | emain/emain-workspace-close-handshake.ts:47-62 | an answer never changes, whatever comes later |
| CloseHandshake.WorkspaceCloseHandshake.Request | emain/emain-workspace-close-handshake.ts:36-78 | refuses while a vote is open or used, otherwise opens one; keeps the invariant |
| CloseHandshake.WorkspaceCloseHandshake.Respond | emain/emain-workspace-close-handshake.ts:80-101 | malformed, foreign and late answers end or do not end the vote as the model says |
| CloseHandshake.WorkspaceCloseHandshake.Finalize | emain/emain-workspace-close-handshake.ts:103-119 | uses the preparation up and delivers only to its own, still current renderer |
| SwitchTransaction.WindowSession.RunWorkspaceSwitchTransaction | emain/emain-workspace-switch-transaction.ts:29-116 | exactly which outcome comes about; every outcome but fatal agrees with the backend and the last initialised renderer; the renderer is told commit exactly when the new workspace wins and is told at most once; the old view is given up once or never; the fatal state is entered exactly when the result is fatal; an undelivered commit is fatal; a fatal result tells the renderer to roll back exactly if nothing was told before and it can be reached |
| SwitchTransaction.WindowSession.TryCommit | emain/emain-workspace-switch-transaction.ts:32-43 | when the first attempt commits, and what it leaves of backend, renderer and handshake when it does not |
| SwitchTransaction.WindowSession.TryRollBack | emain/emain-workspace-switch-transaction.ts:46-54 | the backend after a rollback that may itself fail with unknown effect |
| SwitchTransaction.WindowSession.Settle | emain/emain-workspace-switch-transaction.ts:69-114 | rolled back, recovered or fatal by what the backend names, with one finalize at most |
| QuitCoordinator.EMainQuitCoordinator.RunGuardedAction | emain/emain-quit-coordinator.ts:77-107 | over any windows the action runs exactly if all voted yes, and the run returns true exactly if it then succeeded; a window gets exactly one finalize if it voted yes, its renderer is alive and still current and the message gets through, commit exactly if the run returns true, and none otherwise; no window stays pending or prepared; a quit passes exactly if the approved action calls back, once; each window goes through exactly these handshake steps |
| QuitCoordinator.EMainQuitCoordinator.GuardedRun | emain/emain-quit-coordinator.ts:63-75 | the same for a whole guarded action, during which no second one starts |
| QuitCoordinator.EMainQuitCoordinator.Quit | emain/emain-quit-coordinator.ts:44-61 | a quit from outside is prevented and, unless a declined one has yet to settle, starts a guarded run that lets one quit through exactly if all windows voted yes and the action quits again |
| QuitCoordinator.EMainQuitCoordinator.HandleBeforeQuit | emain/emain-quit-coordinator.ts:44-57 | lets a quit through exactly while it is approved, and uses the approval up |
| QuitCoordinator.FinalizeTells | emain/emain-workspace-close-handshake.ts:103-119 | a finalize after the votes leaves a window idle, with exactly the question and, if it can be reached, one finalize in its mailbox |
| SubscriptionTheorems.ReferencesAreActive | emain/agent-ipc.ts:1346-1378 | in every run the registry references are exactly the paths of the active subscriptions, every key is indexed under its own sender, and no active one has a destroyed sender or a dead runtime |
| SubscriptionTheorems.ReleaseAllLeavesNothing | emain/agent-ipc.ts:1369-1378 | releasing a sender leaves nothing active, pending or referenced for it and touches nobody else |
| SubscriptionTheorems.UnsubscribeLeavesNothing | emain/agent-ipc.ts:2938-2958 | an unsubscribed key is in no table and not in the index, and nobody else loses anything |
| SubscriptionTheorems.StaleReleasedExactly | emain/agent-ipc.ts:1483-1506 | a renderer loses exactly its subscriptions of another workspace or generation |
| SubscriptionTheorems.AskedForWaits | emain/agent-ipc.ts:2861-2871 | a subscription that is asked for waits, indexed under its armed sender, unless the sender is gone; no other table changes |
| SubscriptionTheorems.OrphansComeFromRestore | emain/agent-ipc.ts:1416-1432 | a step leaves a pending subscription of a destroyed sender if and only if it is a restore's step for a sender that is already destroyed |
| SubscriptionTheorems.DestroyedLoseAll | emain/agent-ipc.ts:1508-1516 | a sender that dies loses everything through its listener, and only it does |
| SubscriptionTheorems.SuspendLosesNothing | emain/agent-ipc.ts:1380-1408 | suspending a path leaves nothing active on it, loses no subscription and touches no other path |
| SubscriptionTheorems.SuspendCommitRemoves | emain/agent-ipc.ts:1380-1414 | suspend and commit remove exactly the path's subscriptions, from all tables |
| SubscriptionTheorems.RestoreOneExact | emain/agent-ipc.ts:1416-1468 | exactly when a suspended intent ends active, pending or released, for every combination of failing checks, dying senders and releases during the awaits, whatever other subscriptions, paths and runtimes do meanwhile |
| SubscriptionTheorems.RestoreOneOrphans | emain/agent-ipc.ts:1421-1432 | exactly when a turn of the restore leaves a subscription waiting for a sender that is gone: the sender died while it was authorized again, that passed, no runtime is live, and under a lease nobody released it since |
| SubscriptionTheorems.RestoreOneTurn | emain/agent-ipc.ts:1416-1468 | every turn of a restore is a run of the single steps, with what happens at its awaits in between |
| SubscriptionTheorems.RestoreSettles | emain/agent-ipc.ts:1416-1468 | after a restore each intent is in exactly one of the three, whatever senders, subscriptions and runtimes do during its awaits short of making it wait anew; one that waits beside a live runtime waits for one that has started meanwhile; and nobody else gained anything but by what happened meanwhile |
| SubscriptionTheorems.RestoreExact | emain/agent-ipc.ts:1416-1468 | the exact verdict on each intent after the whole restore, if only its own turn happens to it |
| SubscriptionTheorems.SuspendRestore | emain/agent-ipc.ts:1380-1468 | with all senders alive, all checks passing and a live runtime, suspend and restore give back the same tables, with the keys that waited on the path now active |
| SubscriptionTheorems.SuspendRestoreIsIdentity | emain/agent-ipc.ts:1380-1468 | it is the identity on active subscriptions and references if and only if nothing else waited on the path |
| SubscriptionTheorems.SubscribeToOwnerExact | emain/agent-ipc.ts:1726-1742 | when subscribing makes a key active, and that a failing one leaves nothing behind |
| SubscriptionTheorems.SubscribeAfterValidationExact | emain/agent-ipc.ts:1769-1844 | the same for the part behind the guard |
| SubscriptionTheorems.AttachOneExact | emain/agent-ipc.ts:1846-1866 | what becomes of one waiting subscription when its session starts |
| SubscriptionTheorems.AttachExact | emain/agent-ipc.ts:1846-1866 | the exact verdict on each waiting subscription after the whole loop, if only its own turn happens to it |
| SubscriptionTheorems.AttachAddsExactly | emain/agent-ipc.ts:1846-1866 | with every check passing the loop activates exactly the waiting subscriptions on the live runtime, and the registry gains exactly their references |
| SubscriptionTheorems.AttachLeavesNothingWaiting | emain/agent-ipc.ts:1846-1866 | after the loop none of the subscriptions it found is still waiting, whatever happened during the awaits short of making it wait anew, and nobody else gained anything by the loop |
| AgentSubscriptions.AgentSubscriptions.ReleaseSubscription | emain/agent-ipc.ts:1346-1367 | one release takes a key out of every table and its reference, and keeps the invariant |
| AgentSubscriptions.AgentSubscriptions.ReleaseAllForSender | emain/agent-ipc.ts:1369-1378 | both loops together release exactly the sender's keys |
| AgentSubscriptions.AgentSubscriptions.SuspendSubscriptionsForPath | emain/agent-ipc.ts:1380-1408 | both loops: the moved tables and the gathered intents |
| AgentSubscriptions.AgentSubscriptions.CommitSuspendedSubscriptions | emain/agent-ipc.ts:1410-1414 | releases all intents |
| AgentSubscriptions.AgentSubscriptions.RestoreSuspendedSubscriptions | emain/agent-ipc.ts:1416-1468 | the loop, with senders dying at any of its awaits, is the model's restore |
| AgentSubscriptions.AgentSubscriptions.ReleaseStaleSubscriptionsForSender | emain/agent-ipc.ts:1483-1506 | releases exactly the sender's keys of another workspace or generation |
| AgentSubscriptions.AgentSubscriptions.TrackSenderKey | emain/agent-ipc.ts:1508-1516 | indexes the key and arms a listener for a sender seen for the first time |
| AgentSubscriptions.AgentSubscriptions.SubscribeToOwner | emain/agent-ipc.ts:1726-1742 | is the model's, with the tables in order at every await |
| AgentSubscriptions.AgentSubscriptions.SubscribeToOwnerAfterValidation | emain/agent-ipc.ts:1769-1844 | is the model's, with the tables in order at every await |
| AgentSubscriptions.AgentSubscriptions.AttachPendingSubscribers | emain/agent-ipc.ts:1846-1866 | the loop is the model's |
| AgentSubscriptions.AgentSubscriptions.AddPending | emain/agent-ipc.ts:2861-2871 | a subscription without a runtime waits, unless its sender is gone |
| AgentSubscriptions.AgentSubscriptions.Unsubscribe | emain/agent-ipc.ts:2938-2958 | releases the key and drops a leftover index entry |
| SendIngressModel.OneAtATimeInOrder | emain/agent-ipc.ts:402-424 | while a send of a key runs, all reserved before it are done, failed ones included, and all after it wait |
| SendIngressModel.EntryExactlyWhileUnfinished | emain/agent-ipc.ts:408-422 | the map has an entry for a key exactly while a send reserved since the last clear is unfinished |
| SendIngressModel.AheadOnlyShrinks | emain/agent-ipc.ts:402-424 | the number of unfinished earlier sends never grows and shrinks exactly when one of them finishes |
| SendIngressModel.TurnExactlyAtZero | emain/agent-ipc.ts:402-424 | a waiting send can get its turn before any other operation ends if and only if nobody is ahead, and then by the resolution of earlier tails and its own start alone |
| SendIngressModel.NobodyIsStuck | emain/agent-ipc.ts:402-424 | every waiting send is reached by events of its own chain alone |
| SendIngressModel.TurnComes | emain/agent-ipc.ts:416-417 | once the awaited tail has resolved, everything reserved before is done |
| SendIngressModel.ReserveJoinsItsChain | emain/agent-ipc.ts:408-414 | a new send waits for the newest unfinished send of its key since the last clear, and for nobody if there is none |
| SendIngressModel.ClearForgets | emain/agent-ipc.ts:4547 | after a clear the next send of any key can start at once |
| SendIngressModel.FinishFreesItsKey | emain/agent-ipc.ts:418-422 | a send that ends is done, well or badly, and removes the entry of its key only if that is its own |
| SendIngress.SendIngressQueue.Reserve | emain/agent-ipc.ts:402-415 | takes the next place at once |
| SendIngress.SendIngressQueue.Begin | emain/agent-ipc.ts:416-419 | an operation starts with all earlier ones done |
| SendIngress.SendIngressQueue.Finish | emain/agent-ipc.ts:420-423 | releases the next one and removes the entry only if it is still its own |
| DeliveryPipeModel.PipeConserves | cmd/test-streammanager/deliverypipe.go:80-182 | in every run enqueued equals delivered, skipped, in flight and pending together, queues are sorted, nothing is delivered early, and `currentBytes` is the sum over data packets not accounted for |
| DeliveryPipeModel.NeverFarOutOfOrder | cmd/test-streammanager/deliverypipe.go:132-153 | packets of a lane enqueued at least twice the skew apart are delivered in order |
| DeliveryPipeModel.WithoutSkewInOrder | cmd/test-streammanager/deliverypipe.go:132-153 | without skew a lane is first in, first out |
| DeliveryPipeModel.CloserMayOvertake | cmd/test-streammanager/deliverypipe.go:132-153 | for every smaller distance there is a run that delivers them the other way round |
| DeliveryPipeModel.ReadyCountExact | cmd/test-streammanager/deliverypipe.go:218-225 | the counted prefix of a sorted queue is exactly what is due |
| DeliveryPipeModel.SortedIsUnique | cmd/test-streammanager/deliverypipe.go:145-153 | sorting by time and number has one possible result |
| DeliveryPipeModel.EnqueuesExactly | cmd/test-streammanager/deliverypipe.go:80-153 | enqueueing adds to its own lane one packet with the next number, due within the skew around the delay, in its place, and counts its bytes; a closed pipe takes nothing |
| DeliveryPipeModel.TakesExactly | cmd/test-streammanager/deliverypipe.go:214-230 | taking puts exactly what is due on its way, in order |
| DeliveryPipeModel.DueIsDelivered | cmd/test-streammanager/deliverypipe.go:155-230 | an open, idle pipe with its targets set can deliver everything that is due, in order and in both lanes, and the bytes are given back |
| DeliveryPipe.SortPending | cmd/test-streammanager/deliverypipe.go:145-153 | a sorted permutation |
| DeliveryPipe.DeliveryPipe.EnqueueData | cmd/test-streammanager/deliverypipe.go:80-106 | appending and sorting put the packet in its place and count its decoded bytes; nothing once closed |
| DeliveryPipe.DeliveryPipe.EnqueueAck | cmd/test-streammanager/deliverypipe.go:108-130 | the same for acknowledgements |
| DeliveryPipe.DeliveryPipe.TakeReady | cmd/test-streammanager/deliverypipe.go:214-230 | the loop takes the due prefix out of the queue |
| DeliveryPipe.DeliveryPipe.DeliverData | cmd/test-streammanager/deliverypipe.go:161-182 | hands the next packet to the target, if there is one, before its bytes are given back |
| TraceCoalescerModel.PublishedIsComplete | emain/agent-observability-ipc.ts:46-80 | per session the published details are a subsequence of the built ones that omits nothing but updates; exactly the non-updates are saved, in order |
| TraceCoalescerModel.NewestIsNeverLost | emain/agent-observability-ipc.ts:46-80 | the newest detail is published last or waiting, and a session has exactly one live timer if something waits and none otherwise |
| TraceCoalescerModel.BurstIsHeldBack | emain/agent-observability-ipc.ts:47-57 | any number of updates publishes and saves nothing: the newest waits with the timer of the first |
| TraceCoalescerModel.BurstIsPublishedOnce | emain/agent-observability-ipc.ts:46-80 | when that timer fires exactly the newest is published and nothing waits any more |
| TraceCoalescerModel.OtherEventsFlush | emain/agent-observability-ipc.ts:60-64 | any other event publishes what waits for its session and then itself, and is saved |
| TraceCoalescerModel.DisposedHoldsNothing | emain/agent-observability-ipc.ts:67-72 | a dispose drops what waits and publishes nothing |
| TraceCoalescerModel.DisposeKeeps | emain/agent-observability-ipc.ts:67-72 | after a dispose no timer is left to fire |
| TraceCoalescer.TraceEventCoalescer.Handle | emain/agent-observability-ipc.ts:46-65 | holding, replacing, flushing, saving and publishing as the model says |
| TraceCoalescer.TraceEventCoalescer.FlushSession | emain/agent-observability-ipc.ts:74-80 | publishes what waits and ends its timer |
| SessionBranch.ActiveBranch | emain/agent-rewind-service.ts:118-133 | for arbitrary entries, ends with the duplicate-free parent chain to the leaf if there is one and with nothing otherwise |
| SessionBranch.BranchIsUnique | emain/agent-rewind-service.ts:124-131 | there is at most one such chain |
| SessionBranch.BranchIsDistinct | emain/agent-rewind-service.ts:125-126 | a chain to a root never meets an id twice |
| SessionBranch.ByIdExact | emain/agent-rewind-service.ts:120 | an id stands for its last entry that is not of type "leaf" |
| SessionBranch.Relink | emain/agent-ipc.ts:2790-2795 | each exported entry gets the entry before it as its parent and keeps everything else |
| SessionBranch.RelinkedKeepsContent | emain/agent-ipc.ts:2790-2795 | a relinked entry keeps its id, its kind and its content, and has the line before it as its parent |
| SessionBranch.ExportRoundTrip | emain/agent-ipc.ts:2788-2795 | walking an exported list again gives the same ids in order if and only if no id comes twice and no entry is of type "leaf" |
| SessionBranch.ActiveBranchSurvivesExport | emain/agent-ipc.ts:2788-2795 | so every active branch survives relinking |
| JavaScriptLiteral.SixPassesAreOneMap | emain/emain-web.ts:27-35 | the six replacements are together one map over the characters |
| JavaScriptLiteral.LiteralReadsBack | emain/emain-web.ts:46-51 | a double-quoted literal around any escaped string ends at the quote put behind it and has that string as its value |
| JavaScriptLiteral.LiteralWithPrefixReadsBack | emain/emain-web.ts:52 | the same behind plain text of the template |
| JavaScriptLiteral.EscapingIsInjective | emain/emain-web.ts:27-35 | different strings give different script text |
| ShellWord.QuoteIsOneWord | emain/agent-tools/pty-write.ts:41-43 | the quoted form of any string reads back as one shell word equal to it |
| PtyWrite.StartupCommandIsIgnored | emain/agent-tools/pty-write.ts:88-100 | given the startup command again, in any mode, the tool writes nothing if and only if the command does not start with ^A |
| PtyWrite.ReplaysExactly | emain/agent-tools/pty-write.ts:34-56 | an input is ignored if and only if it is the startup command, alone or behind one of the two changes of directory, with any white space around it and any ^A before that; without white space between, the ^A must not be the command's own |
| PtyWrite.WritesTheInput | emain/agent-tools/pty-write.ts:58-100 | an input that is no replay reaches the command as it is, from the beginning of the line with the platform's Enter, or between the marks of a bracketed paste, by mode |
| PtyWrite.NormalizeIsTrim | emain/agent-tools/pty-write.ts:34-39 | dropping the line end first makes no difference to the trimmed text |
| PtyWrite.QuotedReplayNamesTheDirectory | emain/agent-tools/pty-write.ts:45-56 | the quoted change of directory that counts as a replay reads back as that directory |
| CatalogStoreModel.RunsAreSafe | emain/model-catalog-store.ts:46-62 | if holding and deciding together stay within `LockStaleMs`, in every interleaving at most one call holds the lock, no lock is taken away, the file is whole and equals the commits so far, and only holders have temporary files |
| CatalogStoreModel.LastCommitWins | emain/model-catalog-store.ts:46-62 | every provider ends up with its last committed state |
| CatalogStoreModel.LockBreaksExactlyWhen | emain/model-catalog-store.ts:114-146 | a lock in use can be removed and two calls can hold it if and only if the two times together may exceed `LockStaleMs` |
| CatalogStoreModel.RenameKeeps | emain/model-catalog-store.ts:87-102 | a rename that fails changes nothing but the temporary file, one that succeeds adds one commit |
| CatalogStoreModel.WaiterGetsTheLock | emain/model-catalog-store.ts:114-136 | a waiting call tries again exactly until it has waited too long, and a lock that is free then is its own |
| CatalogStoreModel.FailuresEndTheCall | emain/model-catalog-store.ts:46-146 | a failing file operation ends the call or leads it to give the lock back, commits nothing and leaves no temporary file |
| CatalogStore.FileModelCatalogStore.WriteProvider | emain/model-catalog-store.ts:46-62 | a whole call, with anything happening between its file operations and whatever the bounds: its operations follow one another until it is finished or has found the lock taken the given number of times; it reports success only for a state it has committed; and if the lock is free, nothing fails and nobody else is about it does succeed, leaving the document with its state, a free lock and no temporary file |
| CatalogStore.FileModelCatalogStore.AcquireLock | emain/model-catalog-store.ts:114-136 | the retry loop ends with the lock taken and its process id written, with a failure, or, having found the lock taken the given number of times, still trying |
| CatalogStore.FileModelCatalogStore.RemoveStaleLock | emain/model-catalog-store.ts:138-146 | removes a lock exactly if more than `LockStaleMs` lie between the time seen on it and the decision and the removal does not fail; within the bounds it never does |
| CatalogStore.FileModelCatalogStore.AtomicWrite | emain/model-catalog-store.ts:87-102 | reports a commit only if it has added its own, never leaves its temporary file, and within the bounds adds nothing else |
| PtyHostModel.KeepsTheNewest | emain/agent-tools/agent-pty-host.ts:304-314 | in every run the completed commands kept are exactly the newest completions since the last clear, at most as many as the limit |
| PtyHostModel.NumbersCountUp | emain/agent-tools/agent-pty-host.ts:142-151 | completion numbers are distinct and count up in the order of completion |
| PtyHostModel.FirstCompletionWins | emain/agent-tools/agent-pty-host.ts:270-291 | of an exit and a stop timeout only the first changes anything |
| PtyHostModel.StartedIsKept | emain/agent-tools/agent-pty-host.ts:100-151 | a command that starts is kept as a running one |
| PtyHostModel.CompletesExactly | emain/agent-tools/agent-pty-host.ts:142-151 | an exit or a stop timeout completes a running command with the next number and drops no running one |
| PtyHostModel.ClearsExactlyWhenIdle | emain/agent-tools/agent-pty-host.ts:214-222 | the history is cleared exactly if no kept command runs, and then wholly |
| PtyHostModel.PruneDropsTheOldest | emain/agent-tools/agent-pty-host.ts:304-314 | a prune drops a command exactly if it is completed and the limit is filled by newer ones |
| PtyHost.AgentPtyHost.PruneCompletedEntries | emain/agent-tools/agent-pty-host.ts:304-314 | filtering, sorting and deleting do exactly that and keep the order of the rest |
| PtyHost.AgentPtyHost.OnExit | emain/agent-tools/agent-pty-host.ts:142-151 | completes a running command once, numbers it and prunes |
| PtyHost.AgentPtyHost.OnStopTimeout | emain/agent-tools/agent-pty-host.ts:284-290 | the same for a stop that timed out |
| PtyHost.AgentPtyHost.ClearCompletedHistory | emain/agent-tools/agent-pty-host.ts:214-222 | refuses exactly while a command runs, otherwise empties the map |
| WindowPlacement.FindDisplayWithMostArea | emain/emain-util.ts:210-228 | the first display of largest overlap, or none if nothing overlaps |
| WindowPlacement.AdjustBoundsToFitDisplay | emain/emain-util.ts:230-252 | inside the work area, cut no more than needed, at the nearest place |
| WindowPlacement.EnsureBoundsAreVisible | emain/emain-util.ts:254-265 | stays if its corners are on displays, else goes into the work area of the display it overlaps most or of the primary one |
| WindowPlacement.PlacementIsIdempotent | emain/emain-util.ts:254-265 | over displays that do not overlap, placing a placed window again leaves it where it is, whatever its size |
| WindowPlacement.IsWindowFullyVisible | emain/emain-util.ts:187-208 | whether all four corners are on some display |

## Left out

- TerminalSurface: a `createView` that gives out a cached view (emain/emain-tabview.ts:314-318) is followed in one run only, that of `SurfaceCache`; all other results assume a fresh view for each creation.
- TerminalSurface: `focusWorkspace`, `focusTerminal`, `raiseView`, view bounds, `isViewReady` and error messages.
- SwitchTransaction: the text and nesting of the collected errors.
- QuitCoordinator.EMainQuitCoordinator.RunGuardedAction: a window whose finalize throws, which the real handshake's never does, would be told to roll back after others were told to commit.
- CatalogStoreModel.RunsAreSafe: locks left behind by crashed processes; two waiters can both remove such a lock.
- CatalogStore: the refresh lock, which uses the same lock code around other work; file names and permissions; `AcquireLock` follows a given number of attempts, since the source's loop ends by the clock.
- AgentSubscriptions: the shutdown that clears all tables before the registry is disposed of, the delivery of session state to subscribers, `releaseSubscriptionsForSenderPath`, and the identity of authorization objects beyond the key.
- SubscriptionTheorems.RestoreSettles: an intent that another call subscribes, suspends or restores anew during the awaits of the same restore; over whole runs it is covered by `ReferencesAreActive`.
- SubscriptionTheorems.RestoreOneExact: the exact verdict where other calls subscribe, suspend or attach the same intent, or start or stop its own path's runtime, during its turn; `RestoreSettles` covers the latter.
- SubscriptionTheorems.SubscribeToOwnerExact: the same limit as `RestoreOneExact`.
- SubscriptionTheorems.SubscribeAfterValidationExact: the same limit as `RestoreOneExact`.
- SubscriptionTheorems.AttachOneExact: the same limit as `RestoreOneExact`.
- AgentRuntimeRegistry, the rewind engine, recovery and the snapshot stores: not part of this model, only what the code above relies on.
- Archiving and deleting a session: only their subscription side; a late failure moves the session back but does not restore the cleared active session.
- SendIngress: how a session path is resolved into the key.
- DeliveryPipe.DeliveryPipe.EnqueueData: metrics, the high water mark and the out-of-order counters; sleeping; a target that is removed again.
- TraceCoalescerModel.NewestIsNeverLost: after a dispose, which throws away what waits; how long an update may wait.
- JavaScriptLiteral.LiteralReadsBack: the reader refuses octal, hexadecimal and Unicode escapes and line continuations, none of which the escaper writes; strings are sequences of Unicode scalar values, so lone surrogates do not occur.
- ShellWord.QuoteIsOneWord: the reader refuses expansions, double quotes and patterns.
- PtyHost: the pseudo terminals themselves, their output, sizes and the updates sent about them.
- WindowPlacement.IsWindowFullyVisible: like the source it looks at the corners only; fractional pixels.
- Electron objects, IPC registration, menus, preload bridging, dialogs and the renderer.
- The window's action queue, which returns after one entry, and the tab cache, whose eviction has no size bound.
- Exact timer durations, logging, statistics, benchmark scripts, training code and code generators.
