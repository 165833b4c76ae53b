# Cellular data connection protocol: a verified model

This project models how the cellular data service brings data connections up and down, and
proves what that protocol keeps over every run.

- **The protocol.** A data handler owns a fixed table of APN holders and a growing pool of
  connection machines. Holders and machines talk only through queued messages; the modem
  answers when it likes, late, or never. `ConnectionMachine` is one machine as a step function,
  `Handler` the handler, `Protocol` the step system made of both. `AttemptInvariant`,
  `AttemptSteps` and `ProtocolInvariant` hold the inductive invariant, `ProtocolTheorems` and
  `ProtocolRuns` the results for every reachable state and every run. `ProtocolFrames` says what
  the handler leaves alone, `ProtocolIndex` follows the cid index, `ProtocolTimers` the time-outs,
  `ProtocolMessages` the completions sent, `ProtocolRelease` what can still be done from every
  state, `ProtocolAnswers` which attempt the modem brought up, `ProtocolReasons` a release reason
  from the request to its report, `ProtocolEndings` how attempts end and what the handler makes of
  it; `HandlerClearing`, `HandlerPriority` and `HandlerReactions` say what each handler operation
  does to holders, queues and pending events; `ProtocolWitness` and `ProtocolLeftovers` are
  concrete runs.
  `ConnectionObject` and `HandlerObject` are the machine and the handler as objects that update
  their fields in place, proved to take exactly the steps of the step functions; `Sharing` says
  which running connection a request shares. `StateMachineFramework` is the event handler under
  every machine.
- **APN profiles.** `TypeList`, `ProfileMerge`, `MergeTheorems`, `MergeGroups`, `MergeSurvivors`,
  `MergeStraddle`, `ApnSelection`, `ItemOrigins`, `ApnManagers`: the in-place quadratic merge of
  similar profiles, the type lists it concatenates, the item list built from it, and the choice of
  the initial attach APN.
- **Retry policy.** `RetryPolicy`: the recursive round robin over usable APNs.
- **Recovery and in-call switching.** `RecoveryMonitor`, with `StallRuns` on when it acts, and
  `IncallMachine`.

Modelling decisions:

- Each event handler is one atomic step. A machine's queue is first in, first out; events posted
  as immediate come ahead of ordinary ones and are first in, first out among themselves. Timers
  may fire at any moment at which no immediate event waits, and the clock comparison of the
  connect time-out is an input.
- The modem may send any set-up or deactivate answer, with any flag, at any time. Connection loss
  and host death reach machines through their ordinary queue.
- `connectId_` is unbounded. Machines are named by their index in the pool. Numbers of grants and
  attempts, the last attempt brought up, the lists of accepted and completed attempts and the
  action trace of the monitor are bookkeeping that no transition reads.
- Settings, radio state, SIM state, roaming, APN matching and the database are inputs of each
  action. Pending MSG_ESTABLISH_DATA_CONNECTION events are kept as a bag; the step system may also
  run one that the modelled handlers did not post, for any holder at any time, which stands for
  the senders outside the model and only adds runs. Other triggers of the handler (roaming, SIM,
  airplane mode, settings) are sequences of the clear-all and establish-all actions.
- The holder order among equal priorities is the order of addition. `std::sort` does not promise
  it; only the two orders of visiting depend on it, no invariant does.
- `INVALID_PROFILE_ID` has no definition in the repository; it is taken as -1, the initial value
  of `preferId_`. PDP cause 0 is success; the other named causes are distinct values. A fresh
  `SetupDataCallResultInfo` has reason 0.
- Extension hooks are absent. Allocation never fails and stored pointers are not null.

What the code does not give, each with a concrete input or the exact condition:

- The reason of a disconnect survives the modem round trip exactly when it is not the hand-over
  reason, which the map lacks and which comes back as a retry (`ReasonRoundTrip` for one machine,
  `ReasonEndToEnd` from the handler's request to the report it reads).
- A deactivate answer that carries no response object ends a disconnecting attempt whichever
  attempt it belongs to (`UnflaggedAnswer`), and the interface-down callback gives a left-over
  disconnect timer the current generation (`InterfaceDownRetags`). Runs in which either ends a
  second attempt are `LateEmptyAnswerEndsSecondAttempt` and `LeftoverTimerEndsSecondAttempt`. Only
  an attempt's own timer can end it if and only if no interface-down notice reaches a machine that
  is not disconnecting while a disconnect timer is pending (`StepOwns`, `OnlyOwnTimerCounts`).
- An active connection can be missing from the cid index, because another machine with the same
  cid was given back (`ActiveConnectionUnindexed`) or was set up (`ActiveConnectionOverwritten`).
  These are the only two steps that drop one (`StaysIndexed`); while no other held machine carries
  the cid of an active one, every active machine is indexed (`ActiveAreIndexed`).
- A connect time-out that fires while the clock seems to run backwards can leave an attempt
  waiting for ever (`AttemptStranded`). With a silent modem a holder can be released if and only
  if its machine is not activating with its time-out gone and no answer queued
  (`SilentReleaseExact`); without a clock step back that never happens
  (`SilentModemStrandsNobody`).
- Merged profiles can still be similar to each other, and merging without a preference can invent
  one (`SimilarSurvivorsAndInventedPreference`). If no APN and MVNO shows "IP", "IPV6" and "IPV4V6"
  together, kept profiles are never similar, whatever else differs (`SurvivorsAreDissimilar`).
  Where entries of one APN and MVNO differ in one protocol only and at most one is a default entry,
  similar profiles survive if and only if some group has its first "IPV4V6" behind both an "IP"
  and an "IPV6" (`SimilarSurviveWhen`, with the list above in `SampleStraddled`).
- Where entries of one APN and MVNO are pairwise similar but for the word "default", a preference
  is invented exactly when a group lists two default entries and behind them one without
  (`PreferenceInventedByInput`): two default profiles and an MMS profile are enough
  (`OrdinaryListInventsPreference`).
- A merged type list can outgrow its field, so that the merged profile is refused (`MergedFits`)
  and neither of two acceptable profiles is listed (`MergeCanRefuseBoth`); the attach APN is then
  another item although a preference is set (`PreferenceEndToEnd`).
- A new APN list does not restart the try counter (`CounterOutlivesList`).
- The in-call machine's record of its state differs from the event handler's exactly when it
  leaves with the slot still to be moved and nothing connected; the completion message is then
  skipped (`RecordDiverges`, with a run in `RecordCanDiverge`).

## Model

| member | source | states |
|---|---|---|
| ProtocolTheorems.ExactlyOneObligation | services/src/cellular_data_handler.cpp:798-874 | in every reachable state a holder's machine owes it exactly one of: a queued connect, an attempt in progress for that holder, one queued completion |
| ProtocolTheorems.NothingOwedOtherwise | services/src/cellular_data_handler.cpp:1062-1109 | an unheld machine is inactive with no connect queued, and a holder without a machine has no completion coming |
| ProtocolTheorems.ConnectConsumedInInactive | services/src/state_machine/inactive.cpp:84-95 | a connect is only ever dispatched in Inactive, by the machine granted to its holder, as that machine's next attempt |
| ProtocolTheorems.AttemptIsolation | services/src/state_machine/activating.cpp:64-68 | no pending disconnect, loss notice, time-out or flagged answer of an earlier attempt changes the attempt in progress; stale disconnects and loss notices do not even remain |
| ProtocolTheorems.InterfaceDownRetags | services/src/state_machine/cellular_data_state_machine.cpp:210-230 | interface-down replaces every waiting disconnect timer by one with the current generation; on an active machine that one stands beside the timer of the next disconnect, ends it when it fires, and leaves the other pending |
| ProtocolTheorems.ActivationIdsIncrease | services/src/state_machine/inactive.cpp:28 | every activation request of a machine carries a larger connectId than all before it |
| ProtocolTheorems.MachineHistory | services/src/state_machine/inactive.cpp:30-60 | accepted attempts, completions, stored result and current generation of every machine fit together |
| ProtocolMessages.EachAttemptCompletedOnce | services/src/state_machine/inactive.cpp:30-60 | in every run the completion messages a machine has sent are those of its accepted attempts, once each, in order, to the holder and with the result of each; only the attempt in progress is without one |
| ProtocolMessages.ProcessLogs | services/src/state_machine/inactive.cpp:35-60 | for every event the completions sent are exactly what the completion list gains |
| ProtocolTheorems.CompletionCarriesOwnResult | services/src/state_machine/inactive.cpp:44-59 | a queued completion carries a result stored during the very attempt it ends |
| ProtocolTheorems.StateMatchesMachine | services/src/cellular_data_handler.cpp:853-857 | a holder has a machine exactly when connecting, connected or disconnecting, and FAILED is never reached |
| ProtocolTheorems.ReportsFindTheirMachine | services/src/cellular_data_handler.cpp:922-938 | every report finds its holder with a machine, so the null branches of both completion handlers are dead |
| ProtocolAnswers.ConnectedMeansAnswered | services/src/cellular_data_handler.cpp:893-920 | the last attempt the modem brought up on a connected holder's machine is the last one accepted and the last one granted |
| ProtocolTheorems.NoLostWakeUp | services/src/cellular_data_handler.cpp:1131-1187 | a retrying holder has its retry event pending; a disconnecting one has a request queued or deferred, a disconnecting machine, or a completion coming |
| ProtocolTheorems.MachinesAreExclusive | services/src/apn_manager/apn_manager.cpp:484-502 | two holders never hold the same machine |
| ProtocolTheorems.HandedOutFinished | services/src/cellular_data_handler.cpp:768-785 | the machine the allocator returns has finished and reported all its attempts and keeps nothing of them |
| ProtocolTheorems.HandOutEffect | services/src/cellular_data_handler.cpp:835-874 | handing out gives an idle holder a machine nobody held with exactly one connect queued, and touches nothing else, pending establish events included |
| ProtocolTheorems.ClearEffect | services/src/cellular_data_handler.cpp:325-355 | a clear changes the state if and only if the holder is connecting or connected; then the request of the current attempt is queued with its reason and nothing else is touched |
| ProtocolTheorems.IndexIsSound | services/src/data_connection_manager.cpp:83-127 | every cid entry names a held machine with that cid that is past activation |
| ProtocolIndex.StaysIndexed | services/src/data_connection_manager.cpp:83-127 | for every step from every reachable state, an active indexed machine that stays active stays indexed if and only if the step neither gives back another machine with its cid nor lets another machine accept a set-up answer with it |
| ProtocolIndex.ActiveAreIndexed | services/src/state_machine/activating.cpp:74-83 | in a run in which no other held machine carries the cid of an active one, every active machine is indexed |
| ProtocolTheorems.ReasonRoundTrip | services/src/state_machine/active.cpp:68-100 | from any reachable state with an active machine, through any events before the modem's answer, the handler decodes the reason that was sent if and only if it is not the hand-over reason |
| ProtocolReasons.ReasonEndToEnd | services/src/cellular_data_handler.cpp:325-355 | from the handler's clear of an active machine in a reachable state, through any continuation of the whole system in which the host lives and the attempt's time-out does not fire, the completion the handler reads decodes to the reason it gave if and only if that is not the hand-over reason |
| ProtocolEndings.CompletionsByEnding | services/src/state_machine/activating.cpp:45-165 | in every run the completions a machine has sent carry, one by one, what the ways its attempts ended call for: Retry after an error answer, a time-out or host death while disconnecting, the modem's own cause after a refused set-up or a lost connection, none after host death while active, the reason of the request after a confirmed release |
| ProtocolEndings.ProcessReports | services/src/state_machine/disconnecting.cpp:41-156 | for every event a machine sends a completion exactly if the event ends the attempt, with the cause of that ending |
| ProtocolEndings.MovesExactly | services/src/state_machine/activating.cpp:45-90 | an attempt starts exactly with a connect in Inactive, comes up exactly with an accepted set-up of its generation, is released exactly by a request while active, and is over exactly with one of the endings |
| ProtocolEndings.ComesUpIndexed | services/src/state_machine/activating.cpp:66-83 | an accepted set-up puts the call's cid on the machine and the machine under that cid in the index |
| ProtocolEndings.AnnouncesExactly | services/src/state_machine/active.cpp:253-284 | a set-up is announced, once and to the machine's own holder, exactly when an active machine meets a set-up answer, and then no connect time-out is left |
| ProtocolEndings.RunInbox | services/src/state_machine/inactive.cpp:44-59 | in every run a completion in the inbox is the last one that its holder's machine sent |
| ProtocolEndings.ReactionByEnding | services/src/cellular_data_handler.cpp:1062-1159 | in every run an enabled holder that reads its completion waits for a retry, with the event pending, if and only if the attempt ended by an error answer, a time-out or host death, by a modem cause that is none of the sixteen, or by a confirmed release for a retry or a hand-over |
| Protocol.ReachableInv | services/src/cellular_data_handler.cpp:662-766 | the protocol invariant holds in every reachable state |
| Protocol.StepKeeps | services/src/cellular_data_handler.cpp:1233-1284 | every action of machine, modem, timers or handler keeps the invariant |
| Protocol.DispatchKeeps | services/src/state_machine/activating.cpp:167-208 | dispatching any next event of any machine keeps the invariant |
| Protocol.ResetKeeps | services/src/cellular_data_handler.cpp:1907-1930 | dropping all retry events at once leaves no holder waiting for one |
| ProtocolRuns.HistoryOnlyGrows | services/src/state_machine/inactive.cpp:20-62 | along any continuation no machine forgets, alters or reorders an attempt or completion, and generations never go back |
| ProtocolRuns.RetryIsFollowedUp | services/src/cellular_data_handler.cpp:1174-1187 | in every step a holder that stops waiting for its retry has an establish event pending at once, even when all retry events are dropped together |
| ProtocolFrames.HandlerTouches | services/src/cellular_data_handler.cpp:325-355 | whatever the handler does, it only adds to the queues of machines and starts new ones |
| ProtocolTimers.DisconnectTimerPending | services/src/state_machine/cellular_data_state_machine.cpp:173-197 | in every reachable state a disconnecting machine has a disconnect timer of its generation pending |
| ProtocolTimers.ConnectTimerPending | services/src/state_machine/activating.cpp:142-152 | in every run without a clock step back an activating machine has its connect timer pending |
| ProtocolTimers.StepOwns | services/src/state_machine/cellular_data_state_machine.cpp:210-230 | for every state in which every machine has only its own disconnect timer, and every action, the next state is such a state if and only if the action is not an interface-down notice to a machine that is not disconnecting while a disconnect timer is pending |
| ProtocolTimers.OnlyOwnTimerCounts | services/src/state_machine/cellular_data_state_machine.cpp:173-230 | in every run, exactly one disconnect timer of the current generation runs while disconnecting, and none otherwise, all along the run if and only if no such notice occurs |
| ProtocolRuns.SinglePdpExclusion | services/src/cellular_data_handler.cpp:821-834 | in a run that stays in single-connection mode at most one holder ever holds a machine |
| ProtocolRuns.QuietMeansNoMachine | services/src/apn_manager/apn_manager.cpp:519-548 | when the overall state is neither connecting nor connected, nobody holds a machine |
| ProtocolRelease.NobodyIsStuck | services/src/state_machine/disconnecting.cpp:120-156 | from every reachable state every holder can still be brought to a state without a machine |
| ProtocolRelease.SilentReleaseExact | services/src/state_machine/activating.cpp:130-165 | from every reachable state, with no answer from the modem, a holder can be brought to a state without a machine if and only if its machine is not activating with its time-out gone and no deciding answer queued |
| ProtocolRelease.SilentModemStrandsNobody | services/src/state_machine/activating.cpp:142-152 | after any run without a clock step back every holder can be brought to a state without a machine with no answer from the modem |
| ProtocolRelease.IdleHolderCanConnect | services/src/cellular_data_handler.cpp:798-874 | from every reachable state every idle holder can be given a machine that sends its activation request |
| ProtocolRelease.DispatchBringsNearer | services/src/state_machine/activating.cpp:167-208 | every event a held machine dispatches brings its attempt nearer to its end, by phase and then by queue length |
| ProtocolRelease.OneReport | services/src/cellular_data_handler.cpp:1062-1109 | one report, whatever is admitted meanwhile, shortens the inbox by one and takes a machine from its own holder only, exactly on completion |
| ProtocolWitness.ConnectionComesUp | services/src/state_machine/active.cpp:253-284 | some run ends with a connected holder over an indexed active machine |
| ProtocolWitness.ActiveConnectionUnindexed | services/src/cellular_data_handler.cpp:1087-1088 | a reachable state in which a connected holder's active machine is not in the cid index |
| ProtocolWitness.ActiveConnectionOverwritten | services/src/data_connection_manager.cpp:83-89 | a reachable state in which another machine's set-up took over the index entry of a connected holder's active machine, with nothing ever given back |
| ProtocolWitness.AttemptStranded | services/src/state_machine/activating.cpp:142-152 | a reachable state whose holder no run without the modem can release |
| ProtocolLeftovers.LateEmptyAnswerEndsSecondAttempt | services/src/state_machine/disconnecting.cpp:101-112 | a run to a second attempt that a late answer of the first leaves alone with its flag and ends without it |
| ProtocolLeftovers.LeftoverTimerEndsSecondAttempt | services/src/state_machine/cellular_data_state_machine.cpp:210-230 | a run in which the first attempt's timer, retagged while the second is active, ends it after its disconnect with its own timer still pending |
| ConnectionObject.CellularDataStateMachine.ProcessEvent | services/include/state_machine/state_machine.h:109-150 | one event takes the object exactly where the step function says; afterwards currentState_, curState_ and destState_ agree and the state and its parent are flagged |
| ConnectionObject.CellularDataStateMachine.ProcessTransitions | services/include/state_machine/state_machine.h:78-101 | the requested transition, with entry effects and deferred events posted, and consistent flags |
| ConnectionObject.CellularDataStateMachine.SendDeferredEvent | services/include/state_machine/state_machine.h:152-163 | deferred events join the immediate queue in order and the list is empty |
| ConnectionObject.CellularDataStateMachine.InactiveBegin | services/src/state_machine/inactive.cpp:20-62 | entering Inactive starts a new generation and reports and clears the stored result |
| ConnectionObject.CellularDataStateMachine.RilActivatePdpContextDone | services/src/state_machine/activating.cpp:45-90 | a set-up answer of another generation changes nothing; otherwise the cid is stored and the attempt fails or goes active and is indexed |
| ConnectionObject.CellularDataStateMachine.ActivatingProcess | services/src/state_machine/activating.cpp:92-208 | every event in Activating, with error answer, connect time-out and deferral |
| ConnectionObject.CellularDataStateMachine.ActiveProcess | services/src/state_machine/active.cpp:45-182 | every event in Active: disconnect, loss, host death, and set-up answers forwarded without an id check |
| ConnectionObject.CellularDataStateMachine.DisconnectingProcess | services/src/state_machine/disconnecting.cpp:41-156 | every event in Disconnecting: answer, time-out, host death and deferral |
| ConnectionObject.CellularDataStateMachine.DoConnect | services/src/state_machine/cellular_data_state_machine.cpp:121-171 | the machine takes the holder's id and starts a connect timer of the current generation |
| ConnectionObject.CellularDataStateMachine.ProcessDisconnectDone | services/src/state_machine/active.cpp:68-100 | the mapped reason is stored, a disconnect timer of the current generation started, Disconnecting requested |
| HandlerObject.CellularDataHandler.IsDataConnectionNotUsed | services/src/apn_manager/apn_manager.cpp:484-502 | true exactly when no holder holds the machine |
| HandlerObject.CellularDataHandler.GetOverallApnState | services/src/apn_manager/apn_manager.cpp:504-548 | the scan returns the overall state defined by which holder states occur |
| HandlerObject.CellularDataHandler.HasAnyHigherPriorityConnection | services/src/cellular_data_handler.cpp:2233-2258 | true exactly when some enabled holder of higher priority is connecting, connected or disconnecting |
| HandlerObject.CellularDataHandler.FindIdleCellularDataConnection | services/src/cellular_data_handler.cpp:768-785 | the first inactive machine that nobody holds, or none |
| HandlerObject.CellularDataHandler.CheckForCompatibleDataConnection | services/src/cellular_data_handler.cpp:2749-2790 | the loop returns the machine of the specification, which is the first active compatible one, else the last activating one, else the first disconnecting one, else none |
| Sharing.ScanChooses | services/src/cellular_data_handler.cpp:2760-2788 | from any position and any machine in mind the scan returns the one that the order of preference prescribes |
| HandlerObject.CellularDataHandler.ClearConnection | services/src/cellular_data_handler.cpp:325-355 | the disconnect is queued and the holder disconnecting, unless idle, disconnecting, retrying or without machine |
| HandlerObject.CellularDataHandler.ClearAllConnections | services/src/cellular_data_handler.cpp:251-279 | every holder but MMS is cleared, in table order, unless the hand-over clean-up was refused |
| HandlerClearing.ClearAllEffect | services/src/cellular_data_handler.cpp:251-279 | from every reachable state everybody but MMS who was connecting or connected is disconnecting with the request of the current attempt and the given reason last in the machine's queue; all other holders and machines, inbox, retries, requests and index are unchanged |
| HandlerObject.CellularDataHandler.CheckMultiApnState | services/src/cellular_data_handler.cpp:702-729 | BIP and DUN connections are released for the default role |
| HandlerClearing.MakeRoomEffect | services/src/cellular_data_handler.cpp:702-729 | exactly the BIP and DUN connections are released for the default role, and nothing else changes |
| HandlerClearing.RatChangeEffect | services/src/cellular_data_handler.cpp:2025-2063 | exactly the connections whose APNs changed are released for a retry, and nothing else changes |
| HandlerClearing.ApnResetEffect | services/src/cellular_data_handler.cpp:1907-1930 | retrying holders are idle again, all retry events are gone if there was one, each role is asked for once, and nothing else changes |
| HandlerClearing.ApnChangeEffect | services/src/cellular_data_handler.cpp:1907-1930 | with a clean-up everybody but MMS is released first, unless the modem refuses |
| HandlerObject.CellularDataHandler.EstablishDataConnection | services/src/cellular_data_handler.cpp:798-891 | reuse or a repeated request, refusal, clean-up for single mode, or a machine handed out with one connect queued |
| HandlerPriority.OutrankedExactly | services/src/cellular_data_handler.cpp:2233-2258 | a request is outranked if and only if somebody enabled is connecting, connected or disconnecting in a role above it: initial attach above all, every other role above default, default above internal default |
| HandlerPriority.SingleModeTurn | services/src/cellular_data_handler.cpp:798-891 | while only one connection is allowed an outranked request changes nothing, else everybody but MMS is released for the change if anybody is not quiet, else the request gets its machine |
| HandlerPriority.DefaultMakesWay | services/src/cellular_data_handler.cpp:821-834 | with the default connection up, a request that nobody outranks releases it for the change |
| HandlerPriority.SharingExactly | services/src/cellular_data_handler.cpp:798-820 | a request that can share is dropped if a connection to share is active, else repeated |
| HandlerPriority.ConnectsExactly | services/src/cellular_data_handler.cpp:662-891 | an idle holder ends with a machine of its own if and only if it is admitted, has an APN, cannot share, and everybody is quiet while only one connection is allowed |
| HandlerPriority.TriedExactly | services/src/cellular_data_handler.cpp:468-489 | when everybody is tried, an idle holder that nothing hinders ends with a machine if and only if it is enabled, admitted and has an APN, whatever the others ask for |
| HandlerPriority.SingleModeWinner | services/src/cellular_data_handler.cpp:468-489 | when everybody is tried in single-connection mode from a quiet state, exactly one machine is handed out, to a holder that is let through and that no other such holder outranks |
| HandlerObject.CellularDataHandler.AttemptEstablishDataConnection | services/src/cellular_data_handler.cpp:662-766 | admission and state checks before connecting, and the repeated request while a holder disconnects |
| HandlerObject.CellularDataHandler.EstablishAllApnsIfConnectable | services/src/cellular_data_handler.cpp:468-489 | every enabled holder is tried, higher priority first |
| HandlerObject.CellularDataHandler.MsgEstablishDataConnection | services/src/cellular_data_handler.cpp:1217-1284 | an enabled holder is connected, a disabled one released with the reason its bearer and slot ask for |
| HandlerReactions.RequestReleases | services/src/cellular_data_handler.cpp:1217-1284 | an establish event for a disabled holder releases that holder alone, for a hand-over exactly if another bearer took over, wifi or for the internal default role, unless it is the default role off the primary slot, and for a change exactly if no bearer did and one connection is allowed |
| HandlerReactions.RequestConnects | services/src/cellular_data_handler.cpp:1217-1284 | an establish event for an idle enabled holder ends with a machine if and only if nothing hinders it |
| HandlerReactions.RequestWaits | services/src/cellular_data_handler.cpp:662-701 | an establish event for a busy holder changes nothing, except that the last one for a disconnecting holder is posted again |
| HandlerObject.CellularDataHandler.MsgRequestNetwork | services/src/cellular_data_handler.cpp:1384-1417 | the holder is switched on or off and an establish event posted for it |
| HandlerReactions.NetworkRequestEffect | services/src/cellular_data_handler.cpp:1384-1417 | a network request and its establish event: an idle holder ends with a machine if and only if it was switched on and nothing hinders it, and one that is up is released exactly if it was switched off |
| HandlerObject.CellularDataHandler.HandleSortConnection | services/src/cellular_data_handler.cpp:1200-1215 | once everything is down the first enabled holder by priority is asked for |
| HandlerPriority.NextByRank | services/src/cellular_data_handler.cpp:1200-1215 | exactly when everybody is quiet an enabled holder that no enabled holder outranks is asked for, else nothing happens |
| HandlerPriority.SortedByRank | services/src/apn_manager/apn_manager.cpp:86-102 | no role stands in the sorted order before one that outranks it |
| HandlerObject.CellularDataHandler.EstablishDataConnectionComplete | services/src/cellular_data_handler.cpp:893-938 | the holder becomes connected, or idle without a machine; the default role wakes the internal one |
| HandlerReactions.EstablishedEffect | services/src/cellular_data_handler.cpp:893-938 | from every reachable state a set-up connects its holder, posts a retry for the internal default role exactly if it is the default one, and changes nothing else |
| HandlerObject.CellularDataHandler.DisconnectDataComplete | services/src/cellular_data_handler.cpp:1062-1109 | the machine is given back, its cid dropped, an enabled holder retries or is cleared, and after a change the next holder by priority is asked for |
| HandlerReactions.CompletionEffect | services/src/apn_manager/connection_retry_policy.cpp:184-214 | from every reachable state an enabled holder that reads a completion waits for a retry, with the event pending, if and only if the cause is none of the sixteen listed; after a permanent reject, a normal or a calling-only cause it is idle and nothing else changes |
| HandlerReactions.ChangeEffect | services/src/cellular_data_handler.cpp:1062-1109 | after a completion for a change the next enabled holder by rank is asked for if everybody is quiet |
| HandlerReactions.ClearReconnects | services/src/cellular_data_handler.cpp:1137-1144 | after a completion for a clear everybody is tried again |
| HandlerReactions.DisabledEffect | services/src/cellular_data_handler.cpp:1089-1105 | a disabled holder's completion leaves it idle without a retry |
| HandlerObject.CellularDataHandler.RetryOrClearConnection | services/src/cellular_data_handler.cpp:1131-1159 | the reaction to each decoded reason |
| HandlerObject.CellularDataHandler.RetryToSetupDatacall | services/src/cellular_data_handler.cpp:1174-1187 | one retry event is consumed, and a retrying holder is idle again with an establish event posted |
| HandlerReactions.RetryReconnects | services/src/cellular_data_handler.cpp:1174-1187 | a retry event and the establish event it posts use up one retry and end with a machine if and only if nothing hinders the holder |
| HandlerObject.CellularDataHandler.HandleApnChanged | services/src/cellular_data_handler.cpp:1907-1930 | connections are cleared if required, every retrying holder is reset with all retry events, and every holder is asked for again |
| HandlerObject.CellularDataHandler.OnRilAdapterHostDied | services/src/cellular_data_handler.cpp:2642-2657 | every machine of the pool gets the notice once |
| HandlerReactions.HostDeathEffect | services/src/cellular_data_handler.cpp:2642-2657 | every machine gets the notice once, behind all it has queued, and nothing else changes |
| HandlerReactions.LossGoesByIndex | services/src/data_connection_manager.cpp:219-250 | a machine is told that its call ended if and only if the index lists it under an ended cid, with that call's result |
| StateMachineFramework.NoDeferredEventLost | services/include/state_machine/state_machine.h:78-163 | over any run of any states, events posted again and events waiting are the events deferred, once each and in order, and the handler rests in its target |
| StateMachineFramework.MachineFollowsRules | services/src/state_machine/default.cpp:58-72 | every event of the connection machine is one step of the framework |
| StateMachineFramework.MachineLosesNothing | services/src/state_machine/default.cpp:58-88 | over any run of dispatches, timers and arrivals the events a machine defers are dispatched again once and in order, or still wait |
| TypeList.SplitLoop | services/src/utils/cellular_data_utils.cpp:92-109 | the splitting loop returns the pieces of the specification for every input and non-empty separator |
| TypeList.JoinUndoesSplit | services/src/utils/cellular_data_utils.cpp:92-109 | no piece contains the separator, and joining gives the input back up to one trailing separator |
| TypeList.CanDealWithType | services/src/apn_manager/apn_item.cpp:39-54 | true exactly when some listed type serves the asked one, by name, as default for internal_default, or as wildcard except for ia |
| TypeList.ServesExactly | services/src/apn_manager/apn_item.cpp:39-54 | an entry serves its own name in any case, the wildcard serves all but ia, and default serves internal_default, and nothing else is served |
| TypeList.ConcatServesBoth | services/src/apn_manager/apn_manager.cpp:719 | for a non-empty type, a concatenated list serves exactly what either list serves |
| TypeList.EmptyTypeIsLost | services/src/utils/cellular_data_utils.cpp:101-107 | for the empty type that fails |
| TypeList.TokensOfConcat | services/src/apn_manager/apn_manager.cpp:719 | the non-empty tokens of a concatenated list are those of both lists |
| TypeList.CarriesConcat | services/src/apn_manager/apn_item.cpp:152-155 | a concatenated list contains the word default exactly when one of the two does |
| ApnManagers.ApnManager.MergePdpProfile | services/src/apn_manager/apn_manager.cpp:714-734 | the two entries and the preferred id after one in-place merge; nothing else changes |
| ApnManagers.ApnManager.AbsorbSimilar | services/src/apn_manager/apn_manager.cpp:703-708 | one row of the in-place pass, consumed entries included |
| ApnManagers.ApnManager.TryMergeSimilarPdpProfile | services/src/apn_manager/apn_manager.cpp:695-712 | the in-place pass returns the kept profiles and the preferred id of the specification |
| MergeTheorems.MergeCoversEveryInput | services/src/apn_manager/apn_manager.cpp:695-734 | every input with a valid id has a kept profile with equal apn and mvno fields, all its type tokens, protocols at least as wide, and its proxy, home and mms values |
| MergeTheorems.MergeKeepsDefaults | services/src/apn_manager/apn_item.cpp:150-165 | the number of default profiles is unchanged and every kept id is valid |
| MergeTheorems.PreferenceSurvives | services/src/apn_manager/apn_manager.cpp:728-731 | with distinct valid ids the preferred id names a kept profile that covers the preferred input, and kept ids stay distinct |
| MergeTheorems.PreferenceInvented | services/src/apn_manager/apn_manager.cpp:703-708 | for every list, a pass without a preference ends with one exactly when some row meets a consumed similar entry |
| MergeGroups.PreferenceInventedByInput | services/src/apn_manager/apn_manager.cpp:695-734 | for every list whose entries of one APN and MVNO are pairwise similar but for the word default, a pass without a preference ends with one if and only if a group lists two default entries and behind them one without |
| MergeSurvivors.SurvivorsAreDissimilar | services/src/apn_manager/apn_manager.cpp:695-712 | for every list in which no APN and MVNO shows IP, IPV6 and IPV4V6 together, at home or in roaming, no two kept profiles are similar |
| MergeSurvivors.ClashFreeSurvivors | services/src/apn_manager/apn_item.cpp:167-173 | a pass that never passes over an entry because one is IP and the other IPV6, in a group that knows IPV4V6, keeps no two similar profiles |
| MergeStraddle.SimilarSurviveWhen | services/src/apn_manager/apn_manager.cpp:695-734 | for every list whose groups differ in one protocol only and have at most one default entry, two kept profiles are similar if and only if some group has an IP and an IPV6 entry and its first IPV4V6 behind both |
| MergeStraddle.SampleStraddled | services/src/apn_manager/apn_item.cpp:150-173 | the list with similar survivors meets those hypotheses, is straddled, shows all three protocols and is not pairwise similar |
| MergeGroups.OrdinaryListInventsPreference | services/src/apn_manager/apn_manager.cpp:728-731 | two default profiles and an MMS profile on one APN, all else equal, end with an invented preference |
| MergeTheorems.SimilarSurvivorsAndInventedPreference | services/src/apn_manager/apn_manager.cpp:695-734 | three profiles of disagreeing protocols whose merge leaves two similar ones and an invented preference |
| MergeTheorems.NothingSimilarNothingChanged | services/src/apn_manager/apn_manager.cpp:695-712 | without similar pairs the pass returns its input |
| MergeTheorems.CoverServes | services/src/apn_manager/apn_item.cpp:39-54 | a covering profile serves every type the covered one serves |
| ApnManagers.ApnManager.MakeSpecificApnItem | services/src/apn_manager/apn_manager.cpp:434-462 | the item list: merged, typed, length-checked, preferred item first |
| ItemOrigins.ListedItems | services/src/apn_manager/apn_item.cpp:82-148 | every listed item has the id, name, network, credentials and flags of one input profile, protocols at least as wide, serves all its types, and stays within fields of 256 characters |
| ItemOrigins.ListedExactly | services/src/apn_manager/apn_manager.cpp:434-462 | a kept profile is listed if and only if every string of its item stays within 256 characters |
| ItemOrigins.KeptOrigins | services/src/apn_manager/apn_manager.cpp:714-734 | every kept profile has id and credentials of one input profile that it covers, and all its types come from profiles of its APN |
| ItemOrigins.UntypedServesDefault | services/src/apn_manager/apn_manager.cpp:438-447 | a preferred profile without types becomes a default item; any other keeps its types |
| ApnManagers.ApnManager.GetRilAttachApn | services/src/apn_manager/apn_manager.cpp:580-606 | the attach item of the specification for every item list |
| ApnSelection.PreferenceEndToEnd | services/src/apn_manager/apn_manager.cpp:434-606 | the preferred profile's heir serves all its types, leads the list and is the attach item if and only if it fits its fields |
| ApnSelection.OthersKeepOrder | services/src/apn_manager/apn_manager.cpp:453-460 | moving the preferred item to the front loses nothing and keeps all others in order |
| ApnSelection.PreferredIsListed | services/src/apn_manager/apn_manager.cpp:438-452 | with distinct ids the preferred item is in the list exactly when its profile fits |
| ApnSelection.MergedFits | services/src/apn_manager/apn_item.cpp:82-148 | merging two profiles that fit gives one that fits exactly when both type lists and the comma do |
| ApnSelection.MergeCanRefuseBoth | services/src/apn_manager/apn_manager.cpp:434-452 | two profiles that fit on their own and of which, merged, none is listed |
| ApnSelection.AttachWithoutPreference | services/src/apn_manager/apn_manager.cpp:591-605 | without a preference the attach item is the first for initial attach, failing that the first default one, failing that the first |
| RetryPolicy.Next | services/src/apn_manager/connection_retry_policy.cpp:59-78 | the search ends on every list and position, finds nothing exactly when all APNs are bad, and never returns a bad one |
| RetryPolicy.ConnectionRetryPolicy.GetNextRetryApnItem | services/src/apn_manager/connection_retry_policy.cpp:59-78 | the recursive search ends by its measure and leaves position and counter as specified |
| RetryPolicy.ConnectionRetryPolicy.SetMatchedApns | services/src/apn_manager/connection_retry_policy.cpp:80-99 | the position restarts exactly when length or ids differ |
| RetryPolicy.Rotation | services/src/apn_manager/connection_retry_policy.cpp:59-99 | through any refreshes that keep ids and bad flags, call k answers usable APN number (k / 5) mod their count |
| RetryPolicy.CounterOutlivesList | services/src/apn_manager/connection_retry_policy.cpp:80-99 | a new list restarts the position but keeps the counter, and its first APN is tried next exactly when tries are left |
| RecoveryMonitor.RadioOffIsFourth | services/src/data_connection_monitor.cpp:149-197 | in every run radio off comes only right after context list, clean-up and re-registration with no reset between |
| RecoveryMonitor.OneTimerWhileEnabled | services/src/data_connection_monitor.cpp:77-122 | between events one stall event waits if detection is on, none if it is off |
| RecoveryMonitor.RungCountsRecoveries | services/src/data_connection_monitor.cpp:124-197 | after every run the rung is the number of recovery actions since the last reset, modulo four |
| StallRuns.TickRecovers | services/src/data_connection_monitor.cpp:91-147 | in every run a tick recovers if and only if detection is on and more than ten packets have gone unanswered since the last reply or started recovery, this tick's included, or the ladder stands on its last rung with nothing connected; then it takes the ladder's next action, or falls back during a call; a reply falls back too |
| StallRuns.OthersAct | services/src/data_connection_monitor.cpp:319-333 | of all other events only the verdict acts, by a recovery or a fall-back |
| StallRuns.DetectionExactly | services/src/data_connection_monitor.cpp:34-122 | which event switches detection on or off, over every run, clean-ups of the ladder included |
| StallRuns.FirstBurst | services/src/data_connection_monitor.cpp:102-107 | the first tick asks for the context list exactly if more than ten packets went unanswered |
| RecoveryMonitor.DataConnectionMonitor.OnStallDetectionTimer | services/src/data_connection_monitor.cpp:91-115 | one tick: flow, trigger, recovery, rearming |
| RecoveryMonitor.DataConnectionMonitor.HandleRecovery | services/src/data_connection_monitor.cpp:149-197 | one recovery step from each rung, with the clean-up stopping the timer |
| RecoveryMonitor.DataConnectionMonitor.IsNeedDoRecovery | services/src/data_connection_monitor.cpp:319-333 | recovery or reset by verdict, then rearming |
| RecoveryMonitor.DataConnectionMonitor.HandleScreenStateChanged | services/src/data_connection_monitor.cpp:34-46 | a screen change on the watched slot restarts detection |
| IncallMachine.SecondaryActiveIsReal | services/src/state_machine/incall_data_state_machine.cpp:187-190 | after every run the machine's record and the event handler agree on being secondary-active |
| IncallMachine.LeavingRestoresPrimary | services/src/state_machine/incall_data_state_machine.cpp:374-415 | in every run each event that ends secondary-active leaves the default slot on the primary card |
| IncallMachine.RecordDiverges | services/src/state_machine/incall_data_state_machine.cpp:483-504 | record and handler differ after such an event exactly when the slot had to move and nothing was connected; then no completion is sent |
| IncallMachine.RecordCanDiverge | services/src/state_machine/incall_data_state_machine.cpp:483-504 | a run that ends with record and handler apart, the call over and no completion sent |
| IncallMachine.EntersExactly | services/src/state_machine/incall_data_state_machine.cpp:251-335 | in every run an event enters secondary-active if and only if the machine is idle, the event is a call start, a settings or a stand-by change, the secondary card is ready and the wanted slot is not the default one; then it becomes the default one |
| IncallMachine.MovesExactly | services/src/state_machine/incall_data_state_machine.cpp:374-535 | in every run: which events leave secondary-active, complete the activation or end the deactivation, and exactly when the completion message is sent |
| IncallMachine.IncallDataStateMachine.ProcessEvent | services/include/state_machine/state_machine.h:78-150 | one event takes the object where the step function says, including a target changed by entry code |
| IncallMachine.IncallDataStateMachine.IsSecondaryActiveState | services/src/state_machine/incall_data_state_machine.cpp:187-190 | the answer is whether the record is secondary-active, which SecondaryActiveIsReal relates to the event handler |

## Left out

- MSG_SM_DISCONNECT_ALL, MSG_SM_DRS_OR_RAT_CHANGED, MSG_GET_RIL_BANDWIDTH and MSG_SM_GET_LAST_FAIL_DONE at a connection machine: nothing in the modelled code sends them.
- The count of channel-data errors that restarts the radio after five failures, and restarting the radio on certain causes.
- Wrap-around of the 32-bit generation counter and of packet counts.
- Retry delays, back-off values and stall periods: only that a timer is pending matters here.
- Reuse of an active connection by a second capability beyond dropping the second request.
- The hand-over flag: whether the clean-up after a hand-over is refused is an input of each clear-all.
- DeInit and a second Init of the in-call machine, the DSDS event it removes on call end, and failures of setting the default slot.
- Network information, DNS, routes, MTU, bandwidth, TCP buffers, network slicing: field copying.
- IPC, bindings, permissions, databases, settings observers, notifications, logging and tracing.
- MMS data permission, virtual SIM, power saving and per-slot permission messages.
- Real threads inside one handler, and locks.
- Strings with embedded NUL characters, for which the C string copies stop early.
- ConnectionObject.CellularDataStateMachine.DoConnect: the early returns for a missing holder or APN item are not modelled, because the handler stores a non-null item in the holder before it queues the connect.
- MergeTheorems.PreferenceInvented: its condition is computed along the pass; for lists whose groups are pairwise similar but for the word default MergeGroups.PreferenceInventedByInput gives it on the input, for other lists no input-level form is stated.
- MergeSurvivors.SurvivorsAreDissimilar: one way only; the if-and-only-if is MergeStraddle.SimilarSurviveWhen, for lists whose groups differ in one protocol only and have at most one default entry. Several default entries or differing values keep apart some entries of a straddled group and not others.
- TypeList.SplitLoop: an empty separator is excluded, because on a non-empty input the original loop then never ends.
- HandlerObject.CellularDataHandler.OnRilAdapterHostDied: machines are pool values named by index, not references shared with the connection manager.
