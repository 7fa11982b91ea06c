# Eggtunnel: verified model

A Dafny model of the parts of Eggtunnel where several things change at once: the registration
protocol between a client Session and a server Session, the client's registration store over its
whole life, the server's pending table and shared counters under concurrent tasks, the Session
registry and shutdown drain, the authentication limiter, the frame codec and its reader, and the
reconnect backoff.

`dafny verify dfyconfig.toml` checks everything.

## How the model is laid out

| file | what it holds |
|---|---|
| `Wire`, `ServiceStore`, `ServiceStoreProofs` | protocol values; the client registration store as a value, its invariants, and what each operation keeps and conserves |
| `ServiceState` | the store as the mutable object it is in the client, each method proved against the value operation of the same name |
| `ReadyLoop`, `ClientLife`, `ClientLifeProofs`, `ClientHistory` | the handlers of the client's ready loop; any number of Sessions as a step machine; invariants of every run |
| `StoreExact`, `ClientExact`, `ClientSteps` | exactly when the store accepts, refuses, tells and goes on; that nobody waits for ever, that binds shown were acknowledged, and what each way of ending a Session does |
| `ServerControl`, `Protocol`, `Ledger` | one server Session's table; both parties joined by two in-order queues; a ledger of requests, rulings and fates kept beside them |
| `ProtocolProofs`, `Situations`, `LegacyReplies`, `Agreement` | what each handler does; the edges along which every Service moves; the counting argument of the legacy mode; what the parties agree on at quiescence |
| `Callers`, `Witnesses`, `Progress` | whose ruling each caller hears; runs in which writes are lost or a refusal goes astray; that a Session gets ready and that registrations and withdrawals are carried out |
| `Pending`, `DataPlane`, `DataPlaneProofs` | the pending table and its locked sections; accepting, relaying, claiming and teardown as interleaved steps |
| `DataPlaneHistory`, `DataPlaneProgress` | every stream traced back to the steps that earned it; what an accepted connection comes to |
| `Accounts`, `AccountsProofs`, `AccountsHistory`, `Tally` | the services counter and bind table shared by all Sessions, and where their entries come from |
| `Registry`, `RegistryProofs`, `RegistryProgress` | Session registry, guards, and the drain loop |
| `Throttle`, `ThrottleProofs` | the sliding-window limiter and the full log it stands for |
| `Capabilities`, `Postcard`, `Frames`, `FrameProofs`, `Reader` | capability sets, the wire encoding, frames, and reading a message from a chunked stream |
| `Grammar`, `FrameExact` | the wire layout as a grammar of byte strings, and the codec measured against it byte by byte |
| `Reconnect` | backoff, jitter, and validation of the configured Services |

Conventions. A reply channel is a number and `answers` records everything sent on it, so "answered
exactly once" can be said. Time is a natural number that a step supplies. A section of code that
holds a lock, and a stretch between two awaits, is one step; wherever two shared accesses of one
task can be separated by another thread (a bind pushed and then counted, a guard counted off and
then removed) they are two steps. Random identifiers are assumed never to repeat;
`RepeatBreaksTheCount` shows that the pending counter needs exactly that. Which bytes are UTF-8, a
valid host or a valid diagnostic is a parameter of the codec.

## What was found

- The pending table's documentation says every removal path returns the counter to zero; that holds,
  in every interleaving (`CounterIsExact`).
- Agreement at quiescence needs no assumption about lost writes. Lost withdrawals and lost
  registrations do no harm to it; a lost registration only leaves a tombstone
  (`LostRequestLeavesATombstone`). The one write that matters is the best-effort unregistration
  after an acknowledgement nobody wants: the server has exactly the client's Services and those
  stranded by such a loss, so the parties agree if and only if nothing is stranded
  (`QuiescentPartiesAgree`). The disagreement lasts until an unregistration of that Service arrives,
  which a later withdrawal brings about (`LostCleanupStrandsAService`).
- A reply can reach the wrong caller. A generic error does not say what it answers and is taken by
  whatever is pending; after a withdrawal and a second registration the second caller can be told
  that it was refused while the server has its Service (`RefusalReachesTheWrongCaller`).
  `CallersHearRulings` gives the exact condition, in both modes: a caller hears the ruling on its own
  registration if and only if one reply is still due.
- The drain visits every live Session, but visiting is not telling. A Session visited before its
  control queue is set is never visited again and never gets a Drain message. `QueuedAtTheVisit`
  gives the exact condition and `VisitedTooEarly` a run.
- The comment on the Session record says the control loop holds the only strong reference. Service
  and relay tasks hold one too, so a record can outlive its guard; the model follows the code.
- Nothing of an earlier Session is ever outstanding in a later one, so no acknowledgement is ever
  judged stale. A rejection is, exactly when its Service has a tombstone, and that tombstone is of
  the running Session (`StaleExactlyForTombstones`, `LateRejectIsStale`).
- Of the reader's defensive branches, the one for a header that is already a whole frame, the second
  length check and the comparison of the bytes consumed cannot be reached; `Stream.ReadMessage`
  proves all three.

## Model

| member | source | states |
|---|---|---|
| `Agreement.QuiescentPartiesAgree` | crates/eggtunnel/src/client.rs:914-986 | for every run, whatever writes are lost: ready, up and nothing in flight means nothing is unanswered, the active map is the desired list, and the server has exactly the active Services, under their names, and the stranded ones; so the parties agree if and only if nothing is stranded, and only a lost request leaves a tombstone |
| `Agreement.QuiescentWhileRegistering` | crates/eggtunnel/src/client.rs:766-794 | before the Session is ready, with nothing in flight: no initial registration is unanswered and the server has exactly those acknowledged so far, under their names |
| `Agreement.ArrivingWritesAgree` | crates/eggtunnel/src/client.rs:1000-1085 | if clean-ups and registrations arrive, and even if withdrawals do not, both sides have the same ids and no tombstone is left |
| `Agreement.EveryRunHolds` | crates/eggtunnel/src/server/control.rs:192-218 | every state of every run keeps shape, ledger, the two facts about each Service and, in legacy mode, the accounting of replies |
| `Situations.StepNext` | crates/eggtunnel/src/client.rs:850-1085 | whatever the handler and whatever is lost, each Service moves along one of nine edges relating its status at the client, the two queues, the server's table and the ledger |
| `Situations.NextPinned` | crates/eggtunnel/src/server/control.rs:192-218 | no edge leaves the server with a Service that is neither live at the client, nor about to be acknowledged or unregistered, nor stranded |
| `Situations.NextSettling` | crates/eggtunnel/src/client/service_state.rs:175-300 | in correlated mode no edge leaves a live Service without a reply due missing from the server, a waiting one without a reply due, or a tombstone without one unless its request was lost |
| `Situations.RulingAnswered` | crates/eggtunnel/src/server/control.rs:312-480 | every registration is answered; the answer carries the bind, or a code the client reads as full, taken or not authorised according to the Services the server had; the table grows exactly when granted |
| `LegacyReplies.StepAccounted` | crates/eggtunnel/src/client.rs:938-1085 | each handler keeps the legacy accounting, whatever is lost: at least as many replies owed as places awaiting one, and the Session can only end or every Service is in a situation from which both sides converge |
| `Callers.CallersHearRulings` | crates/eggtunnel/src/client.rs:914-986 | for every run: a reply that settles a transaction tells its caller, once, the ruling on the request it belongs to, as the bind or the right reason; that request is the caller's own if and only if one reply is still due, of all in legacy mode and about the Service in correlated mode |
| `Callers.UndoomedCallersHearTheirOwn` | crates/eggtunnel/src/client/service_state.rs:301-305 | in a legacy Session that is not doomed every settled caller hears the ruling on its own request |
| `Callers.StepInOrder` | crates/eggtunnel/src/server/control.rs:182-258 | requests are ruled on, and rulings read, in the order asked, each reply carrying the ruling on its own request |
| `Callers.StepOwned` | crates/eggtunnel/src/client/service_state.rs:175-255 | every outstanding transaction belongs to the latest request for its Service, in legacy mode to the latest of all |
| `Witnesses.RefusalReachesTheWrongCaller` | crates/eggtunnel/src/client.rs:938-954 | a run, for any two Services: the first is withdrawn and refused, the second granted, and the second's caller is told it was refused |
| `Witnesses.LostCleanupStrandsAService` | crates/eggtunnel/src/client.rs:914-937 | a run in which one lost clean-up strands a Service on the server, and its continuation in which a withdrawal that arrives removes it |
| `Witnesses.LostRequestLeavesATombstone` | crates/eggtunnel/src/client.rs:1042-1051 | a run in which a lost registration leaves only a tombstone, both sides being without the Service |
| `Progress.RegistrationIsAnswered` | crates/eggtunnel/src/client.rs:914-1069 | after any run that leaves a ready Session quiet, submitting, ruling and reading settle a new Service: its caller hears the address if and only if the server has room, has neither id nor name and can listen, and otherwise full, existing or not authorised; exactly then do both parties have it, and the Session is ready and quiet again |
| `Progress.WithdrawalIsCarriedOut` | crates/eggtunnel/src/server/control.rs:208-218 | from a quiet ready Session a withdrawal and its receipt take the Service, and only it, from both parties |
| `Progress.SessionGetsReady` | crates/eggtunnel/src/client.rs:764-812 | if the configured Services fit under the server's limit and can all listen, registering them one by one makes the Session ready, with all of them active, at the server under their names, and bound to the address of their own listener |
| `Progress.ServerGoesOn` | crates/eggtunnel/src/server/control.rs:182-258 | the server answers a Ping with the same number, ignores a refused open, and goes on after no other message than those and the two about Services |
| `ProtocolProofs.RegisterEffect` | crates/eggtunnel/src/client.rs:1000-1069 | a registration command changes no Service's standing, or loses a place, or opens exactly one place for the one reply it will cause, or in correlated mode was lost |
| `ProtocolProofs.RegisterFades` | crates/eggtunnel/src/client.rs:1000-1069 | Service by Service: the command asks for its own Service, or only forgets and buries, and buries what nobody waited for only when its write was lost |
| `ProtocolProofs.AckEffect` | crates/eggtunnel/src/client.rs:914-937 | an acknowledgement that goes on frees exactly its own place: the Service becomes live, or is forgotten and the clean-up sent unless that write is lost |
| `ProtocolProofs.UnregisterFades` | crates/eggtunnel/src/client/service_state.rs:322-351 | Service by Service: the one withdrawn is forgotten or buried, others are at most forgotten |
| `ProtocolProofs.RejectEffect` | crates/eggtunnel/src/client.rs:955-986 | a correlated rejection frees exactly the place it names, or ends the Session |
| `ProtocolProofs.ErrorEffect` | crates/eggtunnel/src/client.rs:938-954 | a generic error frees the legacy slot if it is taken and otherwise ends the Session |
| `ProtocolProofs.UnregisterEffect` | crates/eggtunnel/src/client.rs:1070-1085 | an unregistration leaves the Service nowhere but in at most one tombstone, and disturbs no other |
| `ProtocolProofs.ExpireEffect` | crates/eggtunnel/src/client.rs:850-868 | a sweep that goes on has only taken places away |
| `ServerControl.RegisterMeaning` | crates/eggtunnel/src/server/control.rs:295-480 | a registration keeps the name set equal to the table's names and the table within its ceiling; the answer is an acknowledgement exactly when there is room, id and name are free and a listener was had, which is exactly when the table changes; the acknowledgement carries that listener's address; otherwise it is the refusal form that was negotiated, with code 5 when full, 1 when taken, 2 when the bind is not allowed and 3 when listening failed |
| `ServerControl.InsertedConsistent` | crates/eggtunnel/src/server/control.rs:421-428 | inserting a new id under a new name keeps names and ids in step |
| `ServerControl.RemovedConsistent` | crates/eggtunnel/src/server/control.rs:208-218 | removing an id frees exactly its name |
| `ClientHistory.ClientLifeHolds` | crates/eggtunnel/src/client.rs:697-1130 | from every configuration validation admits, through any Sessions, disconnects and commands: store shape, caller conservation, generation, history and limit all hold |
| `ClientLifeProofs.EveryRunSound` | crates/eggtunnel/src/client/service_state.rs:93-371 | in every run ids of desired, outstanding and buried Services are disjoint, names unique, each mode uses only its own slot, bounds hold, and every accepted reply is held by one transaction or has been answered or dropped once |
| `ClientLifeProofs.EveryRunCurrent` | crates/eggtunnel/src/client.rs:749-760 | while a Session runs, every transaction and tombstone carries its generation |
| `ClientLifeProofs.StaleExactlyForTombstones` | crates/eggtunnel/src/client/service_state.rs:256-300 | in a ready Session, whatever came before: no acknowledgement is judged stale, a rejection is judged stale if and only if its Service has a tombstone, and what commits was begun by this Session |
| `ClientLifeProofs.LateRejectIsStale` | crates/eggtunnel/src/client/service_state.rs:284-300 | a run in which a rejection of the running Session is judged stale, after its registration's write ran out of budget |
| `ClientLifeProofs.EveryRunWithinLimit` | crates/eggtunnel/src/client.rs:1000-1020 | desired plus unacknowledged Services never exceed the per-Session limit over the client's whole life |
| `ClientHistory.EveryRunFaithful` | crates/eggtunnel/src/client.rs:1109-1146 | the desired list is the configured list and the acknowledged Services in order, minus every id unregistered since; in a ready Session the active map, the bind table and the counter all show it |
| `ClientHistory.UnregisterTabled` | crates/eggtunnel/src/client.rs:1070-1085 | unregistering in a ready Session takes the Service out of the list, the active map, the bind table and the counter together |
| `ClientHistory.AckTabled` | crates/eggtunnel/src/client.rs:914-937 | committing puts the Service in all four together |
| `ServiceStoreProofs.BeginKeeps` | crates/eggtunnel/src/client/service_state.rs:175-232 | beginning keeps ids and names claimed once, the mode's slot discipline and its ceiling, refused or not |
| `ServiceStoreProofs.AckKeeps` | crates/eggtunnel/src/client/service_state.rs:256-283 | an acknowledgement keeps the shape, including when it commits |
| `ServiceStoreProofs.RejectKeeps` | crates/eggtunnel/src/client/service_state.rs:284-300 | a rejection keeps the shape |
| `ServiceStoreProofs.UnregisterKeeps` | crates/eggtunnel/src/client/service_state.rs:322-351 | an unregistration keeps the shape, tombstones included |
| `ServiceStoreProofs.AbandonKeeps` | crates/eggtunnel/src/client/service_state.rs:310-321 | abandoning keeps the shape and the tombstone bound |
| `ServiceStoreProofs.SetModeConserves` | crates/eggtunnel/src/client/service_state.rs:93-97 | switching to a new Session answers everyone still waiting and leaves nobody held |
| `ServiceStoreProofs.FinishConserves` | crates/eggtunnel/src/client/service_state.rs:359-371 | so does finishing a Session |
| `ServiceStoreProofs.BeginConserves` | crates/eggtunnel/src/client/service_state.rs:175-232 | a new reply is held exactly once if accepted, answered exactly once if refused |
| `ServiceStoreProofs.AckConserves` | crates/eggtunnel/src/client/service_state.rs:256-283 | the reply of the transaction taken is settled once and no other is touched |
| `ServiceStoreProofs.UnregisterConserves` | crates/eggtunnel/src/client/service_state.rs:322-351 | the reply of a cancelled transaction is settled once |
| `ServiceStoreProofs.ExpiryRemovesTheOverdue` | crates/eggtunnel/src/client/service_state.rs:143-174 | a sweep removes exactly the transactions due by now and leaves every other as it was |
| `ServiceStoreProofs.ExpiryAdvancesTheDeadline` | crates/eggtunnel/src/client/service_state.rs:132-174 | the deadlines left are exactly those after now, so the deadline arm cannot spin |
| `ServiceStoreProofs.ExpiryAnswersTheOverdue` | crates/eggtunnel/src/client/service_state.rs:143-174 | each caller still waiting on an overdue transaction is sent one Timeout, nobody else anything |
| `RegistrationState.ServiceState.constructor` | crates/eggtunnel/src/client/service_state.rs:78-87 | the store starts in legacy mode with only the configured list |
| `RegistrationState.ServiceState.SetMode` | crates/eggtunnel/src/client/service_state.rs:93-97 | everyone still waiting is answered Disconnected, slots and tombstones are emptied, and the new mode is set |
| `RegistrationState.ServiceState.ActivateInitial` | crates/eggtunnel/src/client/service_state.rs:106-113 | the active map becomes the desired list by id |
| `RegistrationState.ServiceState.NextDeadline` | crates/eggtunnel/src/client/service_state.rs:132-139 | the earliest armed deadline over both modes, or none when none is armed |
| `RegistrationState.ServiceState.ExpireOverdue` | crates/eggtunnel/src/client/service_state.rs:143-174 | the loops take out exactly the overdue transactions, answer each waiting caller Timeout, and say whether the legacy slot was among them or how many others |
| `RegistrationState.ServiceState.Begin` | crates/eggtunnel/src/client/service_state.rs:175-232 | refuses an id or name already desired or outstanding; otherwise drops the id's tombstone and, if the mode's ceiling allows, opens a transaction holding the caller's channel (when and with which error: `BeginDecides`) |
| `RegistrationState.ServiceState.TakeTransaction` | crates/eggtunnel/src/client/service_state.rs:233-255 | takes the legacy slot if it is for this id, or else the in-flight transaction under it, and nothing if the slot is for another id |
| `RegistrationState.ServiceState.TakeAck` | crates/eggtunnel/src/client/service_state.rs:256-283 | commits a transaction whose caller still listens, drops one whose caller has gone, consumes a tombstone, and otherwise reports the acknowledgement unexpected |
| `RegistrationState.ServiceState.TakeReject` | crates/eggtunnel/src/client/service_state.rs:284-300 | hands back the caller's channel of the transaction taken, consumes a tombstone as stale, and otherwise reports the rejection unknown |
| `RegistrationState.ServiceState.TakePending` | crates/eggtunnel/src/client/service_state.rs:301-305 | empties the legacy slot and returns what it held |
| `RegistrationState.ServiceState.Abandon` | crates/eggtunnel/src/client/service_state.rs:310-321 | the in-flight transaction is answered Timeout and replaced by a tombstone, the tombstones being emptied first when they are full |
| `RegistrationState.ServiceState.Unregister` | crates/eggtunnel/src/client/service_state.rs:322-351 | the id leaves the desired list, the active map and either slot, its waiting caller is answered Cancelled, a tombstone is left for the legacy slot only, and the result says whether it was active |
| `RegistrationState.ServiceState.CommitService` | crates/eggtunnel/src/client/service_state.rs:352-355 | the Service joins the desired list and the active map |
| `RegistrationState.ServiceState.ClearActive` | crates/eggtunnel/src/client/service_state.rs:356-358 | only the active map is emptied |
| `RegistrationState.ServiceState.FinishPending` | crates/eggtunnel/src/client/service_state.rs:359-371 | the answering loop settles every waiting caller once |
| `RegistrationState.ServiceState.Arm` | crates/eggtunnel/src/client.rs:1055-1069 | the deadline of the transaction just written is armed, in its mode's slot (what that comes to: `ArmSets`, `NobodyWaitsForEver`) |
| `RegistrationState.ServiceState.DisarmPending` | crates/eggtunnel/src/client.rs:1035-1041 | a legacy write that ran out of budget answers its caller once and keeps the slot |
| `StoreExact.BeginDecides` | crates/eggtunnel/src/client/service_state.rs:175-232 | refused as existing exactly if a desired or outstanding Service has the id or the name, as exhausted exactly if otherwise the legacy slot is taken or the larger of one and the ceiling are in flight, and accepted in every other case |
| `StoreExact.BeginOpens` | crates/eggtunnel/src/client/service_state.rs:175-232 | what is accepted is outstanding under its id with its caller and no deadline yet; no other transaction, and nothing else but its own tombstone, changes |
| `StoreExact.RegisterAsks` | crates/eggtunnel/src/client.rs:1021-1069 | a registration that gets through is sent with all four fields; written, its transaction carries exactly the deadline given and every other is as before; out of budget, it ends a legacy Session and leaves a tombstone in a correlated one |
| `StoreExact.RegisterTurnsAway` | crates/eggtunnel/src/client.rs:1000-1013 | at the limit the caller is told so, and a caller that has gone is dropped, before the store is asked |
| `StoreExact.RegisterRefuses` | crates/eggtunnel/src/client.rs:1014-1021 | a refused caller is told which of the two refusals it was, and nothing is sent |
| `StoreExact.ArmSets` | crates/eggtunnel/src/client.rs:1053-1068 | arming sets the deadline of that transaction and of no other, in both modes |
| `StoreExact.FinishTells` | crates/eggtunnel/src/client/service_state.rs:359-371 | finishing sends every waiting caller the one error, transport and protocol faults as a disconnection, and nobody else anything |
| `StoreExact.SwitchTells` | crates/eggtunnel/src/client/service_state.rs:93-97 | a new Session's mode tells whoever still waits Disconnected and keeps the desired list |
| `StoreExact.AbandonTells` | crates/eggtunnel/src/client/service_state.rs:310-321 | abandoning tells the caller of that transaction Timeout and nobody else anything |
| `StoreExact.UnregisterTells` | crates/eggtunnel/src/client/service_state.rs:322-351 | withdrawing tells the caller of that Service's transaction, in either mode, Cancelled and nobody else anything |
| `StoreExact.LegacyTimeoutTells` | crates/eggtunnel/src/client.rs:1036-1041 | a legacy write out of budget tells its caller Timeout |
| `StoreExact.TombstonesKept` | crates/eggtunnel/src/client/service_state.rs:310-351 | below 256 every tombstone stays beside the new one; at 256 only the new one is left |
| `StoreExact.LoopGoesOn` | crates/eggtunnel/src/client.rs:869-994 | which messages the ready loop survives: an acknowledgement or a negotiated rejection of something outstanding or buried, an error while the legacy slot is taken, and open or heartbeat traffic; a drain breaks it, all else ends the Session with its own error |
| `StoreExact.OthersGoOn` | crates/eggtunnel/src/client.rs:1070-1085 | a withdrawal ends the Session only if its write fails for an active Service, and a sweep only if the legacy slot is overdue |
| `ClientExact.NobodyWaitsForEver` | crates/eggtunnel/src/client.rs:850-868 | in every run of the client, while a Session is ready every caller that waits has a deadline, and the sweep at or after it takes its transaction out and sends it one Timeout and nothing else |
| `ClientExact.BindsAreAcknowledged` | crates/eggtunnel/src/client.rs:914-934 | in every run each bind shown was acknowledged, for that Service and with that address, by an earlier step |
| `ClientExact.SessionBecomesReady` | crates/eggtunnel/src/client.rs:747-812 | from any disconnected client whose generations last, one acknowledgement for each desired Service makes the next generation ready with all of them active |
| `ClientExact.GenerationsRunOut` | crates/eggtunnel/src/common.rs:454-472 | a Session begins under the next generation exactly while the last is below the largest 64-bit number |
| `ClientSteps.HandlersEnd` | crates/eggtunnel/src/client.rs:1086-1130 | a broken loop ends the Session and tells everyone waiting, Timeout if something was overdue and otherwise Disconnected; an early return ends it and tells nobody |
| `ClientSteps.CleanEndTells` | crates/eggtunnel/src/client.rs:1109-1124 | cancelling tells everyone waiting Cancelled, a closed stream Disconnected; nothing is outstanding, buried or active afterwards and the desired list stays |
| `ClientSteps.EarlyEndTellsLater` | crates/eggtunnel/src/client.rs:752-765 | after an early end the store is untouched, and the next Session to begin tells everyone left waiting Disconnected |
| `ClientSteps.SubmitWithoutSession` | crates/eggtunnel/src/client.rs:1132-1136 | without a Session a registration is told Disconnected at once and nothing else changes |
| `ClientSteps.WithdrawnIsUnwanted` | crates/eggtunnel/src/client.rs:1137-1144 | with or without a Session a withdrawn Service leaves the desired list and every other stays |
| `Reconnect.ValidateServices` | crates/eggtunnel/src/client.rs:623-636 | accepted exactly when the Services are within the limit and no id or name repeats |
| `DataPlaneProofs.CounterIsExact` | crates/eggtunnel/src/server/service.rs:66-147 | in every interleaving the shared pending counter is the sum of all tables, is never below zero, is zero when no Session lives, and each table stays within its limit |
| `DataPlaneHistory.StreamsReachTheirOwn` | crates/eggtunnel/src/server/pending.rs:29-99 | in every interleaving no identifier is served twice; each delivery was asked for by a resolved DataHello naming the Session and the Service of the accept step that issued its identifier, with that Session's Principal, and sent before the lifetime since that accept was over; each joined pair is such a stream and the external connection of that accept, joined at most once |
| `DataPlaneHistory.IssuedByAccept` | crates/eggtunnel/src/server/service.rs:86-101 | every identifier in use was issued by an accept step of its Session, for the listener's own Service, external connection and channel, and expires the lifetime after that step |
| `DataPlaneHistory.DeliveriesWereSent` | crates/eggtunnel/src/server/pending.rs:36-99 | every delivery goes back to a resolve step of its DataHello, against a registered Session of the same Principal, and to a later send step at the recorded time |
| `DataPlaneHistory.SessionsWereConnected` | crates/eggtunnel/src/server/control.rs:146-156 | the Principal of a Session is the one it connected with |
| `DataPlaneProofs.StreamsMatchTheirIssue` | crates/eggtunnel/src/server/pending.rs:29-99 | the same against the record kept of what was issued |
| `DataPlaneProgress.AcceptedIsJoined` | crates/eggtunnel/src/server/service.rs:79-137 | after any run, a connection accepted while there is room and answered by its client at a time t is joined to the client's stream if and only if t is within the lifetime; either way tables, count and tasks are as before |
| `DataPlaneProgress.TakenAwayExactly` | crates/eggtunnel/src/server/pending.rs:60-125 | a waiting identifier goes exactly at a refused or failed open, a claim, its task's clean-up, or the removal of its Service or Session, and is otherwise unchanged; an aborted task leaves it |
| `DataPlaneProgress.TimedOutIsTakenBack` | crates/eggtunnel/src/server/service.rs:114-123 | a task that times out or is cancelled joins nothing, and its identifier and its count are taken back |
| `DataPlaneProgress.RegisteredIsResolved` | crates/eggtunnel/src/server/pending.rs:36-59 | a registered Session is resolved for exactly its own Principal |
| `DataPlaneProgress.UnregisteredIsRefused` | crates/eggtunnel/src/server/pending.rs:36-50 | a Session that has left the registry is resolved no more |
| `DataPlaneProofs.StepSound` | crates/eggtunnel/src/server/service.rs:79-146 | every step of accepting, opening, relaying, claiming, rejecting and teardown keeps all of that |
| `DataPlaneProofs.SendReaches` | crates/eggtunnel/src/server/service.rs:86-123 | the sender a claim holds leads to the relay of the identifier it claimed |
| `DataPlaneProofs.RefusedHello` | crates/eggtunnel/src/server/pending.rs:36-95 | a wrong Session or Principal changes nothing at all; a wrong Service or a late claim still costs the entry, touches no other Session and delivers nothing |
| `DataPlaneProofs.HandledIsARun` | crates/eggtunnel/src/server/pending.rs:29-99 | a DataHello handled at one go is one of the interleavings |
| `DataPlaneProofs.RepeatBreaksTheCount` | crates/eggtunnel/src/server/service.rs:91-101 | issuing keeps the count exact if and only if the identifier was not already pending |
| `Pending.SessionContext.Issue` | crates/eggtunnel/src/server/service.rs:91-101 | at the limit nothing changes but the rejection count; otherwise one entry and one count more |
| `Pending.SessionContext.Remove` | crates/eggtunnel/src/server/control.rs:219-230 | the entry goes, and the counter drops by what the table lost |
| `Pending.SessionContext.RemoveService` | crates/eggtunnel/src/server/pending.rs:103-112 | exactly the Service's entries go, and the counter drops by what the table lost |
| `Pending.SessionContext.RemoveAll` | crates/eggtunnel/src/server/pending.rs:115-125 | all entries go, and the counter drops by what the table lost |
| `Pending.AcceptDataHello` | crates/eggtunnel/src/server/pending.rs:29-99 | delivers if and only if Session, Principal, identifier, Service and time all fit, to the channel issued; every other outcome is counted once; the pending counter drops by one exactly when an entry was taken; other Sessions' tables never change |
| `AccountsProofs.AccountsAreExact` | crates/eggtunnel/src/server/session.rs:135-157 | in every interleaving of Sessions each (Session, Service) pair is in the bind table at most once and only while its guard is held, names match services, the counter is what the Sessions claim, and it differs from the table's length by exactly what Sessions between two accesses are ahead or lagging |
| `AccountsProofs.TableLeadsTheCounter` | crates/eggtunnel/src/server/control.rs:408-435 | a run in which a bind is in the table and not yet counted |
| `AccountsProofs.StepTotals` | crates/eggtunnel/src/server/control.rs:208-218 | every shared access keeps counter and table length accounted for, Session by Session |
| `AccountsProofs.SessionRemoved` | crates/eggtunnel/src/server/session.rs:142-148 | a dropped guard leaves no bind of its Session, all of everyone else's, and its removal count is the number it had |
| `AccountsProofs.ServiceRemoved` | crates/eggtunnel/src/server/control.rs:208-218 | an unregistration removes that pair's binds and no others |
| `AccountsHistory.BindsAreListeners` | crates/eggtunnel/src/server/control.rs:408-446 | every entry of the shared table is an address that a listener of that Session and Service got, at an earlier step |
| `AccountsHistory.ServiceKept` | crates/eggtunnel/src/server/control.rs:208-218 | removing a Service keeps every other entry as it is, address included, and as often |
| `AccountsHistory.SessionKept` | crates/eggtunnel/src/server/session.rs:142-148 | so does removing a Session |
| `AccountsHistory.RegisteredIsListed` | crates/eggtunnel/src/server/control.rs:408-446 | a Service that is new, fits and can listen is tabled, listed with its address and counted once |
| `AccountsHistory.WithdrawnIsGone` | crates/eggtunnel/src/server/control.rs:208-218 | a withdrawn Service leaves table, names, list and count, and no other does |
| `AccountsHistory.ClosedIsGone` | crates/eggtunnel/src/server/session.rs:135-157 | after any run, a Session that ends takes all its entries and exactly its own Services' count |
| `Accounts.ControlSession.Register` | crates/eggtunnel/src/server/control.rs:295-446 | table and answer as specified; the bind and the count are added exactly when acknowledged |
| `Accounts.ControlSession.Unregister` | crates/eggtunnel/src/server/control.rs:208-218 | table, binds and count lose exactly this Service, or nothing when it is unknown |
| `Accounts.ControlSession.DropGuard` | crates/eggtunnel/src/server/session.rs:135-157 | the bind table loses exactly this Session's entries and the counter as many |
| `RegistryProofs.SessionsWithinCeiling` | crates/eggtunnel/src/server/session.rs:85-157 | in every run each guarded Session is alive and in the registry, the registry is within the ceiling, and so the Sessions counter is too |
| `RegistryProofs.DrainMissesNobody` | crates/eggtunnel/src/server/accept.rs:79-117 | whenever the drain is blocked and unsignalled, every live registered Session has been visited or has not yet announced itself; no Session is visited twice |
| `RegistryProofs.StepMissed` | crates/eggtunnel/src/server/session.rs:85-101 | inserting before notifying, and taking an interest before enumerating, is what keeps that |
| `RegistryProofs.QueuedAtTheVisit` | crates/eggtunnel/src/server/accept.rs:92-107 | a Session ever gets a Drain message if and only if its one visit finds its queue set and with room |
| `RegistryProofs.VisitedTooEarly` | crates/eggtunnel/src/server/control.rs:157-173 | a run in which a live Session is visited before its queue is set and so is never told |
| `RegistryProgress.AdmittedExactly` | crates/eggtunnel/src/server/session.rs:85-134 | after any run, a new Session is registered and counted if and only if fewer registered Sessions than the ceiling are still alive |
| `RegistryProgress.LeavingMakesRoom` | crates/eggtunnel/src/server/session.rs:135-157 | a Session that leaves is counted off and forgotten, and no other is |
| `RegistryProgress.ReleasedMakesRoom` | crates/eggtunnel/src/server/session.rs:85-96 | a Session nobody holds takes up no room, though its entry is still there |
| `RegistryProgress.QueuedInTimeIsTold` | crates/eggtunnel/src/server/accept.rs:92-107 | a guarded Session whose queue is set before its visit, with room, is told to drain |
| `RegistryProgress.RoundIsOfTheLiving` | crates/eggtunnel/src/server/accept.rs:86-92 | a round of the drain is over exactly the registered Sessions that someone still holds |
| `RegistryProgress.NewcomerIsDrained` | crates/eggtunnel/src/server/accept.rs:79-117 | after any run, a Session that announces itself to a blocked drain is on its next round |
| `Registry.SessionRegistry.Register` | crates/eggtunnel/src/server/session.rs:85-101 | dead entries go first, then the Session enters exactly when there is room, and only then is the drain notified |
| `Registry.Visit` | crates/eggtunnel/src/server/accept.rs:92-107 | one pass visits exactly the Sessions found and not yet told, each once |
| `ThrottleProofs.LimiterIsExact` | crates/eggtunnel/src/server/auth.rs:54-104 | for any calls with non-decreasing times and a threshold of at least one, the pruned and truncated table answers as counting in the full log does, and stays within its bounds with sorted, non-empty deques |
| `ThrottleProofs.ServerLimiterIsExact` | crates/eggtunnel/src/server/auth.rs:22-24 | the same with threshold ten, a window of sixty seconds and 1024 sources |
| `ThrottleProofs.TenFailuresBlock` | crates/eggtunnel/src/server/auth.rs:54-92 | as long as no more than 1024 sources ever fail, every check is answered by whether the source has failed ten times in the last sixty seconds |
| `ThrottleProofs.PushStands` | crates/eggtunnel/src/server/auth.rs:70-92 | after a push and a trim the deque still prunes, at every later time, to the newest of the full history in the window |
| `ThrottleProofs.PruneStands` | crates/eggtunnel/src/server/auth.rs:94-104 | pruning loses nothing a later answer needs |
| `Throttle.AuthFailureLimiter.Prune` | crates/eggtunnel/src/server/auth.rs:94-104 | the nested loops leave exactly the non-empty pruned deques |
| `Throttle.AuthFailureLimiter.IsBlockedAt` | crates/eggtunnel/src/server/auth.rs:54-64 | verdict and pruned table as specified |
| `Throttle.AuthFailureLimiter.RecordFailureAt` | crates/eggtunnel/src/server/auth.rs:70-92 | the failure is pushed and the deque trimmed, or, for a new source in a full table, nothing is recorded |
| `FrameProofs.StreamRoundTrip` | crates/eggtunnel-proto/src/lib.rs:565-635 | any list of constructible messages followed by any cut-off frame decodes to that list and then asks for more |
| `FrameProofs.FrameRoundTrip` | crates/eggtunnel-proto/src/lib.rs:565-635 | encoding a constructible message never fails, and decoding returns it with the exact byte count whatever follows |
| `FrameProofs.CutFrameIsTruncated` | crates/eggtunnel-proto/src/lib.rs:583-613 | every strict prefix of a frame is truncated and nothing else |
| `FrameProofs.PayloadRoundTrip` | crates/eggtunnel-proto/src/lib.rs:515-538 | all fifteen payloads survive the wire and none exceeds 4098 bytes |
| `FrameProofs.DecodedIsConstructible` | crates/eggtunnel-proto/src/lib.rs:583-635 | whatever decodes is something the checked constructors could have built, of the announced type (what decodes at all: `DecodedExactly`) |
| `FrameProofs.NoMessageIsEmpty` | crates/eggtunnel-proto/src/lib.rs:607-634 | no message type decodes from an empty payload |
| `FrameExact.DecodedExactly` | crates/eggtunnel-proto/src/lib.rs:583-635 | for every input: a message and a length are decoded if and only if the bytes start 45 54 55 4e 00 01, bytes 8 and 9 are the number of its kind, bytes 10 to 13 are the length less fourteen, at most 1048576 and all there, and the payload spells the message, within its limits, to the last byte |
| `FrameExact.RefusedExactly` | crates/eggtunnel-proto/src/lib.rs:583-635 | for every input, which error is given: the first that applies of too short, wrong magic, other major version, unknown kind, too long, cut off, and a payload that spells no message of that kind |
| `FrameExact.PayloadExact` | crates/eggtunnel-proto/src/lib.rs:607-634 | a payload is decoded as a message exactly when it spells that message under the grammar of the layout |
| `FrameExact.EncodedBytes` | crates/eggtunnel-proto/src/lib.rs:565-579 | every frame sent starts 45 54 55 4e 00 01 00 01, then the kind's number from 1 to 15, the payload's length, and a payload that spells the message |
| `FrameExact.LimitsExact` | crates/eggtunnel-proto/src/lib.rs:99-380 | what can be constructed, in numbers: tokens up to 4096 bytes, 32 capabilities in order, names of 1 to 128 plain characters, hosts of 1 to 253 bytes and a port, diagnostics up to 256 |
| `Grammar.VarintExact` | crates/eggtunnel-proto/src/lib.rs:607-614 | an integer is taken off the front exactly where a varint of its width is spelled there, padded ones included |
| `Frames.Encode` | crates/eggtunnel-proto/src/lib.rs:565-579 | the buffer built field by field is the specified frame |
| `Capability.New` | crates/eggtunnel-proto/src/lib.rs:231-242 | refused exactly above the limit, otherwise the normalised list |
| `Capability.NormalizeMeaning` | crates/eggtunnel-proto/src/lib.rs:231-242 | a normalised list is strictly increasing and has the same members |
| `Capability.IntersectMeaning` | crates/eggtunnel-proto/src/lib.rs:253-263 | the intersection is normalised and has exactly the shared members |
| `Capability.PeersNegotiateTheSame` | crates/eggtunnel/src/client.rs:1153-1155 | whatever either side supports, client and server end with the same list |
| `Capability.NegotiatedExactly` | crates/eggtunnel-proto/src/lib.rs:246-263 | what is negotiated is what the client offered of capabilities 1 and 2 |
| `Capability.CorrelationIsShared` | crates/eggtunnel/src/client.rs:1153-1155 | both run correlated registration or neither does, and it is run exactly if the client offers capability 1 |
| `Reader.Stream.ReadMessage` | crates/eggtunnel/src/wire_io.rs:21-58 | for every stream and every chunking the outcome is that of decoding the whole stream, a transport error exactly when the bytes run out on a broken stream, and success consumes exactly one frame |
| `Reader.ReadAll` | crates/eggtunnel/src/wire_io.rs:21-58 | for every list of constructible messages and every chunking of its encoding, reading that many messages gives the list and leaves the stream empty |
| `Reader.Stream.ReadExact` | crates/eggtunnel/src/wire_io.rs:13-25 | all the bytes asked for or, by how the stream ended, truncation or transport error |
| `Reader.Stream.ReadToEnd` | crates/eggtunnel/src/wire_io.rs:40-50 | stops short only at the end of the stream |
| `Reader.HeaderNeverDecodes` | crates/eggtunnel/src/wire_io.rs:26-33 | a bare header is never a whole frame |
| `Reconnect.ReconnectSupervisor.Backoff` | crates/eggtunnel/src/client/reconnect.rs:135-154 | after k completed waits the delay is the smaller of initial times 2^k and the ceiling; a wait is exactly the delay plus the jitter in milliseconds, cut at the ceiling, and so lies between the delay and a quarter more; a cancelled wait counts for nothing |
| `Reconnect.ReconnectSupervisor.Reset` | crates/eggtunnel/src/client.rs:807-807 | a ready Session starts the delay over |
| `Reconnect.DoublingAgrees` | crates/eggtunnel/src/client/reconnect.rs:148-152 | saturating doubling under the ceiling is the closed form |
| `Reconnect.SleepInRange` | crates/eggtunnel/src/client/reconnect.rs:139-141 | jitter keeps every sleep between the delay and five quarters of it, and under the ceiling |
| `Reconnect.JitterIsUniform` | crates/eggtunnel/src/client/reconnect.rs:222-241 | of the first draws that are kept, whatever would be drawn later, each jitter from zero to the bound is yielded by the same positive number, 2^64 - 1 divided by one more than the bound |
| `Reconnect.FirstKeptDecides` | crates/eggtunnel/src/client/reconnect.rs:229-240 | after draws thrown away the next decides: kept, its remainder by one more than the bound is the jitter; not given, or none left, the bound is |
| `Reconnect.ZoneExact` | crates/eggtunnel/src/client/reconnect.rs:228-229 | draws are kept below the largest multiple of the range that fits in 64 bits |
| `Reconnect.JitterBoundExact` | crates/eggtunnel/src/client/reconnect.rs:222-226 | the bound is the largest whole number of milliseconds up to a quarter of the delay and up to 7500 |
| `Reconnect.RandomJitter` | crates/eggtunnel/src/client/reconnect.rs:222-241 | four draws in turn give the jitter so described; never above the bound |

## Left out

- TLS, QUIC, WebSocket and proxy establishment, byte relaying and PEM parsing: wrappers over libraries that are not shown.
- The bind policy and address conversion: the model takes their decision as an input of each registration.
- Host and diagnostic text rules: parameters of the codec, as they rest on the standard library's parsers.
- Heartbeat timing and round-trip times, byte and high-water counters, termination categories: easy members only.
- Command-line parsing, reports and redaction: configuration plumbing.
- Connection permits and handshake admission: semaphores whose counts follow their guards.
- The retry loop of the generation counter: its compare-exchange is one step, with exhaustion kept.
- Force-cancelling and aborting after the drain deadline: the model ends when the deadline passes.
- Memory ordering, task panics and partly written frames: shared accesses are sequentially consistent steps and a frame is written whole or not at all.
- The control loops as loops: `ReadyLoop`, `Protocol`, `ClientLife`, `DataPlane`, `Accounts` and `Registry` give their handlers as steps on values so that every interleaving can be ranged over. The objects those handlers update are modelled in place in `ServiceState`, `Pending`, `Accounts`, `Registry` and `Throttle`.
