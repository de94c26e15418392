# Delivery protocol of the realtime transcribe service, verified

The service takes transcript messages over WebSockets and delivers them to Kafka. Each
conversation is a sequence 0, 1, 2, ...; a Redis key holds the next expected number, a second
Redis key is a lease that names the one session allowed to send. A message is handled by
prepare (Lua), Kafka send, commit (Lua, an unconditional SET), cleanup (Lua) and ACK.

This project models that protocol and proves what it guarantees.

* `Protocol.dfy` is one state machine for all processes: the Redis key space, the Kafka topic,
  every handler's phase, the leases, and the effects that may still arrive late. Each script
  run, broker append and return to a handler is one action, so a list of actions is an
  interleaving of any number of handlers, crashes, lost replies, expiries and clock ticks. An
  action that is not enabled changes nothing.
* `Durability.dfy` holds without any assumption about who sends: gap-free durability, order of
  first copies, ACK implies durable.
* `Lease.dfy` proves the lease safe and derives from it one handler per conversation.
  `Refresh.dfy` adds the refresh loop: on-time rounds keep the lease at every moment, and
  refreshed, orderly sessions satisfy the discipline the other theorems ask for.
  `Linear.dfy` draws the consequences: commits are increments, conservation, the grace window.
* `Projection.dfy` shows that conversations are independent.
* `Orchestrator.dfy`, `Session.dfy`, `Admission.dfy`, `Registry.dfy`, `Redis.dfy` and
  `ScriptClient.dfy` are the imperative parts, as classes and loops. The orchestrator, the
  endpoint and the refresh loop run on the machine's atomic actions and are proved to be runs of
  it; `Redis.dfy` runs the Lua scripts command by command against the functions the machine
  uses; `ScriptClient.dfy` shows that a Python call is one script run, reloads included, and
  `StepRunsOneScript` that script runs are all the machine does to the keys.
* `Handling.dfy` and `Client.dfy` prove what a call and a resending client can rely on: which
  answer a message gets in which state of Redis, and what a client is told over its whole
  conversation. `KeyLife.dfy` says what a message leaves of its sequence key and for how long,
  `Delivery.dfy` what it adds to the log, and what a session does with a stream of messages;
  `Conversation.dfy` has the texts of a client and the replies to them.
* `SlowLog.dfy` and `UrlPrefix.dfy` are the rate limiter of the slow-message warning and the URL
  prefix normaliser.

## What the environment decides

Faults, interference and the clock are parameters: `Fates` says for each awaited call whether it
returns or raises, and whether it took effect; `Env` says what everybody else does before each
step of a handler; `Trip` does the same for a Redis round trip. Statements hold for all of them.
Time is a real number that never runs backwards. Tokens are session names, hence unique.

A send or commit given up by its handler may take effect at any later time and, in the model,
any number of times. A `Peer` in `Client.dfy` is a conversation with the sessions that serve
its client, a new one at each reconnect; `QuietEnv` means one handler at a time for them: others
neither prepare nor commit for the conversation, and no commit of it arrives late.
Theorems with a `DisciplinedRun` allow expiry, lost replies and crashes; what they ask for
besides is `Prompt`: no commit of the conversation takes effect after its handler has gone.
`SoloRun` is what they derive, and `Unexpired` says that no prepare finds the key expired.

## What the code does not do

* The settings do not require the two key prefixes to be apart. Where a theorem needs it, it
  asks for `Apart()`; over the ids the service accepts this is exactly disjointness
  (`NamespacesDisjointIffApart`), and `CollidingIds` gives two accepted ids otherwise, as
  for the accepted settings of `AcceptedYetNotApart`.
* The API contract (docs/design/api-contract.md:260) tells the client to resend a number until
  it is acknowledged. A client that has advanced and whose key has expired is answered E1006
  instead: `RefusedIffExpired` gives the exact condition, `PauseRefuses` shows that every
  pause of one active TTL leads there, `HonestClientRefused` gives a whole run. A client whose
  prepares follow the last commit within the final TTL is served (`InTimeDelivers`).
* Delivery is at least once: a send that is given up on a timeout may land later, and the client
  sends the number again (`DeliveredTwice`). It is the first copies that are in order.
* The connection limit can be exceeded by simultaneous handshakes, by at most their number
  minus one (`WsGuard.Valid`, `LimitBound`), and is (`SimultaneousHandshakes`).
* A connection that ends does not always give its lease back; the key is then left to expire.
  `Connect` has the exact condition. Besides a release call that had no effect there are two
  cases: the claim took effect and its reply was lost, so that the handshake is rejected and
  nobody releases (`LostReplyLeavesLease`), and an id over 64 characters, for which the
  handshake claims the lease and which the endpoint then rejects (`LongIdLeavesLease`).
* The prefix normaliser is not idempotent on inputs like `a /` (`NotIdempotent`);
  `IdempotentIff` is exact.
* The limiter takes the clock reading 0 for an unset window; `SpacedIff` is exact, for any
  readings. The reference point of `time.perf_counter` is undefined, so 0 is not excluded; for
  a clock that does not run below zero, `SpacedFromZeroOn` leaves one family of streams.

## Model

| member | source | states |
|---|---|---|
| Durability.ExpectedNeverAheadOfLog | src/realtime_transcribe_service/orchestrator/two_phase.py:134-236 | Gap-free durability: in every run of any number of handlers, faults, expiries and late effects, if Redis expects n then the log holds all of 0..n-1 |
| Durability.FirstCopiesInOrder | src/realtime_transcribe_service/orchestrator/two_phase.py:138-235 | First-occurrence order: in every such run the first copies in a conversation's log are exactly 0, 1, ..., m-1 |
| Durability.AckedIsDurable | src/realtime_transcribe_service/orchestrator/two_phase.py:142-163 | Every acknowledged number, fresh or replayed, is in its conversation's log, in every such run |
| Durability.StepKeepsBacked | src/realtime_transcribe_service/orchestrator/two_phase.py:134-282 | The invariant behind the three: every script, append and handler step keeps each phase, pending send and pending commit backed by the log |
| Durability.FirstCopiesOfOrdered | src/realtime_transcribe_service/orchestrator/two_phase.py:138-235 | A log in which every entry comes after all smaller numbers loses nothing but repeats when only first copies are kept |
| Durability.GivenUpMayTakeEffect | src/realtime_transcribe_service/orchestrator/two_phase.py:192-236 | A send or commit that its handler gives up stays able to take effect at any later time, whatever happens in between, and then appends its record or sets the next number |
| Durability.DeliveredTwice | src/realtime_transcribe_service/orchestrator/two_phase.py:192-228 | Delivery is not exactly once: a send that is given up and lands afterwards, and the client's retry, give the log 0, 0 |
| Lease.OwnedKeepsKey | src/realtime_transcribe_service/redis/ownership_guard.py:17-29 | A session whose last OWNED reply ran less than one guard TTL ago and which has not released still holds the key, and would be answered OWNED again |
| Lease.LeaseIsExclusive | src/realtime_transcribe_service/redis/ownership_guard.py:17-42 | Two sessions never hold unlapsed leases on one conversation, in any interleaving of claims, releases and clock ticks |
| Lease.OthersCannotTakeLease | src/realtime_transcribe_service/redis/ownership_guard.py:31-42 | No claim and no stale release of another session moves or shortens an unlapsed lease |
| Lease.StepKeepsLeaseInv | src/realtime_transcribe_service/redis/ownership_guard.py:17-42 | The lease invariant survives every action of the machine, those of the sequence scripts included |
| Lease.CarriesIffGranted | src/realtime_transcribe_service/redis/ownership_guard.py:17-42 | While its session does not release, the key carries a new token exactly as long as the last granted claim, whether its reply arrived or not, is less than one TTL old |
| Lease.LeaseGivesOneHandler | src/realtime_transcribe_service/transport/session.py:299-347 | Two protocols composed: in a run with orderly sessions and claim gaps below the TTL, at most one handler per conversation is between prepare and its return, at every moment of the run |
| Refresh.RefreshedSessionsAreExclusive | src/realtime_transcribe_service/transport/session.py:281-347 | All sessions together: when every session keeps the endpoint's order, and is either never told that it owns or has refresh rounds that are on time and return, the run is disciplined, and at every moment there is at most one handler per conversation |
| Refresh.OwnershipRefreshLoop | src/realtime_transcribe_service/transport/session.py:495-532 | If the loop runs through all its rounds and none is later than the slack, the session owned the conversation at every single moment of them, whatever all others did. The loop ends at the first round whose call raises or finds the key in other hands, and at no other (OneEnd), with the ERROR that says which; the lease is lost only after a late round |
| Refresh.RoundIsOwned | src/realtime_transcribe_service/transport/session.py:506-509 | In a round that is on time the session owns throughout, and its refresh is answered OWNED |
| Refresh.SlackIsPositive | src/realtime_transcribe_service/config/settings.py:274-278 | The accepted settings leave a positive slack, also where the interval is raised to 0.1 seconds; the interval is the larger of the two |
| Linear.LeaseGivesLinearCommits | src/realtime_transcribe_service/redis/sequence_state_machine.py:45-51 | In a disciplined run in which no commit of the conversation takes effect after its handler has gone, the unconditional SET is expected := expected + 1: before it Redis holds the message's own number, or nothing if the key has expired since the prepare, and after it the next one. Keys may expire, replies may get lost |
| Linear.LeaseGivesSoloRun | src/realtime_transcribe_service/transport/session.py:299-347 | Such a run has one handler at a time, and a prepare whose reply is lost never resets an expired key under another handler |
| Linear.CommitIncrements | src/realtime_transcribe_service/redis/sequence_state_machine.py:45-51 | One commit, under the link between handler and key: an increment the first time, no change when repeated |
| Linear.ExpectedCountsCommits | src/realtime_transcribe_service/redis/sequence_state_machine.py:33-51 | With one handler at a time, no commit of the conversation arriving after its handler has gone and no prepare on an expired key, the expected number is its start plus the commits that took effect, so it never decreases |
| Linear.StepKeepsStored | src/realtime_transcribe_service/redis/sequence_state_machine.py:18-60 | Nothing but a first commit changes the stored number of a live key, late commits excluded: not prepare, cleanup, nor any lease script |
| Linear.Conservation | src/realtime_transcribe_service/orchestrator/two_phase.py:187-236 | Under the same three conditions: between messages the log length is the expected number plus the landed sends whose commit did not take effect |
| Linear.LogOnlyGrows | src/realtime_transcribe_service/orchestrator/two_phase.py:192-194 | No action removes or reorders a record of the topic |
| Linear.FaultFreeLogIsExact | src/realtime_transcribe_service/orchestrator/two_phase.py:187-236 | Under the same three conditions, a run that wastes no send leaves the log exactly 0..n-1, with n expected |
| Linear.GraceWindow | src/realtime_transcribe_service/redis/sequence_state_machine.py:45-60 | After a commit at time t the sequence key is alive at every moment before t plus the final TTL, whatever scripts follow |
| Linear.GraceWindowIffTtlRule | src/realtime_transcribe_service/config/settings.py:271-272 | The window exists for all continuations exactly when the settings rule final TTL <= active TTL holds |
| Linear.ReplayInWindowIsIdempotent | src/realtime_transcribe_service/orchestrator/two_phase.py:142-163 | Within the window, with one handler at a time and no commit of the conversation arriving after its handler has gone, a replay of the number is answered IDEMPOTENT and acknowledged; log and keys stay as they are |
| Projection.RunProjects | src/realtime_transcribe_service/redis/sequence_state_machine.py:127-128 | An interleaved run over many conversations, projected onto one of them, is a fully enabled run of that conversation's own machine |
| Projection.StepProjects | src/realtime_transcribe_service/orchestrator/two_phase.py:130-138 | An action of the conversation commutes with the projection, an action of another is invisible to it |
| Projection.SameViewAlone | src/realtime_transcribe_service/redis/sequence_state_machine.py:127-128 | The log and every answer of Redis that a conversation gets in a run over many are those of the run of its own actions alone |
| Projection.ConservationFromOwnActions | src/realtime_transcribe_service/orchestrator/two_phase.py:187-236 | Conservation in a run over many conversations, from conditions on the conversation's own actions only |
| Settings.NamespacesDisjointIffApart | src/realtime_transcribe_service/config/settings.py:94-101 | Over the ids the service accepts (1 to 64 characters in a sequence key, not empty in a lease key) the two namespaces never share a key exactly under Apart; the settings do not check it |
| Settings.CollidingIds | src/realtime_transcribe_service/config/settings.py:94-101 | Without Apart, two accepted ids whose sequence key and lease key are the same |
| Settings.AcceptedYetNotApart | src/realtime_transcribe_service/config/settings.py:271-278 | Settings that the validators accept and that are not apart, with two ids that share a key |
| Settings.KeyInjective | src/realtime_transcribe_service/redis/ownership_guard.py:104-105 | Distinct conversations have distinct keys |
| Orchestrator.TwoPhaseOrchestrator.HandleMessage | src/realtime_transcribe_service/orchestrator/two_phase.py:98-282 | The handler, step by step with every failure exit and with others acting in between, computes Handle and is a run of the machine. In the part of the trace it adds, its own scripts and appends come in the order of the stages, at most once each, and for its message's conversation only; the commit script is in it exactly when the prepare was accepted, the send confirmed and the commit call effective, and the cleanup script exactly when the event is SESSION_COMPLETE, the answer is an ACK reached through an own Ack, and the cleanup call is effective |
| Handling.HandleIsRun | src/realtime_transcribe_service/orchestrator/two_phase.py:98-282 | Handle itself, with everything that happens around it, is a run of the machine |
| Handling.HandleSettles | src/realtime_transcribe_service/orchestrator/two_phase.py:65-282 | In any environment an ACK echoes the request, takes its type from the request's event, and names a record of the log; everything but a transcript ACK disconnects; nothing stays in progress |
| Handling.AnswerIff | src/realtime_transcribe_service/orchestrator/two_phase.py:98-282 | For any sender and any environment, when each answer is given, read off the key as the prepare finds it: E1006 if and only if the prepare returns and the key holds a smaller number, or is gone and the number is not 0; an ACK, of the type the event asks for, if and only if it holds a larger number, or the message is accepted, sent and committed; E1011, E1008 and E1007 each under its own condition |
| Handling.RefusedChangesNothing | src/realtime_transcribe_service/orchestrator/two_phase.py:141-185 | After E1006 the whole state is the one the prepare found; a replay adds its acknowledgement and nothing else |
| KeyLife.KeyIsLeft | src/realtime_transcribe_service/redis/sequence_state_machine.py:18-60 | If nobody else touches the key, what one message leaves of it: committed, the next number for the active TTL from the commit on, or, exactly after an effective cleanup of a SESSION_COMPLETE on the living key, for the final TTL from the cleanup on; accepted only, its own number for the active TTL from the prepare on; otherwise the key as it was |
| Delivery.MessageAppends | src/realtime_transcribe_service/orchestrator/two_phase.py:187-228 | If nobody else writes to the conversation's log, a message adds its number exactly once if it is accepted and its send lands, and nothing otherwise |
| Delivery.StreamIsDelivered | src/realtime_transcribe_service/transport/session.py:361-492 | A session through which the expected numbers n, n+1, ... are sent, without faults or interference and with a living key, answers each with its ACK, in order, and adds exactly these numbers to the log |
| Client.AttemptAgrees | src/realtime_transcribe_service/orchestrator/two_phase.py:134-282 | One attempt of a stop-and-wait client, through any session: agreement is kept; E1006 exactly when the key has expired under an advanced client |
| Client.AttemptAdvances | src/realtime_transcribe_service/orchestrator/two_phase.py:134-282 | The attempt is acknowledged when nothing fails and the key is found; the server advances exactly when the send is confirmed and the commit effective |
| Client.StopAndWaitAgreement | docs/design/api-contract.md:260 | What Redis answers a client that resends until acknowledged, through a new session at each reconnect, under any pattern of failures, expiries and lost ACKs: its number is expected, or already committed with the next one expected, if the number is 0 or the key lives; with the key gone it is out of order with 0 expected |
| Client.RunKeepsAgreement | src/realtime_transcribe_service/orchestrator/two_phase.py:134-282 | The invariant behind it, over whole conversations: the last stored number is the client's or the next one, whether or not the key still lives |
| Client.RefusedIffExpired | src/realtime_transcribe_service/redis/sequence_state_machine.py:24-31 | From a fresh start such a client receives E1006 if and only if its prepare returns, it has advanced, and its key has expired |
| Client.PauseRefuses | src/realtime_transcribe_service/redis/sequence_state_machine.py:24-40 | However it got there, an advanced client that pauses for the active TTL is refused with E1006 |
| Client.HonestClientRefused | src/realtime_transcribe_service/redis/sequence_state_machine.py:24-40 | Such a client exists under every accepted setting: number 0 acknowledged, the pause, number 1 refused |
| Client.RetryDelivers | docs/design/design-guardrails.md:39-45 | Lossless retry: while the key lives, messages plus faults attempts get every message acknowledged; a failed cleanup is no fault |
| Client.FaultFreeAttemptsDeliver | src/realtime_transcribe_service/orchestrator/two_phase.py:193-282 | The measure behind it: every attempt is an advance of the client or a fault |
| Client.InTimeDelivers | docs/design/design-guardrails.md:39-45 | The same from a condition on time: while an advanced client's prepares run less than the final TTL after the last effective commit, it is never answered E1006, and messages plus faults attempts get every message acknowledged |
| Redis.RedisServer.RunPrepare | src/realtime_transcribe_service/redis/sequence_state_machine.py:18-43 | LUA_PREPARE, command by command; what its replies mean for the caller is Handling.AnswerIff, and how long the key lives then KeyLife.KeyIsLeft |
| Redis.RedisServer.RunCleanup | src/realtime_transcribe_service/redis/sequence_state_machine.py:53-60 | LUA_CLEANUP, command by command |
| Redis.RedisServer.RunClaim | src/realtime_transcribe_service/redis/ownership_guard.py:17-29 | LUA_CLAIM_OR_REFRESH, command by command |
| Redis.RedisServer.RunRelease | src/realtime_transcribe_service/redis/ownership_guard.py:31-42 | LUA_RELEASE_IF_OWNER, command by command |
| ScriptClient.Client.Invoke | src/realtime_transcribe_service/redis/sequence_state_machine.py:154-172 | Script reload: with the cache flushed, scripts loaded and others acting at any moment, a call that returns ran its script exactly once and hands back that run's answer, and a call that raises ran it at most once. It returns if and only if its loads and its EVALSHA get through and the script is cached, or, answered NOSCRIPT, its reload and second EVALSHA get through and nobody flushes the cache in between without loading the script again |
| Session.WsSession.RunMessageLoop | src/realtime_transcribe_service/transport/session.py:361-492 | One frame per received text, in order: transcript ACKs, then at most one ERROR or EOL ACK with the close; each ACK echoes its request and names a record of the log; none of the session's own prepares, sends, commits and cleanups, in the states in which they happen, is for another conversation. Frames and state are those of the replies one after the other; for k messages with the expected numbers, without faults, interference and expiry, these are k ACKs and k new records, and the session stays open unless the last message completes it |
| Session.WsSession.Respond | src/realtime_transcribe_service/transport/session.py:366-491 | One text, exactly one frame: INVALID_JSON if and only if it cannot be decoded, the mismatch error if and only if it names another conversation, and then nothing else happens; every other text gets the orchestrator's answer and leaves the state the orchestrator leaves |
| Session.WsSession.Serve | src/realtime_transcribe_service/transport/session.py:247-347 | A session is served exactly when it owned already or its claim returns and finds the key free or its own; it gives the replies of the message loop, prepares only while it was told it owns, acts on its own conversation only, is in the registry from the claim to the release, and its last action is the release unless that call fails, after which the key does not carry its token; a failed runtime claim gives the one ERROR that says why, with the close, and leaves the key with the token exactly when the claim was granted and its reply lost; either way the registry ends as it began |
| Session.Connect | src/realtime_transcribe_service/transport/app.py:203-288 | From handshake to end: what Admit grants is what Serve needs, an admitted connection gives the replies of the message loop from the state its claim leaves, and the exact condition under which the lease key still names the session afterwards: the claim ran and granted, and its reply was lost, or the id is over 64 characters, or the release had no effect and the last grant has not run out |
| Session.LostReplyLeavesLease | src/realtime_transcribe_service/transport/app.py:258-273 | For every id on empty stores: a handshake rejected because its claim reply was lost leaves the key with its token, and everybody else is refused |
| Session.LongIdLeavesLease | src/realtime_transcribe_service/transport/session.py:247-250 | For every id over 64 characters on empty stores: the handshake is admitted, and the key keeps its token, and everybody else is refused |
| Admission.WsGuard.Admit | src/realtime_transcribe_service/transport/app.py:203-288 | The first failing check in the order conversation id, auth, draining, limit decides; only after all four is the lease claimed; the handshake is then refused as store failure exactly when the call raises, as active sender exactly when the key is in other hands, and admitted otherwise; an admitted session holds the conversation's lease |
| Admission.WsGuard.CheckLimit | src/realtime_transcribe_service/transport/app.py:242-258 | The limit check on the registry's counter is the Check step, and keeps the bound on registered plus pending connections |
| Admission.WsGuard.Enter | src/realtime_transcribe_service/transport/session.py:292 | Registration in the registry is the Register step; the bound, which is part of the guard's Valid(), is kept |
| Admission.WsGuard.Exit | src/realtime_transcribe_service/transport/session.py:337 | A session's removal of its own socket is the Leave step; the bound is kept |
| Admission.LimitBound | src/realtime_transcribe_service/transport/app.py:242-288 | With at most k handshakes between check and registration, active plus pending never exceeds limit - 1 + k |
| Admission.WsGuard.SimultaneousHandshakes | src/realtime_transcribe_service/transport/app.py:242-288 | The bound is attained on the registry itself, for every limit and k: one below the limit, k handshakes pass the check before any registers |
| Registry.ConnectionRegistry.Add | src/realtime_transcribe_service/transport/registry.py:19-21 | Appends to the conversation's list; counter and lists stay in agreement |
| Registry.ConnectionRegistry.Remove | src/realtime_transcribe_service/transport/registry.py:23-45 | Removes the conversation or all copies of the socket; the counter falls by as many, counter and lists stay in agreement and no list is left empty |
| Registry.ConnectionRegistry.CloseAll | src/realtime_transcribe_service/transport/registry.py:51-65 | Visits every socket registered at the call exactly once for each registration and ends empty with counter zero, whatever removals run at its awaits |
| Registry.RemovedExactly | src/realtime_transcribe_service/transport/registry.py:23-45 | Removing takes away all copies of that socket, or all sockets, of that conversation and no other; a conversation is kept exactly if a socket is left |
| Registry.WithoutConcat | src/realtime_transcribe_service/transport/registry.py:38 | Removing a socket keeps the order of the sockets that are left |
| Registry.RemoveUndoesAdd | src/realtime_transcribe_service/transport/registry.py:19-45 | Removing a socket that was not registered before undoes its registration |
| Registry.FreshHasOneCopy | src/realtime_transcribe_service/transport/registry.py:19-45 | A socket registered where it was not before counts once, so that its removal is one Leave |
| SlowLog.SlowMessageLog.MaybeLog | src/realtime_transcribe_service/transport/session.py:92-117 | The limiter on its three globals, below and above the threshold |
| SlowLog.EveryCallAccounted | src/realtime_transcribe_service/transport/session.py:103-117 | For every stream: slow calls = warnings + reported suppressed + held suppressed |
| SlowLog.SpacedIff | src/realtime_transcribe_service/transport/session.py:104-106 | For every stream of readings: all warnings are a window apart exactly when no later call opens a window early because the last one started at reading 0 |
| SlowLog.SpacedFromZeroOn | src/realtime_transcribe_service/transport/session.py:104-106 | For nondecreasing readings from 0 on: exactly when the stream does not start at reading 0 with a second slow call inside the first window |
| SlowLog.ReportedIff | src/realtime_transcribe_service/transport/session.py:103-117 | For every stream and every call after a warning: it is suppressed if it comes less than a window after the last warning (and that was not at reading 0), and otherwise it is reported, with exactly the calls suppressed since |
| SlowLog.SomeLastWarning | src/realtime_transcribe_service/transport/session.py:103-117 | Every call after the first has such a last warning |
| UrlPrefix.CollapseByReplacing | src/realtime_transcribe_service/config/settings.py:59-60 | The repeated replacement terminates and equals the one-pass collapse of slash runs |
| UrlPrefix.NormalizeUrlPathPrefix | src/realtime_transcribe_service/config/settings.py:46-64 | The normaliser statement by statement; None is the ValueError |
| UrlPrefix.NormalShape | src/realtime_transcribe_service/config/settings.py:46-64 | An accepted input gives "" or a string that starts with a slash, doubles none, ends with none and contains nothing forbidden |
| UrlPrefix.NormalIsSegments | src/realtime_transcribe_service/config/settings.py:46-64 | The whole normaliser: an error exactly for a newline, a carriage return or two dots in a row, and otherwise the non-empty segments of the stripped input, each behind one slash |
| UrlPrefix.OuterSpaceIgnored | src/realtime_transcribe_service/config/settings.py:51 | White space before and after the input makes no difference |
| UrlPrefix.IdempotentIff | src/realtime_transcribe_service/config/settings.py:46-64 | Normalising twice changes nothing exactly when the stripped input, without trailing slashes, does not end in white space |
| UrlPrefix.NotIdempotent | src/realtime_transcribe_service/config/settings.py:46-64 | On the input "a /" the normal form is not empty and is not itself normal |
| UrlPrefix.IdempotentWithoutSpace | src/realtime_transcribe_service/config/settings.py:46-64 | In particular on input without white space |

## Left out

- Redis, Kafka, ASGI and asyncio internals: atomic scripts with expiry, an append-only topic, and interleaved steps stand for them; Redis failover, data loss and cancellation in the middle of a Redis call are outside the fault model.
- Lua numbers are doubles; the model's numbers are unbounded naturals, which agrees below 2^53.
- Landing at most once: a send or commit that was given up may land repeatedly in the model, which admits more than the broker and Redis do.
- Validation: pydantic parsing, field rules, timestamps and the classification of validation errors are an abstract outcome (a message or none); a validated message carries the string conversation id of the text.
- Error texts, error codes, close codes and HTTP statuses beyond the reason of an ERROR frame, and the serverProcessingMs field and timings of a response.
- Session.WsSession.RunMessageLoop: the client stays connected and the refresh loop does not close the socket meanwhile; the transport's own exception path (one E1007 frame) and a failing accept are not modelled.
- Session.WsSession.Serve: with an ownership guard configured; without one there is no lease and only the theorems of Durability.dfy apply. A handshake with several conversationId values is not modelled.
- Session.Connect: other connections register and leave before and after one connection, not while it is served; the guard's methods can be interleaved in any order. A shutdown that empties the registry meanwhile is not interleaved either. The statement about the lease key asks for a new token, accepted settings and prefixes apart.
- Refresh.OwnershipRefreshLoop: runs from an OWNED reply to the end of the given rounds; that the endpoint stops it before releasing is its precondition.
- Redis.PrepareReplyTo: a lease token is taken not to be a numeral. An all-digit token would pass Lua's tonumber, but a token can only stand under a sequence key when the prefixes are not apart.
- Registry.ConnectionRegistry.CloseAll: registrations during the call are not modelled; a socket that is no longer connected is visited but not closed by the source. The order of conversations in the dictionary is arbitrary.
- ScriptClient.Client.Invoke: one EVALSHA of the Redis library is taken to send its command once. The clients set no retry option (src/realtime_transcribe_service/redis/async_client.py:32-46), and redis 7.2.1, which poetry.lock pins, may resend a command by itself when its connection breaks; a call may then run its script more often. Theorems about all runs of the machine allow such extra runs, as StrayPrepare, a repeated ApplyCommit, a Claim that is not delivered, a repeated Cleanup or Release. The lazily created client, its pool and close(), and the shape check of a prepare reply are not modelled; a reply has the shape its script produces.
- Message contents: the Kafka payload is the pair of conversation and number; the converter either produces it or raises.
- JWT verification, broker connections, token signing, logging configuration, health and readiness routes, settings defaults, secret merging, startup and shutdown order: no state of these protocols.
