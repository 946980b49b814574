# agent-bridge: model and proofs

agent-bridge lets a command line drive a local coding agent. A plugin inside dsh (`dsh-plugin/`) keeps
threads, turns and *reverse requests* (approvals and questions sent to clients); a CLI (`src/`) starts
turns, waits for them and answers requests, against that plugin or against a Codex app-server. This
project models both state machines and the facts that hold between them, and proves them for every
interleaving, every event stream and every log.

## How the project is laid out

| file | what it holds |
|---|---|
| `Wrappers.dfy`, `JsonValue.dfy`, `Decimal.dfy` | options and results, JSON values, decimal printing and `i64` parsing |
| `RequestIds.dfy` | request-id equality of the two backends |
| `SessionLog.dfy` | message text, turn ends, the folded turn list |
| `Turns.dfy` | one thread's bridge turn: submit, claim, time out, complete |
| `Protocol.dfy` | the plugin's reverse-request protocol: one function per atomic piece of JavaScript |
| `ProtocolInvariant.dfy`, `ProtocolRuns.dfy`, `ProtocolTurns.dfy` | its inductive invariant and what holds of every run |
| `ProtocolPromises.dfy` | each promise of `Connection.request` is in exactly one place, and settles once |
| `ProtocolHeard.dfy`, `Subscriptions.dfy` | what a connection is sent about a thread over a whole run; who is connected and subscribed, read off the moves |
| `Bridge.dfy` | the classes `Connection` and `Bridge`; every entry method makes one move of `Protocol`, so the objects are always where a legal run leads |
| `Resumes.dfy`, `ResumeCourses.dfy` | concurrent `thread/resume` of a thread that is not in the table, with the class `ResumeGate`; how each restore ends and what its callers are told |
| `Transport.dfy` | the CLI's JSON-RPC client: waiter table and event channel, with the class `Connection` |
| `Normalize.dfy` | both backends' translation of wire events |
| `Session.dfy` | the wait machine: handling, waking, the wait loop |
| `SessionRuns.dfy`, `SessionLogs.dfy` | output grammar, log suppression, order, responses; what the log of a whole wait holds |
| `WaitTiming.dfy`, `WaitSchedule.dfy` | the stall clock and its bounds; which wake happens at each poll, and what it prints |
| `StreamRuns.dfy`, `ReplyFate.dfy` | whole waits in terms of the event stream; what decides an explicit reply |
| `Classes.dfy`, `Selection.dfy`, `SelectionRuns.dfy`, `ReplyRuns.dfy`, `ReplyStream.dfy` | the implicit reply: window, drain, choice, replay, and how it ends in terms of the stream |
| `SessionObjects.dfy` | the classes `Emitter` and `Session`; each method is its step of `Session` and `Selection` |
| `ClientWire.dfy`, `FrameReading.dfy` | the plugin's frames as the CLI's events, and reading them back |
| `Compose.dfy`, `Decisions.dfy`, `EndToEnd.dfy` | plugin and CLI together: message text, the active turn, decisions and verdicts, the text a whole turn prints |
| `UiUrl.dfy` | the scan of the daemon log for the browser URL |

`dafny verify dfyconfig.toml` checks the whole project.

Code that computes a value is a function. Objects that update their fields are classes whose methods are
proved equal to a step function, and the theorems are about runs of those step functions. JavaScript runs
to completion, so a move of `Protocol` is what happens between two awaits; the gap between an answer
arriving and its continuation running is the FIFO queue `jobs`. In the CLI, time is a natural number of
milliseconds; a tick is one poll of the biased `select!` and the instant its handling ended.

## What is assumed of the environment

- dsh claims a submitted message at most once, submitted message ids are fresh, and `turn/start` numbers
  are unique in a log where a theorem says `UniqueStarts`. Where a theorem says `TextsFollowOpening`, the
  claim and `turn/start` of a turn come before its messages.
- A fresh `bridge-<uuid>` thread is not resumed before it is registered.
- `socket.send` does not call back into the bridge, and writing a frame does not fail.
- `error` in a response is absent or an object, and exactly one of `result` and `error` is present
  (sections 5 and 5.1 of the JSON-RPC 2.0 specification).
- Turn numbers are JavaScript integers the plugin reads and writes exactly.
- A CLI process reads what the plugin wrote to its connection, in order, possibly cut short and then closed
  (`ClientWire.Relays`): requests, notices, turn notifications, statuses and events alike, and an event's data may
  hold any further members. Whatever the plugin sends can be relayed so (`ClientWire.EverythingIsRelayed`).

What the code does not promise is not claimed: a connection that unsubscribed is not told of a settlement;
`turn/start`, `turn/steer` and `turn/interrupt` subscribe without redelivering; a turn's end does not settle
its requests; a resume that completes late can leave a closed connection among the subscribers; Codex treats
`serverRequest/resolved` as a log line only.

Four places where a plausible statement is false, each with an input that shows it and the exact condition that is
proved instead:

- request ids of dsh are reflexive only on strings (`RequestIds.IntegerIdDiffers`, `RequestIds.DshReflexiveExactly`);
- the CLI's text of a message equals the plugin's exactly when the content is an array or the message has no bare
  text (`Compose.BareTextDiffers`, `Compose.MessageTextAgreesExactly`);
- the CLI's active turn is the log's last turn exactly when that turn is still running
  (`Compose.EndedTurnDiffers`, `Compose.ActiveTurnIsLastTurn`);
- a registered call of the CLI is completed in the end exactly when it registered before the reader stopped; a later
  one, whose request the socket still took, waits for ever (`Transport.CompletedExactlyBeforeStop`, which also gives
  the failing calls).

## Model

| member | source | states |
|---|---|---|
| `Decimal.ParseOfPrint` | src/backend/dsh/mod.rs:432-444 | reading back a printed integer gives it exactly when it fits 64 bits |
| `Decimal.ParsesExactly` | src/backend/dsh/mod.rs:440-444 | exactly the digits of a 64-bit number, with or without a sign, are read, and as that number |
| `Decimal.PrintInjective` | src/backend/codex/mod.rs:424-435 | decimal printing of integers is injective |
| `Decimal.PrefixedPrintInjective` | src/backend/dsh/rpc.rs:11-13 | so are `client-N` and `req-N` |
| `RequestIds.SameIsEquivalence` | src/backend/codex/mod.rs:424-435 | `same_request_id` is an equivalence on ids the reader lets through, for both backends |
| `RequestIds.DshReflexiveExactly` | src/backend/dsh/mod.rs:458-460 | dsh id equality is reflexive exactly on strings |
| `RequestIds.SameExactly` | src/backend/codex/mod.rs:424-435 | dsh ids are the same exactly when they are equal strings; Codex ids exactly when they are equal or have the same text |
| `RequestIds.IntegerIdDiffers` | src/backend/dsh/mod.rs:458-460 | an integer id is not even the same dsh id as itself, while Codex takes 7 and "7" to be the same |
| `SessionLog.JoinTextBlocks` | dsh-plugin/src/bridge.ts:737-747 | the loop joins the texts of the text blocks in order, and gives the empty text for anything but an array |
| `SessionLog.LastTurnOf` | dsh-plugin/src/bridge.ts:750-757 | the backward scan finds the number of the last `turn/start` |
| `SessionLog.FoldTurns` | dsh-plugin/src/bridge.ts:774-798 | the loop computes the fold of the log |
| `SessionLog.ApplyPerTurn` | dsh-plugin/src/bridge.ts:776-796 | an event changes the record of its own turn only |
| `SessionLog.FoldIsLatestStart` | dsh-plugin/src/bridge.ts:774-798 | a turn's record is its last end and last nonempty text after its latest start |
| `SessionLog.FoldedAsEnded` | dsh-plugin/src/bridge.ts:759-798 | a started turn is recorded running until it ends, then with its last end's status: completed, interrupted for aborted and interrupted, failed for anything else |
| `SessionLog.FoldWithoutStart` | dsh-plugin/src/bridge.ts:774-798 | a turn that never started has no record |
| `SessionLog.FoldIgnoresEarlier` | dsh-plugin/src/bridge.ts:774-798 | the log before a turn's start does not matter to its record |
| `SessionLog.FoldOrder` | dsh-plugin/src/bridge.ts:774-798 | with unique starts the records are the started turns in log order |
| `SessionLog.LastTurnIsLastStart` | dsh-plugin/src/bridge.ts:750-757 | the last turn is the last of the started turns |
| `Turns.AdvanceKeepsInv` | dsh-plugin/src/bridge.ts:253-279 | submit, claim, timeout and log events keep the turn invariant: alternation, claims, timed-out starts unannounced |
| `Turns.InflightChangesExactly` | dsh-plugin/src/bridge.ts:253-279 | a turn in flight is dropped by exactly its own end and its own unclaimed timeout, numbered by exactly its own claim, displaced by nothing; with none in flight a submission alone starts one |
| `Turns.OnlineTracksFold` | dsh-plugin/src/bridge.ts:358-368 | the text kept for the in-flight turn is its folded record's text after every input |
| `Turns.OnlineEqualsOffline` | dsh-plugin/src/bridge.ts:379-392 | the status, reason, error and text broadcast at a turn's end are those folded from the log up to that event |
| `Turns.OnlineTextIsLast` | dsh-plugin/src/bridge.ts:358-368 | after every legal run the text kept for the claimed turn is the log's last nonempty text of that turn |
| `ProtocolInvariant.FreshName` | dsh-plugin/src/bridge.ts:496-497 | the next request id is new |
| `ProtocolInvariant.DeliverNeverOverwrites` | dsh-plugin/src/rpc.ts:68-74 | no outstanding entry is overwritten when a request is delivered |
| `ProtocolInvariant.DeliverKeeps` | dsh-plugin/src/bridge.ts:536-539 | delivering keeps the invariant |
| `ProtocolInvariant.CloseKeeps` | dsh-plugin/src/rpc.ts:97-104 | closing a connection keeps it |
| `ProtocolInvariant.AnswerKeeps` | dsh-plugin/src/rpc.ts:132-143 | an answer arriving keeps it |
| `ProtocolInvariant.ResolveKeeps` | dsh-plugin/src/bridge.ts:511-573 | announcing and settling keep it |
| `ProtocolRuns.StepKeeps` | dsh-plugin/src/bridge.ts:103-573 | every move keeps it |
| `ProtocolRuns.RunKeeps` | dsh-plugin/src/bridge.ts:103-573 | it holds after every run |
| `ProtocolRuns.FramesPerRequest` | dsh-plugin/src/bridge.ts:489-573 | frames about a request on a connection are none, request, notice, or request then notice; the winner gets no notice; a notice means settled |
| `ProtocolRuns.NoAnswerLost` | dsh-plugin/src/bridge.ts:536-553 | an open connection that was asked about an unsettled request still holds it or has its continuation queued |
| `ProtocolPromises.PromisesAreConserved` | dsh-plugin/src/rpc.ts:60-143 | in every run each request asked of a connection has exactly one promise, in exactly one place: held, its continuation queued, or its continuation run once; none is lost and none settles twice |
| `ProtocolRuns.PendingIsUnsettled` | dsh-plugin/src/bridge.ts:508-517 | `thread.pending` holds exactly the thread's unsettled requests, once each |
| `ProtocolRuns.RequestsAreAsked` | dsh-plugin/src/bridge.ts:432-437 | requests arise only from an ask on a registered thread with a bridge turn in flight, under the next number |
| `ProtocolRuns.NewRequestIsAsked` | dsh-plugin/src/bridge.ts:489-533 | the new request has a fresh id and the thread, kind and parameters that were asked |
| `ProtocolRuns.DeliveredExactly` | dsh-plugin/src/bridge.ts:246-250 | `delivered` is exactly the open subscribers at creation and the open connections redelivered while unsettled |
| `ProtocolRuns.ListenersAreUnsettled` | dsh-plugin/src/bridge.ts:526-531 | an attached abort listener belongs to an unsettled request, so the unguarded abort is safe |
| `ProtocolRuns.StepEvolves` | dsh-plugin/src/bridge.ts:511-517 | a settlement is never rewritten and a request keeps its identity |
| `ProtocolRuns.RunEvolves` | dsh-plugin/src/bridge.ts:511-517 | so over every run: connections and requests stay, requests keep what they ask, settlements are never rewritten |
| `ProtocolRuns.OutcomeIsFirstDecision` | dsh-plugin/src/bridge.ts:511-553 | the outcome is that of the first abort or answer continuation to run; nothing else settles a request |
| `ProtocolRuns.JobsAreAnswers` | dsh-plugin/src/rpc.ts:132-143 | a queued real answer was sent by that connection for a request it then held |
| `ProtocolRuns.WinnersAnswered` | dsh-plugin/src/bridge.ts:539-552 | a given or rejected outcome is an answer the winner sent while it held the request |
| `ProtocolRuns.NoticeNamesDecision` | dsh-plugin/src/bridge.ts:519-553 | in every run the notice, the winner and the outcome agree: resolved by a client, or cancelled without a winner |
| `ProtocolRuns.AnswerTakesExactly` | dsh-plugin/src/rpc.ts:132-143 | a response takes from the table exactly the request its string id names and queues exactly its answer; a numeric or unknown id changes nothing |
| `ProtocolRuns.OneAnswerEach` | dsh-plugin/src/bridge.ts:536-539 | a connection answers a request at most once in a run: it is never asked again |
| `ProtocolRuns.GivenExactlyByWinner` | dsh-plugin/src/bridge.ts:539-552 | the outcome is a value, or an error, exactly when the recorded winner answered with that value, or that error |
| `ProtocolRuns.AllowedExactlyByClient` | dsh-plugin/src/bridge.ts:443-462 | dsh is told `allowed-once` exactly when the winner's result carried it, `cancelled` exactly when nobody won, otherwise `rejected` |
| `ProtocolRuns.AnsweredExactlyByClient` | dsh-plugin/src/bridge.ts:468-487 | a question is answered exactly when the winner's result holds an array of answers, and with exactly those |
| `ProtocolRuns.StaleHoldersWereUnsubscribed` | dsh-plugin/src/bridge.ts:556-573 | a settled request is outstanding only where the connection was not subscribed at settlement |
| `ProtocolRuns.SettlingWithdraws` | dsh-plugin/src/bridge.ts:556-573 | when a request settles no subscriber holds it, and exactly the open subscribers but the winner are told |
| `ProtocolTurns.ThreadTurnIsRun` | dsh-plugin/src/bridge.ts:253-279 | a thread's turn state is the turn machine run on that thread's inputs |
| `ProtocolTurns.TurnNotesAlternate` | dsh-plugin/src/bridge.ts:379-413 | the notes a thread makes of its turns, in order, strictly alternate between start and completion with matching ids; a timed-out start is never announced |
| `ProtocolTurns.TurnStartsExactly` | dsh-plugin/src/bridge.ts:253-272 | a submission puts its message in flight exactly when its text is given, no turn is in flight, and the agent is idle and live |
| `ProtocolTurns.NotesReachSubscribers` | dsh-plugin/src/bridge.ts:691-699 | each turn notification goes, once and last, to exactly the open subscribers |
| `ProtocolTurns.CompletionMatchesLog` | dsh-plugin/src/bridge.ts:379-392 | in every run, the completion an open subscriber hears is the record folded from the log, with the end's status and error |
| `ProtocolHeard.HeardExactly` | dsh-plugin/src/bridge.ts:691-699 | over every run, what a connection was sent about a thread, requests and their notices aside, is exactly what was broadcast there while it was an open subscriber, in order |
| `ProtocolHeard.AttachedHearsTrace` | dsh-plugin/src/bridge.ts:379-413 | a connection that stays an open subscriber from some move on is sent exactly the turn notes the thread makes from then on, in order, once each |
| `ProtocolHeard.AttachedHearsAlternation` | dsh-plugin/src/bridge.ts:379-413 | so the `turn/started` and `turn/completed` it is sent alternate, a completion naming the turn started just before |
| `Subscriptions.ConnectedExactly` | dsh-plugin/src/bridge.ts:119-128 | a connection is there exactly when it has connected, and closed exactly when it has closed since |
| `Subscriptions.RegisteredExactly` | dsh-plugin/src/bridge.ts:588-597 | a thread is registered exactly when a connected client started it or it was adopted |
| `Subscriptions.SubscribedExactly` | dsh-plugin/src/bridge.ts:594-597 | over every legal run a connection has a thread among its subscriptions exactly when some start, resume, steer, interrupt or turn of its own subscribed it and it has neither unsubscribed nor closed since; the thread's subscribers say the same of every open connection, and hold no other closed one |
| `Subscriptions.TimersAreResumes` | dsh-plugin/src/index.ts:113-120 | the redelivery timers waiting are exactly the resumes that took effect and have not fired, in order |
| `BridgeObjects.Connection.Request` | dsh-plugin/src/rpc.ts:68-74 | the entry is recorded and the frame written; nothing on a closed connection |
| `BridgeObjects.Connection.CancelRequest` | dsh-plugin/src/rpc.ts:82-87 | the entry is removed and its rejection queued |
| `BridgeObjects.Connection.OnClose` | dsh-plugin/src/rpc.ts:97-104 | the loop drains the table, queues one rejection per entry in order and clears the subscriptions |
| `BridgeObjects.Connection.OnResponse` | dsh-plugin/src/rpc.ts:132-143 | a known id is removed and its continuation queued; an unknown one is ignored |
| `BridgeObjects.Bridge.Subscribe` | dsh-plugin/src/bridge.ts:594-597 | both sides of the subscription are recorded; `Subscriptions.SubscribedExactly` says what that amounts to |
| `BridgeObjects.Bridge.Deliver` | dsh-plugin/src/bridge.ts:536-539 | equals the protocol's delivery |
| `BridgeObjects.Bridge.Broadcast` | dsh-plugin/src/bridge.ts:691-699 | the loop notifies the open subscribers and forgets the closed ones |
| `BridgeObjects.Bridge.TellAll` | dsh-plugin/src/bridge.ts:562-572 | the loop tells every open subscriber but the winner and queues exactly the withdrawals |
| `BridgeObjects.Bridge.AnnounceResolved` | dsh-plugin/src/bridge.ts:556-573 | equals the protocol's announcement |
| `BridgeObjects.Bridge.Settle` | dsh-plugin/src/bridge.ts:511-517 | equals the protocol's settlement, once only |
| `BridgeObjects.Bridge.RemoveConnection` | dsh-plugin/src/bridge.ts:125-128 | a close abandons the connection's requests and unsubscribes it everywhere |
| `BridgeObjects.Bridge.OnResponse` | dsh-plugin/src/rpc.ts:132-143 | an answer only queues its continuation |
| `BridgeObjects.Bridge.RegisterThread` | dsh-plugin/src/bridge.ts:588-597 | a started thread is registered with its caller subscribed |
| `BridgeObjects.Bridge.AdoptThread` | dsh-plugin/src/bridge.ts:675-689 | an existing entry is kept, otherwise an empty one is added |
| `BridgeObjects.Bridge.ResumeThread` | dsh-plugin/src/index.ts:113-120 | the caller is subscribed and its redelivery timer armed |
| `BridgeObjects.Bridge.UnsubscribeThread` | dsh-plugin/src/bridge.ts:350-354 | both sides of the subscription are removed, as one move |
| `BridgeObjects.Bridge.RedeliverPending` | dsh-plugin/src/bridge.ts:246-250 | the loop redelivers every pending request of the thread |
| `BridgeObjects.Bridge.AwaitReverse` | dsh-plugin/src/bridge.ts:489-533 | a request is registered, cancelled at once on an aborted signal, otherwise fanned out |
| `BridgeObjects.Bridge.RunNextJob` | dsh-plugin/src/bridge.ts:539-552 | the continuation settles unless abandoned or settled |
| `BridgeObjects.Bridge.OnAbort` | dsh-plugin/src/bridge.ts:526-531 | the abort listener announces and settles |
| `BridgeObjects.Bridge.StartTurn` | dsh-plugin/src/bridge.ts:253-272 | the caller is subscribed even when refused; refused for an unknown thread, no text, a turn in flight or a busy agent, or no live agent, in that order, each with its error; otherwise the turn is submitted |
| `BridgeObjects.Bridge.OnInboxClaimed` | dsh-plugin/src/bridge.ts:404-413 | only the submitted message is claimed, and announced |
| `BridgeObjects.Bridge.OnClaimTimeout` | dsh-plugin/src/bridge.ts:267-278 | an unclaimed start is dropped |
| `BridgeObjects.Bridge.OnSessionEvent` | dsh-plugin/src/bridge.ts:358-396 | text is noted, the event forwarded, and the turn completed, as one step of the turn machine |
| `BridgeObjects.Bridge.OnAgentStatus` | dsh-plugin/src/bridge.ts:398-402 | a status goes to the thread's open subscribers; an unknown thread is ignored |
| `BridgeObjects.Bridge.OnAgentError` | dsh-plugin/src/bridge.ts:415-424 | an agent error is forwarded to them as an event of no log position |
| `BridgeObjects.Bridge.TouchThread` | dsh-plugin/src/bridge.ts:282-307 | steer and interrupt subscribe their caller to a known thread |
| `BridgeObjects.Bridge.SentAboutRequest` | dsh-plugin/src/bridge.ts:489-573 | whatever entry methods were called, the connection object was sent about a request nothing, the request, the notice, or the request then the notice |
| `BridgeObjects.Bridge.HoldsOrQueued` | dsh-plugin/src/bridge.ts:536-553 | an open connection object asked about an unsettled request has it in its table or its answer in the event loop |
| `BridgeObjects.Bridge.OutcomeIsDecided` | dsh-plugin/src/bridge.ts:511-553 | the outcome the objects hold is that of the first decision among the moves made |
| `Resumes.OneRestoreAtATime` | dsh-plugin/src/bridge.ts:631-637 | at most one restore task runs per thread id, and none once the thread is in the table |
| `Resumes.AtMostOneAgentResume` | dsh-plugin/src/bridge.ts:639-673 | at most one `agents.resume` ever succeeds per thread id |
| `Resumes.EntryNeverReplaced` | dsh-plugin/src/bridge.ts:675-689 | a table entry is never replaced |
| `Resumes.CallersAgree` | dsh-plugin/src/bridge.ts:228-243 | all successful callers for a thread get the same Thread, the table's |
| `ResumeCourses.TaskEndsExactly` | dsh-plugin/src/bridge.ts:639-673 | a restore ends with the thread exactly when dsh found a header that is no subagent's and has a cwd, and either an agent was live or the preset was usable and the resume succeeded; each refusal gives its own error |
| `ResumeCourses.AgentsResumedExactly` | dsh-plugin/src/bridge.ts:653-672 | dsh has resumed an agent for a thread exactly when some restore of it found no live agent, a usable preset, and success |
| `ResumeCourses.TableExactly` | dsh-plugin/src/bridge.ts:675-689 | a thread is in the table exactly when it was registered there or some restore of it succeeded |
| `ResumeCourses.CallersAreTold` | dsh-plugin/src/bridge.ts:228-243 | every caller is told either the entry its thread had when it called, or the end of the one restore it joined |
| `Resumes.ResumeGate.ResumeThread` | dsh-plugin/src/bridge.ts:631-637 | a call takes the entry, joins the running task or starts one |
| `Resumes.ResumeGate.OnStat` | dsh-plugin/src/bridge.ts:639-658 | the header checks, then the live agent or the cold path; `ResumeCourses.TaskEndsExactly` says where each leads |
| `Resumes.ResumeGate.OnAgent` | dsh-plugin/src/bridge.ts:661-672 | a resumed agent is adopted, a failure settles the task |
| `Resumes.ResumeGate.OnFinally` | dsh-plugin/src/bridge.ts:634-634 | the gate's entry goes when the task has settled |
| `Transport.KeysRepeatExactly` | src/backend/rpc.rs:160-168 | two calls share a key exactly when the 64-bit counter has gone all the way round between them |
| `Transport.AnswersExactly` | src/backend/rpc.rs:160-168 | until the counter wraps the n-th call bears `client-(n+1)`, or the integer for Codex, and is answered by exactly the frames without a method that bear it |
| `Transport.BothProtocolsAreSound` | src/backend/rpc.rs:165-168 | allocated ids have keys, all different within one round, on both wires |
| `Transport.DshIdsAreStrings` | src/backend/dsh/rpc.rs:19-42 | a dsh request that reaches the channel bears a string id |
| `Transport.ReaderStopsExactly` | src/backend/rpc.rs:78-92 | what stops the reader on each wire, what it skips and what it reads: for Codex unparseable text becomes a notification |
| `Transport.RunKeeps` | src/backend/rpc.rs:78-148 | the pairing invariant holds after every run |
| `Transport.CompletedByOwnResponse` | src/backend/rpc.rs:105-148 | a completion came from the first frame after registration bearing the call's own key: its result, or null, exactly when the frame has no error, otherwise the error's code, message and data with their defaults; or from the drain when there was none, with the reason the channel's last event gives |
| `Transport.CompletedOnce` | src/backend/rpc.rs:118-141 | a completion is final |
| `Transport.CallsSplit` | src/backend/rpc.rs:160-184 | registered calls split into completed and pending ones |
| `Transport.StopLeavesNoneWaiting` | src/backend/rpc.rs:93-99 | when the reader stops the table is empty, every registered call is completed, those that waited with the reason, the others as before |
| `Transport.MalformedTextFailsWaiters` | src/backend/dsh/rpc.rs:19-42 | a dsh text that is not a well-formed envelope stops the reader, so every call that waits fails with its reason |
| `Transport.NothingCompletesAfterStop` | src/backend/rpc.rs:78-102 | once the reader has stopped nothing completes any more |
| `Transport.CompletedExactlyBeforeStop` | src/backend/rpc.rs:93-99 | a registered call is completed in the end if and only if it registered before the reader stopped; a later one stays in the table |
| `Transport.CompletedExactlyWhenAnswered` | src/backend/rpc.rs:105-148 | while the reader runs a registered call is completed if and only if a frame without a method has borne its key since; nothing else consumes a waiter |
| `Transport.WrittenAreRegistered` | src/backend/rpc.rs:160-175 | in every interleaving of calls, each request on the wire bears its own call's id, is there once, and wants no answer unless its waiter is in the table or completed |
| `Transport.ChannelIsMethodFrames` | src/backend/rpc.rs:78-102 | the channel is exactly the method-bearing frames in wire order, a request when the frame has an id and a notification otherwise, then one `Closed` |
| `Transport.Connection.Register` | src/backend/rpc.rs:160-173 | the call is numbered and its waiter entered under the new id's key; nothing is written yet |
| `Transport.Connection.Send` | src/backend/rpc.rs:151-158 | a numbered call's request, under its own id, goes on the wire and changes nothing else |
| `Transport.Connection.Receive` | src/backend/rpc.rs:105-148 | dispatch of one frame; `Transport.CompletedByOwnResponse` says what a response completes its call with |
| `Transport.Connection.FailWaiters` | src/backend/rpc.rs:93-99 | the drain fails every waiter and only those |
| `Transport.Connection.Stop` | src/backend/rpc.rs:93-100 | the drain, then one `Closed` |
| `Normalize.TurnIdRoundTrip` | src/backend/dsh/mod.rs:432-444 | an integer turn id comes back as the same integer exactly when it fits 64 bits |
| `Normalize.ThreadIsFirstNamed` | src/backend/codex/mod.rs:416-422 | the thread a message is about: its own, else for Codex its thread's id, else its item's thread |
| `Normalize.TerminalFieldsExactly` | src/backend/dsh/mod.rs:414-422 | the terminal fields are exactly the error, the duration and for dsh the reason, where present and not null |
| `Normalize.CopyMembers` | src/backend/dsh/mod.rs:414-422 | the loop copies exactly the present, non-null members asked for |
| `Normalize.TextOfIsJoined` | src/backend/dsh/mod.rs:463-480 | the CLI joins the text the plugin joins |
| `Normalize.OnlyDeferredComplete` | src/backend/mod.rs:152-154 | only `turn/completed` completes a turn or fails to normalize |
| `Normalize.KindsAgree` | src/backend/dsh/mod.rs:205-302 | requests come from requests, closings from closings, and only dsh reports resolutions |
| `SessionRuns.OutputGrammar` | src/core/session.rs:406-468 | passing lines only with --follow, then exactly one terminal line that decides the exit code |
| `SessionRuns.LogSuppressionIsExact` | src/core/session.rs:471-483 | with k events queued at opening the log lacks exactly what the first k handled wrote; nothing else depends on k |
| `SessionRuns.WriteHides` | src/core/logging.rs:51-80 | a line is withheld from the log exactly while an unlogged event is handled, never from stdout |
| `SessionLogs.LogHoldsWait` | src/core/logging.rs:51-80 | with nothing to suppress, the log of every wait holds every line printed, a note of every event taken that is worth one, and a note of every response sent, each in order, and nothing else |
| `SessionLogs.ChoiceIsRecorded` | src/core/session.rs:389-404 | an implicit reply leaves in the log the note of its response, by the request it chose, and nothing else |
| `SessionLogs.SubagentsAreLeft` | src/backend/codex/mod.rs:240-250 | a Codex wait unsubscribes exactly the sub-agent threads that its thread's items start, in order |
| `SessionRuns.EventsInOrder` | src/core/session.rs:426-432 | events are taken in arrival order, each once, and each handled one is counted |
| `SessionRuns.ResponsesAttributed` | src/core/session.rs:543-573 | each response answers its own taken request, under its id, in stream order |
| `SessionRuns.OneResponsePerId` | src/core/session.rs:543-573 | a stream without repeated ids gets at most one response per id |
| `SessionRuns.ReplyGoesToSelected` | src/core/session.rs:543-558 | until the awaited dsh request comes nothing is answered or shown; the first response is to it, with the payload's body |
| `StreamRuns.WaitFollowsStream` | src/core/session.rs:406-576 | without a pending reply, every request of the stream taken gets exactly its refusal or exactly its line, in order; turn and text are the fold of the stream; the wait ends with a turn line if and only if the last event taken is the first completion of the session's turn, and prints that status and text |
| `ReplyFate.FirstEventDecides` | src/core/session.rs:534-558 | an explicit dsh reply is decided by the first event that is its request, its resolution, a completion of the thread or the close, provided it is taken before the reply's deadline: answered, failed with which error, or ended; nothing is sent until then |
| `WaitTiming.NothingAfterTimeout` | src/core/session.rs:596-620 | with a timeout, dsh takes no event at or after it: every wake but the timeout was polled strictly earlier |
| `WaitSchedule.WakesExactlyWhenDue` | src/core/session.rs:579-620 | a poll of a running wait reports a stall exactly when the stall period has passed since the stall clock and nothing earlier in the order is due; and so for the timeout, the reply, each event and the end of the stream, on both backends |
| `WaitSchedule.WakesReport` | src/core/session.rs:425-463 | what each wake prints, and that all but an event and a followed stall end the command, with 3 for stall and timeout and 4 otherwise |
| `WaitSchedule.ZeroMeansNever` | src/core/session.rs:579-585 | a limit of 0 seconds, or no awaited reply, wakes nothing within a year |
| `WaitTiming.StallsFollowSilence` | src/core/session.rs:411-424 | a stall comes a full stall period after the start and after every earlier restart of the stall clock |
| `WaitTiming.StallClockIsLastRestart` | src/core/session.rs:543-573 | while a wait goes on its stall clock is exactly the last restart: progress, a stall reported, and for Codex a request answered or refused, for dsh not |
| `WaitTiming.StallsAreBounded` | src/core/session.rs:445-456 | dsh prints at most (T - 1) / s stalled lines |
| `WaitTiming.StallsArePrinted` | src/core/session.rs:445-456 | each stall prints one stalled line and nothing else does |
| `WaitTiming.EventsBeforeDeadlines` | src/core/session.rs:612-618 | Codex reports no stall, timeout or missing reply while an event is queued |
| `Classes.EachRepresented` | src/core/session.rs:348-353 | each request has a representative; representatives are pairwise different |
| `Classes.OneRepresentative` | src/core/session.rs:367-371 | there is exactly one when there are requests and all are the same; it is the first |
| `SelectionRuns.DiscardedStepIsContinue` | src/core/session.rs:356-361 | the step the window discards is always Continue, and sends and prints nothing |
| `SelectionRuns.WindowStepKeeps` | src/core/session.rs:314-364 | every turn of the window keeps its books; the stream cannot end while draining |
| `SelectionRuns.WindowExaminesExactly` | src/core/session.rs:308-335 | the window examines every event queued at the first poll from ten seconds on and none after; sends and prints nothing; sets aside exactly the completions |
| `SelectionRuns.DrainBeginsOnTime` | src/core/session.rs:302-320 | the drain begins at the first poll at or after ten seconds from the start, while nothing has failed |
| `SelectionRuns.DrainTerminates` | src/core/session.rs:315-320 | the drain ends after as many turns as its snapshot counted |
| `SelectionRuns.SameIsEquivalentOn` | src/core/session.rs:348-353 | grouping by `same_request_id` is well founded on ids from the wire |
| `SelectionRuns.RepliesExactlyToOnlyRequest` | src/core/session.rs:366-379 | a reply is sent if and only if the examined requests of this thread share one id, not resolved among them, that the payload can answer; it answers the first |
| `SelectionRuns.RefusesExactly` | src/core/session.rs:366-379 | why no reply is sent: nothing examined, several ids, the one id resolved among them, or no answer for its request |
| `ReplyRuns.ReplayStopsAtFirstEnd` | src/core/session.rs:379-386 | deferred completions are handled in order up to the first that ends the command |
| `ReplyStream.WindowFolds` | src/core/session.rs:314-364 | the session's turn and text after the window are the fold of what it examined, completions left out |
| `ReplyStream.ReplyEndsExactly` | src/core/session.rs:379-387 | once the reply is sent, the first completion set aside that completes the session's turn ends the command with its status and is printed with its text or the one folded, one that cannot be read fails it, and with none the command waits from the state they leave |
| `ReplyRuns.ReplyOutputGrammar` | src/core/session.rs:298-387 | the implicit reply keeps the output grammar |
| `ReplyRuns.ReplyResponses` | src/core/session.rs:298-387 | it answers the selected request and then only later requests, each under its own id |
| `ReplyRuns.ReplyOncePerId` | src/core/session.rs:298-387 | it answers no id twice when the stream repeats none |
| `SessionObjects.Emitter.EmitLine` | src/core/logging.rs:51-64 | stdout always, the log unless suppressed |
| `SessionObjects.Emitter.AppendToLog` | src/core/logging.rs:72-80 | the log is appended in place, unless suppressed or absent |
| `SessionObjects.Session.EmitTurn` | src/core/session.rs:286-296 | the turn line and the exit code of its status |
| `SessionObjects.Session.AnswerRequest` | src/core/session.rs:389-404 | the body is sent and logged; nothing is sent when the decision has no body; `Decisions` says which bodies there are |
| `SessionObjects.Session.HandleRequestEvent` | src/core/session.rs:543-573 | answer, isolate, decline or show, in that order |
| `SessionObjects.Session.HandleOneEvent` | src/core/session.rs:485-576 | equals the machine's handling |
| `SessionObjects.Session.HandleLogged` | src/core/session.rs:471-483 | equals handling with the log silenced while unlogged events remain |
| `SessionObjects.Session.ReactTo` | src/core/session.rs:425-463 | equals the machine's reaction to a wake |
| `SessionObjects.Session.WaitLoop` | src/core/session.rs:406-468 | the loop is the machine's run on the same polls; `WaitSchedule.WakesExactlyWhenDue` says what wakes it |
| `SessionObjects.Session.IsKnown` | src/core/session.rs:348-352 | the scan says whether a request of the same id was seen |
| `SessionObjects.Session.ExamineEvent` | src/core/session.rs:329-363 | equals the window's examination of one event |
| `SessionObjects.Session.CollectRequests` | src/core/session.rs:304-364 | the collecting loop is the window's run |
| `SessionObjects.Session.ReplayDeferred` | src/core/session.rs:379-386 | the replay loop is the machine's replay |
| `SessionObjects.Session.ReplyToOnlyRequest` | src/core/session.rs:298-387 | the whole method is the machine's implicit reply |
| `ClientWire.PluginAsksOnce` | dsh-plugin/src/bridge.ts:536-539 | the plugin asks a connection about an id at most once |
| `ClientWire.EverythingIsRelayed` | dsh-plugin/src/bridge.ts:358-424 | every sequence of frames the plugin can send a connection is relayed by some event stream, whatever further members the data of its events carry |
| `FrameReading.FrameReadsBack` | dsh-plugin/src/bridge.ts:358-424 | every frame is read back from its wire form as what it says: ids, kinds, turns, summaries, statuses and events |
| `FrameReading.RequestKeepsParams` | dsh-plugin/src/bridge.ts:536-539 | a request on the wire carries every other member of what was asked |
| `FrameReading.ForwardedExactly` | dsh-plugin/src/protocol.ts:67-77 | a log event is sent to an open subscriber exactly when its type is one of the nine forwarded ones |
| `ClientWire.WaitAnswersOncePerId` | src/core/session.rs:543-573 | over every plugin run and everything it sends a connection, a waiting dsh command sends at most one response per request id |
| `ClientWire.ReplyAnswersOncePerId` | src/core/session.rs:298-387 | so does an implicit reply, over the same runs |
| `Compose.MessageTextAgreesExactly` | src/backend/dsh/mod.rs:463-480 | CLI and plugin read the same text from a message event exactly when the content is an array or there is no bare text, whatever else the event carries |
| `Compose.BareTextDiffers` | src/backend/dsh/mod.rs:463-480 | a message with a bare text and no content: the CLI shows it, the plugin has none |
| `Compose.CompletionsAreAccepted` | src/backend/dsh/mod.rs:257-281 | the CLI accepts every completion the plugin broadcasts, and an error comes exactly with a failed status |
| `Decisions.DshDecisionsExactly` | src/backend/dsh/approvals.rs:18-33 | the CLI's accept of an approval, as the plugin's outcome, gives the verdict `allowed-once`, its decline `rejected`; a question has no bare decision |
| `Decisions.CodexDecisionsExactly` | src/backend/codex/approvals.rs:36-63 | which Codex requests a bare decision answers, under which member and with which text |
| `Decisions.ResultsAreSentUnchanged` | src/core/session.rs:389-404 | a structured answer is sent as it is |
| `Decisions.DecisionIsObeyed` | dsh-plugin/src/bridge.ts:443-462 | in every plugin run, when the winner of an approval answered with the body of the CLI's decision, dsh is told exactly that decision |
| `Decisions.AnswersAreObeyed` | dsh-plugin/src/bridge.ts:468-487 | in every plugin run, when the winner of a question answered with the CLI's structured result, the tool gets its answers |
| `EndToEnd.StretchIsRead` | src/backend/dsh/mod.rs:238-245 | over a relayed stretch of everything sent, the session's text is the last text the frames of its thread say |
| `EndToEnd.SentTextIsSummarised` | dsh-plugin/src/bridge.ts:358-392 | in every run a completion sent to an attached connection brings the last text of that turn sent to it before |
| `EndToEnd.PrintedTextIsFolded` | src/core/session.rs:520-533 | in every legal plugin run with a connection attached before the turn spoke, no other turn speaking from there, its whole traffic relayed and its messages read alike by both sides (`Compose.MessageTextAgreesExactly` says when): a wait that ends with that turn's line prints the text the session had folded, which is the completion's own, with its status |
| `Compose.FindActiveTurn` | src/core/session.rs:225-233 | the backward search finds the last running turn |
| `Compose.RecordReadsBack` | src/backend/dsh/mod.rs:386-412 | a folded record read back keeps its id and whether it runs |
| `Compose.RunningUntilItsEnd` | dsh-plugin/src/bridge.ts:774-798 | a turn's record is running exactly while the log holds no end of it after its start |
| `Compose.ActiveTurnIsLastTurn` | src/core/session.rs:225-233 | the active turn over the folded log is the log's last turn exactly when that turn is still running |
| `Compose.EndedTurnDiffers` | src/core/session.rs:225-233 | a turn that has ended is the log's last turn while no turn is active |
| `Compose.InterruptAcceptsMore` | dsh-plugin/src/bridge.ts:282-307 | steering needs a running agent and the current turn, if one is named; interrupting accepts exactly that, a turn in flight on an agent that is not running, and any name while there is no turn |
| `Compose.ReadThenSteer` | dsh-plugin/src/bridge.ts:282-310 | the id read and sent back is accepted by steer and interrupt exactly when no bridge turn is claimed or it is that turn |
| `UiUrl.UrlsGrow` | src/backend/dsh/ui.rs:37-59 | the URLs of a log are a prefix of those of any extension |
| `UiUrl.UrlsExactly` | src/backend/dsh/ui.rs:37-59 | a URL is reported exactly when it stands in the log: a whole word after `dsh web: `, beginning with `http://` and longer, on a line that is complete |
| `UiUrl.FirstAndLastExactly` | src/backend/dsh/ui.rs:44-50 | the first URL reported stands before whatever stands in the log, the last one after |
| `UiUrl.FirstUrlStable` | src/backend/dsh/ui.rs:48-50 | the first URL is stable once seen |
| `UiUrl.LastUrlMovesForward` | src/backend/dsh/ui.rs:44-46 | the last URL changes only for a later one |
| `UiUrl.WaitForNewUrl` | src/backend/dsh/ui.rs:80-98 | the poll reports the first URL as soon as it is there and before the deadline; every later reading agrees |

## Left out

- Threads and pending requests are values inside the maps of `BridgeObjects.Bridge`; sharing one object between the table and a closure is not captured.
- Resumes are modelled apart from `Bridge`: there a resume is one move, `Adopt` then `Resume`.
- `BridgeObjects.Bridge.TellAll`: the subscriber set is taken as a sequence in insertion order that does not change while it is iterated.
- The connection set and `dispose`, which closes every connection.
- `startThread`'s rollback, presets, titles, model routing and the policy events: calls into dsh services.
- `thread/read` of a cold thread and `summarizeEvents`.
- Responses and errors of the plugin's own methods, and refusals of malformed frames: the frames modelled are requests and notifications.
- JSON text parsing and printing; a wire text arrives with its parsed value.
- Fractional and larger-than-64-bit turn ids printed by the CLI: `Normalize.TurnIdOf` reads strings and integers only.
- Send failures and waiters dropped because sending failed: a request whose write failed is one whose `Write` never comes.
- `describe_error` and the exact wording of error messages: `Normalize.Failure` names each message.
- `logPath` in emitted lines, the `started` line, `steer`, `status` and `read` output, and `resume` of an idle thread, which prints one turn line and exits.
- Attaching a Herdr pane, daemon start, pid files, readiness probes, clap parsing and configuration precedence.
- Where an explicit reply gets its deadline, ten seconds after the thread was resumed: `Session.PendingReply` holds it as given.
- The order in which different connections are told of one thing.
- tokio's timer granularity and cooperative budgeting: a deadline is due exactly when the clock reaches it.
- `from_utf8_lossy` and byte offsets in the daemon log: a reading is the text from the remembered offset.
- `started_thread`, `find_on_path` and `resolveUiUrl`: shapes and lookups outside the two machines.
