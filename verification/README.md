# Verified model of the agent runtime

This project models the stateful parts of the agent runtime and proves what
they keep over every run:

- the hub's registry of agents, its descendant walk, and the handshake between
  an agent that finishes and the calls of `hub/wait_agent` on it;
- the JSON-RPC connection: encoding, correlation of responses with requests,
  and two connections joined by ordered channels;
- the context store: a message buffer under a token budget, with ingestion
  caps, degradation, the drop loop and pair sanitising;
- the cron scheduler: admission, ticks, expiry and one-shot removal;
- grep's line indexing and context grouping;
- configuration layers: the recursive merge and its fold;
- the projection of a conversation for display, the normalisation of a
  conversation for a model, line-and-byte truncation;
- the session's inbox and its idle gate.

`dafny verify dfyconfig.toml` checks everything.

## How to read it

Each component is a module of the same name as its file. Objects that the
program updates in place are classes whose methods are specified by functions
on the abstract state (`Value()`); loops over vectors are methods with
invariants. The properties are proved about the functions, and runs are folds
of them: `Store.Run`, `Registry.Run`, `Completion.Run`, `Link.Run`,
`Scheduler.Run` and `Session.Run` fold a sequence of arbitrary operations from
the initial state, so a lemma about `Run(ops)` is about every reachable state.
The class methods' postconditions are what connects the two.

Concurrency is interleaving: one step is what the program does while it holds
a lock. In `Completion` that is one message taken from an agent's connection,
the finish of a run (emit and unregister together), the lookup-or-watch of a
wait, and one receive. In `Link` it is the first half of `send_request` up to
the pending entry, the send, a delivery, a response, a cancellation.

Parameters stand for what is outside: `Counter` is the tokenizer (any natural
number per block), `Render` the compact text of a JSON value, `compile` the
schedule library (any finite set of whole minutes), the clock is an argument of
each operation and may run backwards, and regular expressions are the spans
they match.

### Main results

- The registry is a forest in every run, and the walk lists exactly the
  descendants: `Registry.ReachableIsForest`, `Registry.ListingIsTheDescendants`,
  `Hub.AgentRegistry.Descendants`.
- No completion is lost: `Completion.WaitReturnsTheReport`,
  `Completion.FinishedRunIsDelivered`, `Completion.LiveRunBlocks`.
- Nothing sent is lost or reordered, and responses reach their own request,
  once: `Link.PostsArrive`, `Link.ResolvedByItsOwnResponse`,
  `Link.PendingIsUnsettled`, `Link.SettledForGood`.
- What the store holds comes from what it was given, whatever that was:
  `Store.ReachableIsDerived`, `Store.NeverTruncated`. When it keeps server pairs
  and its budget: `Store.PairedThroughout`, `Store.EnforcedBound`,
  `Store.EnforcedMeetsLimit`; sanitising is one pass, closed, maximal and
  idempotent: `Sanitize.SanitizeToolPairs`, `Sanitize.SanitizedIsClosed`,
  `Sanitize.SurvivorsAreTheLargestClosedChoice`, `Sanitize.SanitizeTwice`.
- What degrading and dropping leave, block by block:
  `Degradation.StrippedExactly`, `Degradation.DegradedExactly`,
  `Store.DropsNoMoreThanNeeded`.
- Tasks fire at their first chance and at each next one, never twice for one
  occurrence, never expired: `Scheduler.FiresAtItsFirstChance`,
  `Scheduler.FiresAgain`, `Scheduler.FiresExactly`, `Scheduler.FiresAdvance`,
  `Scheduler.ReachableOk`, `Scheduler.CronScheduler.Tick`.
- Grep lists exactly the contexts of the matches: `Grep.CollectContextGroups`,
  `Grep.FindMatchIndices`.
- Merging by path, and folded over layers: `ConfigMerge.OverlayWins`,
  `ConfigMerge.BaseSurvives`, `ConfigMerge.CutPathsVanish`,
  `ConfigMerge.AssociativeExactly`, `Resolver.LastLeafWins`,
  `Resolver.LastNamingDecides`, `Resolver.ServersInOrder`,
  `Resolver.ResolutionAgrees`.
- Index-based back-patching is lookup, and every text and call is shown:
  `Projection.IndexAgreesWithLookup`, `ProjectedTexts.EveryMessageIsShown`,
  `ProjectedCalls.EveryCallIsShown`, `ProjectedCalls.ResultExactly`.
- Messages enqueued are forwarded once, in order, to idle agents:
  `Session.NothingLost`, `Session.IdleBetweenForwards`. When one waits although
  the viewed agent is idle: `Session.StallsExactly`.

### Claims that fail, and what holds instead

- Truncation may lengthen a text, since it appends a notice:
  `Truncate.CutCanLengthen` says exactly when, `Truncate.TwoBytesGrow` shows it.
  `needs_truncation` and the loop disagree on texts that fill the byte limit
  (`Truncate.CutWithoutNeed`, shown by `Truncate.FullLineIsCut`) and on texts
  with CR LF (`Truncate.NeedWithoutCut`, shown by `Truncate.CrLfLineIsKept`).
- Truncating twice is not truncating once: `Truncate.TruncatingAgain` says
  exactly when it is, `Truncate.LineFeedsVanish` shows a text that changes
  twice without being cut.
- Enforcing the budget can leave the store over it after ten rounds of
  dropping: `Store.EnforcedMeetsLimit` says exactly when it is met,
  `Store.EnforcedBound` has the three ways in which the loop ends, and
  `Store.PushEndsOverLimit` and `Store.GreetingsEndOverLimit` show stores that a
  push leaves over their limit.
- `deep_merge` is not associative; `ConfigMerge.AssociativeExactly` says for
  which three values it is, `ConfigMerge.ScalarInTheMiddle` gives values for
  which it is not.
- A multiline search of an empty file can report line 0, which does not exist:
  `Grep.TouchedIndicesAreLines` is the exact condition,
  `Grep.EmptyFileTouchesLineZero` the input. The callers in
  `crates/loopal-backend/src/search/grep.rs:133-143` pass the index on as it is,
  and the grouping then reads a line that does not exist, which ends in a panic.
- A wait on a reused agent name returns the report of an earlier run, since the
  cache of outputs is never cleared: `Completion.StaleAnswer` is the exact
  condition, `Completion.SecondRunAnswersWithFirst` a run in which it happens.
- When a message makes a tool call and afterwards completes an earlier one, the
  promoted completion takes the place that the index had recorded, and the
  results of the calls before it are dropped: `ProjectedCalls.ResultExactly` is
  the exact condition, `ProjectedCalls.ResultLost` a family of such
  conversations, and `ProjectedCalls.DistinctIdsShowResults` the plain statement
  for conversations in which it cannot happen.
- A store can hold an assistant message with unpaired server blocks, if one is
  pushed as a user message, which release builds accept, and the push does not
  make the store drop and sanitise. `Store.ApplyPairs` is the exact condition
  for each operation, `Store.PairedThroughout` for every run, and
  `Store.UnpairedStays` for a new store.
- Compaction may lose system messages: `Sanitize.CompactionKeepsSystems` and
  `Store.EmergencyKeepsSystems` say exactly when it does not,
  `Store.EmergencyLosesANote` shows a store that loses one.
- A dropped `send_request` may leave its pending entry behind, if it was not
  yet sent or the map is locked: `Link.CancelLeavesEntry` is the exact condition
  for each call, `Link.NoLeakThroughout` for every run, and
  `Link.CancelBeforeSendLeaks` a run of two steps.
- The end of the reader loop fails all waiting requests
  (`Link.ReaderEndSettlesAll`), but a request made after it waits until its own
  send fails or it is dropped (`Link.LateCallWaits`).
- A queued message can wait although the viewed agent is idle, after a change of
  view: `Session.StallsExactly` is the exact condition for each operation,
  `Session.EnteringStalls` a run.
- A task outlives its nominal three days by up to one second, since whole
  seconds are compared: `Scheduler.ExpiredExactly`, shown by
  `Scheduler.OutlivesItsLifetime`.
- Request ids repeat after 2^64 requests: `Connection.IdsRepeat`, shown by
  `Connection.FirstIdReturns`.

### Where the code and its comments differ

The model follows the code.

- `crates/loopal-context/src/ingestion.rs:140` announces a note that a server
  tool "was used"; the code at line 118 writes "result condensed".
- `crates/loopal-ipc/src/connection.rs:110` calls `send_request` safe under
  cancellation; the guard exists only after the send, so a call dropped before
  that leaves its pending entry (`Link.CancelLeavesEntry`).
- `crates/loopal-context/src/compaction.rs:6` speaks of keeping the system
  message; only the leading ones are safe (`Sanitize.CompactionKeepsSystems`).
- `crates/loopal-context/src/degradation.rs:110` announces that emergency
  degradation drops messages; the function only truncates results, dropping is
  the loop of the store.
- `crates/loopal-tool-api/src/truncate.rs:34` promises to say whether the text
  would be truncated; see above.

## Model

| member | source | states |
|---|---|---|
| `Registry.RegisterKeepsForest` | crates/loopal-agent-hub/src/agent_registry/mod.rs:57-80 | registering keeps the forest: listed children are registered, name their lister as parent, are listed once, and no cycle arises |
| `Registry.RegisteredChildren` | crates/loopal-agent-hub/src/agent_registry/mod.rs:67-71 | registering adds exactly one edge, from a registered parent to the new name, and never touches an edge of an existing one |
| `Registry.UnregisterKeepsForest` | crates/loopal-agent-hub/src/agent_registry/mod.rs:82-91 | unregistering keeps the forest, although the children of the removed agent keep its name as parent |
| `Registry.UnregisteredChildren` | crates/loopal-agent-hub/src/agent_registry/mod.rs:83-89 | unregistering removes exactly the edges at the name, above and below |
| `Registry.LifecycleKeepsForest` | crates/loopal-agent-hub/src/agent_registry/mod.rs:134-138 | setting a lifecycle keeps the forest |
| `Registry.ReachableIsForest` | crates/loopal-agent-hub/src/agent_registry/mod.rs:57-91 | every registry reached by registering, unregistering and lifecycle changes is a forest |
| `Registry.NoCycle` | crates/loopal-agent-hub/src/agent_registry/mod.rs:67-71 | in a forest no agent is its own descendant, by paths of any length |
| `Registry.SharedDescendant` | crates/loopal-agent-hub/src/agent_registry/mod.rs:57-91 | two agents with a common descendant are above one another |
| `Registry.SiblingsApart` | crates/loopal-agent-hub/src/agent_registry/mod.rs:57-91 | different children of one agent share no descendant |
| `Registry.Walk` | crates/loopal-agent-hub/src/topology.rs:44-57 | the pop-and-extend loop ends on every forest and lists the trees below the agent, depth first, last child first |
| `Registry.TreesMembers` | crates/loopal-agent-hub/src/topology.rs:44-57 | what is listed below a set of roots is what paths through children reach from them |
| `Registry.TreesNoDup` | crates/loopal-agent-hub/src/topology.rs:44-57 | below siblings nothing is listed twice |
| `Registry.ListingIsTheDescendants` | crates/loopal-agent-hub/src/topology.rs:44-57 | the listing holds every descendant exactly once and nobody else |
| `Hub.AgentRegistry.RegisterConnectionWithParent` | crates/loopal-agent-hub/src/agent_registry/mod.rs:57-80 | succeeds iff the name is free; then the new agent is spawning without children, a registered parent lists it last, every other agent is as before, and the registry is a forest |
| `Hub.AgentRegistry.UnregisterConnection` | crates/loopal-agent-hub/src/agent_registry/mod.rs:82-91 | the agent goes, its recorded parent no longer lists it, its sender is dropped and its channel closed; every other agent and channel is as before, and the forest stays |
| `Hub.AgentRegistry.SetLifecycle` | crates/loopal-agent-hub/src/agent_registry/mod.rs:134-138 | only the lifecycle of a registered name changes |
| `Hub.AgentRegistry.Descendants` | crates/loopal-agent-hub/src/agent_registry/mod.rs:140-145 | every agent reachable through children exactly once, in any valid registry; empty for an unknown name |
| `Hub.AgentRegistry.EmitAgentFinished` | crates/loopal-agent-hub/src/agent_registry/completion.rs:12-31 | marks only this agent finished, caches the output or "(no output)" and sends that to its watcher, drops the sender, interrupts the running children |
| `Hub.AgentRegistry.WatchCompletion` | crates/loopal-agent-hub/src/agent_registry/completion.rs:34-38 | a fresh empty channel takes the name's slot; the earlier receiver's channel is closed, all others are as before |
| `Hub.AgentRegistry.CollectOrphanedChildren` | crates/loopal-agent-hub/src/agent_registry/completion.rs:57-73 | exactly the listed children that are registered and running |
| `Completion.AgentIoLoop` | crates/loopal-agent-hub/src/agent_io.rs:32-109 | returns the last completion result before `agent/completed` or the end, else all streamed text, else nothing |
| `Completion.ReportsTheLastCompletion` | crates/loopal-agent-hub/src/agent_io.rs:32-109 | a run with a completing tool result reports the result of the last one |
| `Completion.ReportsTheStream` | crates/loopal-agent-hub/src/agent_io.rs:32-109 | any other run reports all its streamed text in order, or nothing if that is empty |
| `Completion.NextKeepsInv` | crates/loopal-agent-hub/src/dispatch/wait_handler.rs:20-65 | every step keeps loops, notes, cache, senders, channels and waits consistent |
| `Completion.ReachableInv` | crates/loopal-agent-hub/src/dispatch/wait_handler.rs:20-65 | so they are in every interleaving of any agents, runs and waits |
| `Completion.WaitReturnsTheReport` | crates/loopal-agent-hub/src/dispatch/wait_handler.rs:24-65 | no lost completion: a wait that found its name and did not time out returned the specified output of its run, or "terminated" iff a later wait displaced it |
| `Completion.FinishedRunIsDelivered` | crates/loopal-agent-hub/src/agent_io.rs:164-171 | once the run has finished, a wait still blocked gets its report at the next receive |
| `Completion.LiveRunBlocks` | crates/loopal-agent-hub/src/dispatch/wait_handler.rs:44-51 | while the run is live an undisplaced wait cannot return |
| `Completion.SingleRun` | crates/loopal-agent-hub/src/agent_registry/completion.rs:12-38 | for a name used once the answer is the report of that run, which is over |
| `Completion.StaleAnswer` | crates/loopal-agent-hub/src/dispatch/wait_handler.rs:23-27 | a wait on a live agent answers at once iff the name had a finished run before, and then with that earlier report |
| `Completion.SecondRunAnswersWithFirst` | crates/loopal-agent-hub/src/dispatch/wait_handler.rs:23-27 | after an agent ended and started again, a wait returns at once with what it said the first time |
| `Completion.NotFoundExactly` | crates/loopal-agent-hub/src/dispatch/wait_handler.rs:29-33 | "not found" iff the name is not registered and never finished |
| `JsonRpc.RequestRoundTrip` | crates/loopal-ipc/src/jsonrpc.rs:127-135 | parsing an encoded request gives back its id, method and params |
| `JsonRpc.NotificationRoundTrip` | crates/loopal-ipc/src/jsonrpc.rs:138-145 | parsing an encoded notification gives it back |
| `JsonRpc.ResponseRoundTrip` | crates/loopal-ipc/src/jsonrpc.rs:148-155 | parsing an encoded response gives it back, a null result as an absent one |
| `JsonRpc.ErrorRoundTrip` | crates/loopal-ipc/src/jsonrpc.rs:158-165 | parsing an encoded error response gives back id, code and message |
| `JsonRpc.ParsesExactly` | crates/loopal-ipc/src/jsonrpc.rs:59-95 | which values are messages, and of which kind, by the members they have |
| `JsonRpc.ParsedMembers` | crates/loopal-ipc/src/jsonrpc.rs:48-95 | what is read from a message: ids outside the 64-bit range as 0, `null` members as absent, missing parameters as `null` |
| `JsonRpc.WrittenKinds` | crates/loopal-ipc/src/jsonrpc.rs:127-165 | every message written is a JSON-RPC 2.0 object with exactly the members of its kind |
| `JsonRpc.AnswerTravels` | crates/loopal-ipc/src/connection.rs:75-80 | the value handed to the caller is the value that was responded, null included |
| `JsonRpc.ErrorTravels` | crates/loopal-ipc/src/connection.rs:76-80 | an error reaches the caller before any result, as an object with its code, message and data |
| `Connection.IdsRepeat` | crates/loopal-ipc/src/connection.rs:113 | two requests of one connection have the same id iff their numbers differ by a multiple of 2^64 |
| `Connection.IdsDistinct` | crates/loopal-ipc/src/connection.rs:113 | so the first 2^64 ids are distinct |
| `Connection.FirstIdReturns` | crates/loopal-ipc/src/connection.rs:113 | the request number 2^64 has the first request's id |
| `Connection.Connection.BeginRequest` | crates/loopal-ipc/src/connection.rs:112-118 | the next id is taken and wraps around; the caller waits under it and the request is encoded; a caller already under that id fails, every other one is as before |
| `Connection.Connection.TransportFailed` | crates/loopal-ipc/src/connection.rs:119-122 | the entry is gone, the caller fails unless it was dropped, all others are as before |
| `Connection.Connection.DropRequest` | crates/loopal-ipc/src/connection.rs:187-197 | the caller is gone, and its entry if the guard cleaned it; all others are as before |
| `Connection.Connection.OnData` | crates/loopal-ipc/src/connection.rs:69-91 | malformed data change nothing; a response settles exactly the caller under its id and nobody else; requests and notifications alike are passed on, last |
| `Connection.Connection.ReaderLoop` | crates/loopal-ipc/src/connection.rs:56-103 | the frames in order, then no entry is left and exactly the callers still holding one have failed |
| `Connection.EveryOperationContinues` | crates/loopal-ipc/src/connection.rs:74-133 | while pending entries belong to unsettled callers, no operation changes a caller that no longer waits |
| `Connection.EveryOperationKeepsPending` | crates/loopal-ipc/src/connection.rs:74-133 | answers, failures, cancellations and the end of the reader leave no entry of a settled caller: the sender leaves the map before it is used |
| `Connection.BegunPending` | crates/loopal-ipc/src/connection.rs:112-116 | a new request keeps that, even if its id is taken |
| `Connection.UnknownResponse` | crates/loopal-ipc/src/connection.rs:81-83 | a response to an id that is not pending changes nothing |
| `Connection.DuplicateResponse` | crates/loopal-ipc/src/connection.rs:81-83 | after a response to an id, another response to it changes nothing |
| `Link.ActKeeps` | crates/loopal-ipc/src/connection.rs:112-163 | every action of either side keeps the invariant: what the peer has been passed, followed by what is still on the wire, is what this side sent, requests and notifications, each once and in order; likewise its answers |
| `Link.PostsArrive` | crates/loopal-ipc/src/connection.rs:85-90 | in every run the requests and notifications a side has been passed, followed by those on the wire to it, are those the peer sent, in order |
| `Link.NextKeepsInv` | crates/loopal-ipc/src/connection.rs:49-163 | so does every step of the two connections together |
| `Link.ReachableInv` | crates/loopal-ipc/src/connection.rs:49-163 | and every run of them, of any length, with at most 2^64 requests a side |
| `Link.ResolvedByItsOwnResponse` | crates/loopal-ipc/src/connection.rs:74-133 | a value returned by `send_request` is the first value the peer answered to that very request, which the peer had received with this method and params, and no other request has the id |
| `Link.WaitingIsUnanswered` | crates/loopal-ipc/src/connection.rs:81-83 | no response that arrived while its caller waited was lost |
| `Link.SettledForGood` | crates/loopal-ipc/src/connection.rs:81-83 | in any continuation of any such run, settled callers stay settled the same way |
| `Link.PendingIsUnsettled` | crates/loopal-ipc/src/connection.rs:81-83 | no pending entry, on which a response could act, belongs to a settled caller: each request is resolved at most once |
| `Link.CancelLeavesEntry` | crates/loopal-ipc/src/connection.rs:115-131 | dropping the future of a waiting call leaves its entry exactly if it was not yet sent or the map is locked |
| `Link.CancelBeforeSendLeaks` | crates/loopal-ipc/src/connection.rs:115-131 | a run of two steps that leaves an entry |
| `Link.ActLeaks` | crates/loopal-ipc/src/connection.rs:112-133 | an action of a side without leaks leaves none exactly if it drops no waiting call before its send or while the map is locked |
| `Link.NoLeakThroughout` | crates/loopal-ipc/src/connection.rs:112-133 | in all of a run every pending entry belongs to a waiting call, if and only if every step is of that kind |
| `Link.ReaderEndSettlesAll` | crates/loopal-ipc/src/connection.rs:94-102 | when the reader loop ends no call waits any longer |
| `Link.LateCallWaits` | crates/loopal-ipc/src/connection.rs:112-133 | a call made after that is settled by no step but the failure of its own send or its cancellation |
| `Truncate.TruncateOutput` | crates/loopal-tool-api/src/truncate.rs:5-32 | the kept lines joined, and the notice with the counts of the rest if any is left |
| `Truncate.TruncatedExactly` | crates/loopal-tool-api/src/truncate.rs:5-32 | the longest prefix of lines within both limits, joined; exactly if lines are left over, the notice (worded in `NoticeSays`) with how many lines and bytes |
| `Truncate.LinesExactly` | crates/loopal-tool-api/src/truncate.rs:12-15 | a line is what stands between two line feeds, without a carriage return before the second |
| `Truncate.KeepLines` | crates/loopal-tool-api/src/truncate.rs:15-31 | the loop keeps exactly `Kept` lines and counts what remains, whatever the notice says |
| `Truncate.KeptIsLongest` | crates/loopal-tool-api/src/truncate.rs:15-17 | a prefix of the lines is kept iff it is within the line limit and its counted bytes are within the byte limit: the longest such prefix |
| `Truncate.OmittedBytesExact` | crates/loopal-tool-api/src/truncate.rs:18-19 | the omitted byte count never underflows and is the size of the rest of the text plus one per CR LF already passed |
| `Truncate.CostOfText` | crates/loopal-tool-api/src/truncate.rs:16 | closed form of the counted bytes of a whole text |
| `Truncate.PiecesTile` | crates/loopal-tool-api/src/truncate.rs:12 | the lines with their terminators tile the text |
| `Truncate.CutsExactly` | crates/loopal-tool-api/src/truncate.rs:15-24 | something is dropped iff there are too many lines or the counted size exceeds the limit, from the text alone |
| `Truncate.CutWithoutNeed` | crates/loopal-tool-api/src/truncate.rs:35-37 | `needs_truncation` says no and a line is still dropped iff the text fills the limit to the byte without final line feed or CR LF |
| `Truncate.NeedWithoutCut` | crates/loopal-tool-api/src/truncate.rs:35-37 | it says yes and nothing is dropped iff the text is over the limit, within the lines, and its CR LFs counted once bring it back within |
| `Truncate.CutCanLengthen` | crates/loopal-tool-api/src/truncate.rs:20-23 | the result is longer than the text iff something is cut and the notice outgrows what it reports |
| `Truncate.UncutIsNoLonger` | crates/loopal-tool-api/src/truncate.rs:25-31 | without a cut the result is never longer |
| `Truncate.FullLineIsCut` | crates/loopal-tool-api/src/truncate.rs:16-24 | a single line that fills the byte limit is said to fit and replaced by the notice |
| `Truncate.TwoBytesGrow` | crates/loopal-tool-api/src/truncate.rs:16-24 | a line of two bytes becomes a longer text |
| `Truncate.CrLfLineIsKept` | crates/loopal-tool-api/src/truncate.rs:35-37 | a CR LF line one byte over the limit is said not to fit and is kept |
| `Truncate.UncutStays` | crates/loopal-tool-api/src/truncate.rs:5-32 | a text that is not cut stays as it is exactly if it has no final line feed and no CR LF |
| `Truncate.CutStays` | crates/loopal-tool-api/src/truncate.rs:5-32 | a text that is cut stays as it is exactly if what follows the kept lines is the notice about itself and no CR LF is kept |
| `Truncate.TruncatingAgain` | crates/loopal-tool-api/src/truncate.rs:5-32 | truncating a second time changes nothing exactly under these conditions on the first result |
| `Truncate.LineFeedsVanish` | crates/loopal-tool-api/src/truncate.rs:5-32 | two line feeds become one, and one becomes none, under any sufficient limits |
| `Sanitize.SanitizeToolPairs` | crates/loopal-context/src/compaction.rs:34-82 | the six passes in place compute the one-pass meaning: every block judged on the conversation as given |
| `Sanitize.SanitizeServerToolPairs` | crates/loopal-context/src/compaction.rs:92-127 | in each assistant message empty code executions go, then server blocks without partner |
| `Sanitize.RetainIn` | crates/loopal-context/src/compaction.rs:47-52 | `retain` in every message of one role, the others untouched |
| `Sanitize.SanitizedIds` | crates/loopal-context/src/compaction.rs:34-75 | the call ids left, and the result ids left, are those both called and answered |
| `Sanitize.SanitizedIsClosed` | crates/loopal-context/src/compaction.rs:28-82 | one call closes all pairs, client and server, and leaves no empty message but system ones |
| `Sanitize.NoEmptyExecution` | crates/loopal-context/src/compaction.rs:92-127 | no assistant message is left with a code execution without input |
| `Sanitize.ClosedIsFixed` | crates/loopal-context/src/compaction.rs:34-82 | a closed conversation without empty messages is left alone |
| `Sanitize.SanitizeTwice` | crates/loopal-context/src/compaction.rs:34-82 | a second call changes nothing |
| `Sanitize.SurvivorsAreTheLargestClosedChoice` | crates/loopal-context/src/compaction.rs:28-33 | nothing that could stay with a partner is removed: any closed choice of blocks survives |
| `Sanitize.SanitizeCostsLess` | crates/loopal-context/src/compaction.rs:34-82 | sanitising never raises the token total |
| `Sanitize.SanitizeKeepsSystems` | crates/loopal-context/src/compaction.rs:78-81 | system messages pass unchanged and in order |
| `Sanitize.CompactMessages` | crates/loopal-context/src/compaction.rs:7-26 | the leading system messages and the last messages, sanitised; unchanged if short |
| `Sanitize.CompactionKeepsSystems` | crates/loopal-context/src/compaction.rs:7-26 | compaction keeps the system messages exactly if none lies in the stretch it removes |
| `Ingestion.CapToolResults` | crates/loopal-context/src/ingestion.rs:22-40 | successful results over the given share are cut to 500 lines and 20,000 bytes where they exceed these; every other block stays |
| `Ingestion.SafeTruncatedExactly` | crates/loopal-context/src/ingestion.rs:173-198 | a block is rewritten iff it is a successful result over one of the limits, and then to the truncated text with the notice of what was kept |
| `Ingestion.CondenseServerBlocks` | crates/loopal-context/src/ingestion.rs:108-135 | collecting replacements and removals and applying them by index turns each server call into its note in place, removes each server result and leaves the rest in order |
| `Ingestion.StripOrphanedServerToolBlocks` | crates/loopal-context/src/ingestion.rs:76-105 | server blocks without partner in the message go, the rest keeps its order |
| `Ingestion.CapAssistantServerBlocks` | crates/loopal-context/src/ingestion.rs:47-69 | orphans stripped, then condensed iff a server result is left and the message is over its share |
| `Ingestion.ServerCappedExactly` | crates/loopal-context/src/ingestion.rs:47-105 | a pushed assistant message keeps, in order, the blocks whose partner it holds, or the notes for them if a server result is among them and the message is over its share |
| `Ingestion.CondenseOldServerBlocks` | crates/loopal-context/src/ingestion.rs:145-156 | all assistant messages but the last condensed, other messages untouched |
| `Ingestion.CondenseAllServerBlocks` | crates/loopal-context/src/ingestion.rs:160-166 | all assistant messages condensed |
| `Ingestion.CondensedBlocks` | crates/loopal-context/src/ingestion.rs:112-134 | after condensing no server block is left, and every block is one that was there or the note for a call that was |
| `Ingestion.ServerCappedSound` | crates/loopal-context/src/ingestion.rs:47-69 | a pushed assistant message enters with equal sets of server call and server result ids |
| `Ingestion.ResultsCappedSound` | crates/loopal-context/src/ingestion.rs:22-40 | capping keeps failed results and server blocks as supplied and truncates with the ingestion limits only |
| `Ingestion.TruncatedShape` | crates/loopal-context/src/ingestion.rs:173-184 | any sequence of truncations changes the text of a successful tool result only, and no other block at all |
| `Ingestion.DerivedTrans` | crates/loopal-context/src/ingestion.rs:108-198 | what derives from a derived block derives from the supplied one |
| `Degradation.Calculate` | crates/loopal-context/src/budget.rs:26-54 | the chained saturating subtractions leave the window minus all overheads, or nothing |
| `Degradation.StripEphemeralBlocks` | crates/loopal-context/src/degradation.rs:55-79 | of every message, what is left of each block in order; a message is removed iff nothing is left and it is no system message |
| `Degradation.StrippedExactly` | crates/loopal-context/src/degradation.rs:55-79 | a block goes only if it is thinking or a server result of an assistant message that is not the last, or an image before the last two messages; a server call of such a message becomes its note; every other block stays in place |
| `Degradation.RewriteOldUserBlocks` | crates/loopal-context/src/degradation.rs:85-105 | only user messages before the last four are rewritten, block by block |
| `Degradation.RunSyncDegradation` | crates/loopal-context/src/degradation.rs:31-47 | the three layers in order, each behind its own threshold on the current total, what each does being `StrippedExactly` and `DegradedExactly` |
| `Degradation.DegradedExactly` | crates/loopal-context/src/degradation.rs:31-125 | after layer 0 all blocks stand, and only the texts of successful results in user messages before the last four differ: the big ones above 60% of the budget, all above 90% |
| `Degradation.DropOldestGroup` | crates/loopal-context/src/degradation.rs:131-153 | iff more than four messages follow the system prefix, the first of them goes and the second too if it is a user message; reports how many |
| `Degradation.DegradedSound` | crates/loopal-context/src/degradation.rs:31-125 | degrading keeps server pairs; texts of successful results change only by truncation with the limits in use, and nothing else does but calls condensed to notes |
| `Degradation.DegradedKeepsSystems` | crates/loopal-context/src/degradation.rs:31-125 | system messages stay in order, up to stripped images |
| `Degradation.GroupDroppedKeepsSystems` | crates/loopal-context/src/degradation.rs:131-153 | dropping a group removes no system message |
| `Degradation.GroupDroppedCostsLess` | crates/loopal-context/src/degradation.rs:131-153 | dropping a group lowers the token total |
| `Store.DropWhileOver` | crates/loopal-context/src/store.rs:186-195 | the drop loop with its three exits, and whether it dropped anything |
| `Store.EnforceBudget` | crates/loopal-context/src/store.rs:183-206 | degrade (`Degradation.StrippedExactly`, `DegradedExactly`), drop no more than needed (`DropsNoMoreThanNeeded`), sanitise iff something was dropped |
| `Store.DropsNoMoreThanNeeded` | crates/loopal-context/src/store.rs:186-195 | the loop drops one group after another, each only when over the limit with more than four messages left, and stops early only within the limit or with four left |
| `Store.DropLoopTrims` | crates/loopal-context/src/store.rs:186-195 | the loop keeps all system messages in order, adds nothing, never raises the tokens and takes at most two messages a round |
| `Store.SanitizeKeepsTail` | crates/loopal-context/src/store.rs:196-198 | sanitising never leaves more messages after the system prefix |
| `Store.EnforcedBound` | crates/loopal-context/src/store.rs:183-198 | the result, after the final sanitising, is within 90% of the budget, or has at most four messages after the system prefix, or ten groups were dropped; tokens never rise after degrading; system messages stay |
| `Store.DropLoopCanStopOverLimit` | crates/loopal-context/src/store.rs:188 | a long conversation ends the drop loop over its limit, whatever the tokenizer |
| `Store.DropLoopMeetsLimit` | crates/loopal-context/src/store.rs:186-195 | the loop gets within its limit iff ten rounds of dropping would; otherwise it has dropped all ten |
| `Store.DropsAtOnce` | crates/loopal-context/src/store.rs:188-193 | something is dropped, and so sanitised, iff the start is over the limit and more than four messages follow the system prefix |
| `Store.EnforcedMeetsLimit` | crates/loopal-context/src/store.rs:183-198 | the result is within 90% of the budget iff ten groups less of the degraded conversation are, or are once sanitised after a drop |
| `Store.PushEndsOverLimit` | crates/loopal-context/src/store.rs:40-44 | a store of many short messages is over its limit after one more is pushed |
| `Store.GreetingsEndOverLimit` | crates/loopal-context/src/store.rs:40-44 | a concrete store over its limit after a push, for every tokenizer |
| `Store.UnpairedStays` | crates/loopal-context/src/store.rs:40-44 | a new store is paired after one push exactly if what was pushed is, without any bound on tokens |
| `Store.EmergencyKeepsSystems` | crates/loopal-context/src/store.rs:135-139 | emergency compaction keeps the system messages, up to images, exactly if none lies in the stretch that compaction removes |
| `Store.EmergencyLosesANote` | crates/loopal-context/src/store.rs:135-139 | a store that loses a system message, under any budget and tokenizer |
| `Store.DropsEndClosed` | crates/loopal-context/src/store.rs:196-198 | after a drop the store is pair-closed |
| `Store.ApplyDerives` | crates/loopal-context/src/store.rs:26-144 | every operation, whatever it is given, keeps every block a supplied one, one truncated from it with the limits in use, or the note for a call |
| `Store.ReachableIsDerived` | crates/loopal-context/src/store.rs:18-144 | so in every store reached by any operations at all |
| `Store.LastAssistantStays` | crates/loopal-context/src/degradation.rs:31-125 | an assistant message at the end survives degrading as it is |
| `Store.ApplyPairs` | crates/loopal-context/src/store.rs:34-144 | an operation on a paired store leaves it paired exactly if what it pushes as it is is paired, or the push makes the store drop and sanitise |
| `Store.PairedThroughout` | crates/loopal-context/src/store.rs:18-144 | all stores of a run have equal sets of server call and result ids in each assistant message, if and only if every operation is harmless where it is applied |
| `Store.ReachableIsSound` | crates/loopal-context/src/store.rs:18-144 | every block of any reachable store derives from a supplied one; and with the asserted roles server pairs match |
| `Store.NeverTruncated` | crates/loopal-context/src/store.rs:26-144 | in every reachable store, server results, failed tool results, calls, images and thinking are as supplied or absent |
| `Store.ContextStore.FromMessages` | crates/loopal-context/src/store.rs:26-31 | caps every message by its role, then degrades |
| `Store.ContextStore.ApplyIngestionCaps` | crates/loopal-context/src/store.rs:209-219 | each message capped by its role, system messages untouched |
| `Store.ContextStore.UpdateBudget` | crates/loopal-context/src/store.rs:34-37 | the new budget, enforced |
| `Store.ContextStore.PushUser` | crates/loopal-context/src/store.rs:40-44 | the message appended, budget enforced |
| `Store.ContextStore.PushAssistant` | crates/loopal-context/src/store.rs:47-53 | the message capped at a quarter of the budget and appended, budget enforced |
| `Store.ContextStore.PushToolResults` | crates/loopal-context/src/store.rs:56-62 | results capped at an eighth of the budget, appended, budget enforced |
| `Store.ContextStore.AppendWarningsToLastUser` | crates/loopal-context/src/store.rs:65-76 | warnings end the last message as texts in order; an empty store stays empty |
| `Store.ContextStore.Clear` | crates/loopal-context/src/store.rs:98-100 | no messages, same budget |
| `Store.ContextStore.Truncate` | crates/loopal-context/src/store.rs:102-104 | the first messages, or all |
| `Store.ContextStore.PrepareForLlm` | crates/loopal-context/src/store.rs:109-113 | what goes to the model is pair-closed and has no empty message, whatever the store holds |
| `Store.ContextStore.ApplySummary` | crates/loopal-context/src/store.rs:118-132 | the sanitised summary, with the budget enforced, is taken iff its tokens are within 95% of the budget; otherwise the store is as before |
| `Store.ContextStore.EmergencyCompact` | crates/loopal-context/src/store.rs:135-139 | compacted, sanitised, budget enforced |
| `Store.ContextStore.CondenseServerBlocks` | crates/loopal-context/src/store.rs:142-144 | in every assistant message server calls become notes and server results go; all other messages and blocks stay |
| `Store.ContextStore.TokenAwareKeepCount` | crates/loopal-context/src/store.rs:161-174 | at least two, and beyond that the largest number of last messages that fits in half the budget |
| `Scheduler.NextAfter` | crates/loopal-scheduler/src/expression.rs:48-50 | the least occurrence strictly later, none iff there is none |
| `Scheduler.ParseAt` | crates/loopal-scheduler/src/expression.rs:25-45 | accepted iff it has five fields, compiles and occurs within the lifetime; which error otherwise; the compiled schedule |
| `Scheduler.FieldsBegin` | crates/loopal-scheduler/src/expression.rs:26-29 | the fields counted are the places where something other than white space begins |
| `Scheduler.ExpiredExactly` | crates/loopal-scheduler/src/task.rs:37-39 | expired iff at least the lifetime plus one second old |
| `Scheduler.FiresExactly` | crates/loopal-scheduler/src/task.rs:17-39 | a task fires iff less than its lifetime plus one second has passed since its creation and some occurrence lies after its last fire, or its creation, and not after now |
| `Scheduler.TriggersExactly` | crates/loopal-scheduler/src/tick.rs:36-52 | with distinct ids a tick triggers a task iff it is alive and due |
| `Scheduler.OutlivesItsLifetime` | crates/loopal-scheduler/src/task.rs:37-39 | the last nanosecond at which a task is alive and the first at which it is not |
| `Scheduler.TruncationIsHarmless` | crates/loopal-scheduler/src/task.rs:21-35 | dropping the fraction of a second never changes the next occurrence nor what is due |
| `Scheduler.RemovalIsFiltering` | crates/loopal-scheduler/src/tick.rs:54-65 | removing the sorted indices from the back leaves exactly the tasks neither expired nor fired for good, in order |
| `Scheduler.NextFireIsAhead` | crates/loopal-scheduler/src/scheduler.rs:79-103 | the listed time is the first occurrence after both now and the last use |
| `Scheduler.CronScheduler.Add` | crates/loopal-scheduler/src/scheduler.rs:43-68 | the three outcomes, and a new task only in the accepted one; ids stay distinct and at most fifty |
| `Scheduler.CronScheduler.Remove` | crates/loopal-scheduler/src/scheduler.rs:71-76 | removes exactly the task with the id and says whether there was one |
| `Scheduler.CronScheduler.List` | crates/loopal-scheduler/src/scheduler.rs:79-103 | every task in order with its fields, and as next fire the first occurrence after both now and its last use |
| `Scheduler.CronScheduler.Tick` | crates/loopal-scheduler/src/tick.rs:31-68 | the tasks left are those alive and recurring or not yet due, in order, the due ones stamped; the triggers are those of the tasks alive and due, in order |
| `Scheduler.CronScheduler.MarkDue` | crates/loopal-scheduler/src/tick.rs:36-52 | stamps exactly the tasks that are alive and due and collects the indices of expired and fired ones |
| `Scheduler.TickIsTheSchedulers` | crates/loopal-scheduler/src/tick.rs:31-68 | the recorded history's tick is the scheduler's |
| `Scheduler.RemoveIsTheSchedulers` | crates/loopal-scheduler/src/scheduler.rs:71-76 | the recorded history's removal is the scheduler's |
| `Scheduler.AddIsTheSchedulers` | crates/loopal-scheduler/src/scheduler.rs:49-67 | the recorded history gains exactly the accepted task, and nothing when refused |
| `Scheduler.ReachableOk` | crates/loopal-scheduler/src/scheduler.rs:43-76 | in every run, even with a clock that runs backwards: ids distinct, at most fifty tasks, a one-shot task fires at most once, no expired task fires, each fire answers an occurrence after the last use |
| `Scheduler.FiresAdvance` | crates/loopal-scheduler/src/task.rs:30-35 | fires of one task use strictly later occurrences at strictly later seconds and never twice in one minute |
| `Scheduler.FireCountBound` | crates/loopal-scheduler/src/task.rs:30-35 | a task has fired at most as often as occurrences lie between its creation and its last fire |
| `Scheduler.AcceptedTaskIsPending` | crates/loopal-scheduler/src/expression.rs:35-39 | an accepted task has its first occurrence within its lifetime, is neither due nor expired before it, and due from then on unless expired |
| `Scheduler.TaskWaits` | crates/loopal-scheduler/src/tick.rs:36-52 | until its next occurrence a task stays unchanged through any operations that do not remove it |
| `Scheduler.FiresAtItsFirstChance` | crates/loopal-scheduler/src/tick.rs:36-52 | an accepted task triggers at the first tick at or after its first occurrence unless that tick is past its lifetime |
| `Scheduler.FiresAgain` | crates/loopal-scheduler/src/tick.rs:36-52 | a recurring task that has fired fires again at the first tick at or after its next occurrence, unless removed or expired |
| `Grep.TableSearchCounts` | crates/loopal-backend/src/search/grep_match.rs:17-22 | bisecting the newline table counts the newlines before a byte |
| `Grep.PartitionPoint` | crates/loopal-backend/src/search/grep_match.rs:21-22 | everything before the point is below the bound, everything from it on is not |
| `Grep.FindMatchIndices` | crates/loopal-backend/src/search/grep_match.rs:9-38 | multiline: exactly the lines spanned by some match, clipped to the last line; otherwise exactly the lines that match |
| `Grep.TouchedIndicesAreLines` | crates/loopal-backend/src/search/grep_match.rs:16-29 | all indices are lines of the file iff the file is not empty or nothing matched |
| `Grep.EmptyFileTouchesLineZero` | crates/loopal-backend/src/search/grep_match.rs:23-29 | an empty file with an empty match reports line 0, which it does not have |
| `Grep.MergeRanges` | crates/loopal-backend/src/search/grep_match.rs:47-62 | touching or overlapping ranges are joined, gaps remain, and together they cover the same lines |
| `Grep.CollectContextGroups` | crates/loopal-backend/src/search/grep_match.rs:41-76 | a line is listed iff it is in the context of a match, flagged iff it is a match, in consecutive groups, ascending, with a gap between them |
| `Grep.ListedOnce` | crates/loopal-backend/src/search/grep_match.rs:63-75 | no two groups list the same line |
| `ConfigMerge.DeepMerge` | crates/loopal-config/src/loader.rs:16-30 | the recursion over the overlay's entries, in any order, computes one merged value |
| `ConfigMerge.OverlayWins` | crates/loopal-config/src/loader.rs:16-30 | at every path of the overlay the result has its value merged into the base's; a leaf is found as it is |
| `ConfigMerge.BaseSurvives` | crates/loopal-config/src/loader.rs:16-30 | a path the overlay neither reaches nor cuts keeps what the base had |
| `ConfigMerge.CutPathsVanish` | crates/loopal-config/src/loader.rs:27-29 | every other path is gone, cut by a non-object of the overlay |
| `ConfigMerge.MergeTwice` | crates/loopal-config/src/loader.rs:16-30 | merging the same overlay again changes nothing |
| `ConfigMerge.OverriddenExactly` | crates/loopal-config/src/loader.rs:16-30 | the result is the overlay iff the overlay overrides every member of the base |
| `ConfigMerge.AssociativeExactly` | crates/loopal-config/src/loader.rs:16-30 | three layers may be merged in either grouping iff no middle non-object stands between objects whose members the last does not override |
| `ConfigMerge.ScalarInTheMiddle` | crates/loopal-config/src/loader.rs:27-29 | three values for which the groupings differ |
| `Resolver.ConfigResolver.Resolve` | crates/loopal-config/src/resolver.rs:29-123 | an error iff the merged value cannot be read; otherwise instructions, memory, hooks, servers, sources and the synchronised settings are what the layers say (`Agrees`), and the rest is the fold |
| `Resolver.ResolutionAgrees` | crates/loopal-config/src/resolver.rs:74-122 | instructions and memory are the layers' own texts, trimmed, non-blank, lowest layer first, joined by an empty line; each hook stands at its offset with its layer's source; settings and sources agree position by position |
| `Resolver.TrimIsTrimmed` | crates/loopal-config/src/resolver.rs:84-97 | trimming cuts white space at the ends only and leaves none there; nothing is left iff the text is blank |
| `Resolver.HooksStand` | crates/loopal-config/src/resolver.rs:75-81 | hook `k` of layer `i` stands at its offset with that layer's source |
| `Resolver.ConfigResolver.AddLayer` | crates/loopal-config/src/resolver.rs:24-26 | layers keep the order in which they were added |
| `Resolver.MergeServers` | crates/loopal-config/src/resolver.rs:48-61 | the layer's servers inserted if enabled and shift-removed if not, in order |
| `Resolver.MergeSkills` | crates/loopal-config/src/resolver.rs:63-72 | the layer's skills inserted by name, in order, with the layer as source |
| `Resolver.AppendHooks` | crates/loopal-config/src/resolver.rs:74-80 | the layer's hooks follow, in order, with their source |
| `Resolver.LaterLayersKeep` | crates/loopal-config/src/resolver.rs:40-46 | layers that leave a path alone keep it as it was |
| `Resolver.LastLeafWins` | crates/loopal-config/src/resolver.rs:40-46 | a leaf survives all later layers that leave its path alone, whatever came before |
| `Resolver.LastCutWins` | crates/loopal-config/src/resolver.rs:40-46 | a path cut by a layer stays gone under all later layers that leave it alone |
| `Resolver.LastNamingDecides` | crates/loopal-config/src/resolver.rs:48-61 | a server is present iff the last layer naming it enables it, with that layer's configuration and source |
| `Resolver.ServersInOrder` | crates/loopal-config/src/resolver.rs:48-61 | no server twice, in the order in which each came to stay: replacing keeps the place, removing and naming again does not |
| `IndexMaps.BuiltFind` | crates/loopal-config/src/resolver.rs:48-73 | after any insertions and removals a key holds what was last said about it |
| `IndexMaps.BuiltInOrder` | crates/loopal-config/src/resolver.rs:48-73 | and the entries stand in the order of the insertions since which they are present |
| `Resolver.SkillNames` | crates/loopal-config/src/resolver.rs:63-72 | the last skill of a name in the last layer that has one is the one kept, with that layer as source |
| `Normalize.NormalizeMessages` | crates/loopal-message/src/normalize.rs:7-38 | merging runs in place, then the block order, computes the normal form |
| `Normalize.StabilizeUserBlockOrder` | crates/loopal-message/src/normalize.rs:42-68 | reorders iff a text stands before the first tool result |
| `Normalize.RunsAlternate` | crates/loopal-message/src/normalize.rs:10-26 | no system message, and neighbours never share a role |
| `Normalize.RunsSayTheSame` | crates/loopal-message/src/normalize.rs:10-26 | merging loses, adds and moves nothing of what each role says |
| `Normalize.RunsOpen` | crates/loopal-message/src/normalize.rs:10-26 | there is one run for each message that is not by whoever spoke before, with its id and role |
| `Normalize.TextFirstExactly` | crates/loopal-message/src/normalize.rs:42-55 | the order is disturbed iff a text has a tool result after it and none before it |
| `Normalize.NormalizedMessages` | crates/loopal-message/src/normalize.rs:28-68 | each message is its run, or, for a user run whose order is disturbed, its tool results followed by everything else, both in order |
| `Normalize.NormalizedAlternates` | crates/loopal-message/src/normalize.rs:7-38 | roles strictly alternate |
| `Normalize.NormalizeTwice` | crates/loopal-message/src/normalize.rs:7-38 | normalising twice is normalising once |
| `Projection.ProjectMessages` | crates/loopal-protocol/src/projection.rs:16-99 | the two loops run the index machine over the conversation; what that shows is `ProjectedTexts.EveryMessageIsShown` and `ProjectedCalls.EveryCallIsShown` |
| `Projection.ProjectBlock` | crates/loopal-protocol/src/projection.rs:26-84 | one block of the machine, case by case |
| `Projection.BackPatch` | crates/loopal-protocol/src/projection.rs:102-129 | writes the flag, and the text unless it is a completion, at the indexed position if it exists; promotes completions of known calls |
| `Projection.TruncateResult` | crates/loopal-protocol/src/projection.rs:140-153 | the first 200 lines, cut to their longest prefix of at most 10,000 bytes that ends at a character boundary |
| `Projection.BackPatchAdvances` | crates/loopal-protocol/src/projection.rs:102-129 | writing at the indexed position changes exactly the call that owns the id |
| `Projection.BlocksRefine` | crates/loopal-protocol/src/projection.rs:26-84 | reading a message keeps the index on the owners, or on positions that no call has |
| `Projection.MessagesRefine` | crates/loopal-protocol/src/projection.rs:20-98 | from any point of a conversation the machine's output is what it has emitted, brought up to date, and the rest looked up |
| `Projection.IndexAgreesWithLookup` | crates/loopal-protocol/src/projection.rs:16-129 | for every conversation, writing back through the index equals looking each call's result up in the later messages |
| `ProjectedTexts.EveryMessageIsShown` | crates/loopal-protocol/src/projection.rs:16-99 | in order, exactly the messages with a call or a non-empty text, with role name, concatenated text and placeholders, and image count; before each the completions it promotes, in full |
| `ProjectedTexts.ReadIs` | crates/loopal-protocol/src/projection.rs:26-84 | reading blocks appends their texts, "[image]" for an image and nothing else, and counts images and calls |
| `ProjectedCalls.LostExactly` | crates/loopal-protocol/src/projection.rs:40-48 | a call loses its results within its message iff its id is used again or a known call's completion follows |
| `ProjectedCalls.OwnersRead` | crates/loopal-protocol/src/projection.rs:26-84 | a call keeps its place and identity, and its claim on results iff it is not lost |
| `ProjectedCalls.LiveBlocksConcat` | crates/loopal-protocol/src/projection.rs:26-84 | reading a message in two parts is reading it at once |
| `ProjectedCalls.EveryCallIsShown` | crates/loopal-protocol/src/projection.rs:16-129 | the calls of the projection are those of the conversation, one for one and in order, each with its name, input and summary, the last server result for it in its message, and the flag and text of its looked-up results unless lost |
| `ProjectedCalls.ServerResultRead` | crates/loopal-protocol/src/projection.rs:74-82 | a call shows the text of the last server result for it in its message, if there is one |
| `ProjectedCalls.DistinctIdsShowResults` | crates/loopal-protocol/src/projection.rs:16-129 | with distinct ids and no message holding a call and a completion, each client call shows the last non-completion result of a later message, or none, and the last error flag |
| `ProjectedCalls.ResultExactly` | crates/loopal-protocol/src/projection.rs:102-129 | at its place in the projection, a client call shows the text of the last non-completion result for its id in a later message iff there is none or the call was not lost |
| `ProjectedCalls.ResultLost` | crates/loopal-protocol/src/projection.rs:121-128 | conversations in which a result is dropped because a completion took the recorded place |
| `Session.SessionController.TryForwardInbox` | crates/loopal-session/src/inbox.rs:56-83 | the oldest message goes to the viewed agent iff that is idle and there is one; the agent is then busy and nothing else changes |
| `Session.SessionController.EnqueueMessage` | crates/loopal-session/src/controller.rs:89-93 | queued at the end; the oldest is forwarded iff the viewed agent is idle; what was queued is what was forwarded followed by the queue |
| `Session.SessionController.HandleIdle` | crates/loopal-session/src/agent_lifecycle.rs:9-34 | the agent is idle unless it takes the oldest message, which it does iff it is viewed; each status but finished ends a turn, finishing ends the view |
| `Session.SessionController.RegisterSpawnedAgent` | crates/loopal-session/src/agent_lifecycle.rs:37-58 | the agent with its parent, listed once by a known parent |
| `Session.SpawnedExactly` | crates/loopal-session/src/agent_lifecycle.rs:37-58 | spawning sets the parent, lists the agent once below a known one, and changes nothing else of any agent |
| `Session.SessionController.ApplyAgentEvent` | crates/loopal-session/src/agent_handler.rs:20-219 | each event's effect on status, idle flag and view |
| `Session.RestsExactly` | crates/loopal-session/src/agent_lifecycle.rs:9-34 | waiting, finishing and an interrupt: the new status, idle flag, turn count, view and queue |
| `Session.GoesOnExactly` | crates/loopal-session/src/agent_handler.rs:20-219 | any other event sets the status it stands for, keeps the rest, and ends the view of an agent that has failed |
| `Session.SessionController.HandleEvent` | crates/loopal-session/src/event_handler.rs:9-60 | routing: spawned agents are registered first, then the event goes to its agent, and to the root if it has none |
| `Session.SessionController.EnterAgentView` | crates/loopal-session/src/agent_ops.rs:21-34 | the view changes iff the agent is known, neither finished nor failed, and another one |
| `Session.SessionController.ExitAgentView` | crates/loopal-session/src/agent_ops.rs:37-42 | the view is the root |
| `Session.SessionController.PopInboxToEdit` | crates/loopal-session/src/session_display.rs:11-13 | the queue was what is left followed by the message taken |
| `Session.NextKeepsInv` | crates/loopal-session/src/agent_lifecycle.rs:9-34 | every operation keeps the view on a known agent and the idle flags equal to what last happened |
| `Session.ReachableInv` | crates/loopal-session/src/agent_lifecycle.rs:9-72 | so in every run the active view is a known agent |
| `Session.IdleBetweenForwards` | crates/loopal-session/src/inbox.rs:56-83 | between two forwards to an agent, and before the first, that agent became idle |
| `Session.NextConserves` | crates/loopal-session/src/inbox.rs:56-83 | every operation but edits and clears keeps enqueued equal to forwarded plus queued |
| `Session.NothingLost` | crates/loopal-session/src/controller.rs:89-93 | in every run without edits and clears, what was enqueued is what was forwarded, in order, followed by the queue |
| `Session.StallsExactly` | crates/loopal-session/src/inbox.rs:56-83 | operation by operation, when a message is left waiting for an idle viewed agent, and which agent is viewed |
| `Session.StallsByViewChange` | crates/loopal-session/src/agent_ops.rs:21-42 | a message starts to wait for an idle agent only when the view changes: entered, left, or its agent finished or failed |
| `Session.NothingElseForwards` | crates/loopal-session/src/inbox.rs:56-83 | only an enqueue or an idle event forwards anything |
| `Session.EnteringStalls` | crates/loopal-session/src/agent_ops.rs:21-34 | a run in which the viewed agent is idle and a message stays queued |

## Left out

- Text syntax of JSON, the array form that serde accepts for a message, and
  duplicate keys: values are trees, so parsing starts from a tree.
- Transports, channel back-pressure and the framing loop `read_message`: a link
  is a pair of ordered queues of arbitrary length.
- The waiting half of `send_request` is not a method: the caller's status in
  `Endpoint` says what it returns, and an application answers only requests it
  received.
- Link.ReachableInv: runs of any length in which neither side makes more than
  2^64 requests, since ids repeat after that (`Connection.IdsRepeat` says when).
- The tokenizer and the character heuristic are arbitrary functions from blocks
  to natural numbers; 32-bit overflow of the budget arithmetic, which needs a
  window of more than 47 million tokens, is not modelled.
- Text is the sequence of its UTF-8 bytes, one `char` each; trimming and
  splitting know the ASCII white space only.
- Wall-clock limits: the ten-minute wait is a `TimeOut` step that may come at
  any moment; the relay's limit is left out.
- `set_local` and local channels of the registry, event delivery (`try_send`
  may drop events), and the connection objects themselves.
- Dispatch of other hub requests and the relays to user interfaces in
  `agent_io_loop`: they do not touch the output.
- The schedule library is a finite set of whole minutes; random task ids are a
  parameter that must be unused, so the retry loop is not modelled; starting
  the tick task twice and the sending of triggers are left out.
- Scheduler.CronScheduler.Add: takes the identifier as an argument instead of
  drawing it, because randomness is outside the model.
- The regular expression engine: matches are given as spans within the text.
- Grep.CollectContextGroups: requires the indices to lie in the file, because
  the code would index out of bounds otherwise;
  `Grep.TouchedIndicesAreLines` says when they do.
- Reading the merged value as settings is a parameter of
  `Resolver.ConfigResolver.Resolve` that may fail; the warning about unknown
  keys, loading layers from files, environment overrides and the extraction of
  typed fields are left out.
- `summarize_input` slices at byte 57 and panics inside a character; the model
  takes the bytes. Metadata of projected calls, always absent, is left out.
- `strip_old_thinking`, which the store does not use.
- The debug assertions of roles in the store's operations: the methods take any
  message, as release builds do.
- What the session displays: streaming text, tool rows, banners, modes, the
  truncation to twenty messages, references to sub-agents. Permission and
  question answers are left out.
- Delivery of a forwarded message: `route_message` reads the active view again
  after the lock is released; the model records the agent viewed at the moment
  of the forward.
- Memory and aliasing inside values: messages, agents and tasks are values held
  by the object that owns them.
