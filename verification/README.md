# AI Fence CLI: a Dafny model of its stateful cores

AI Fence CLI launches coding agents behind a local proxy. Its correctness rests on a few
stateful or algorithmic cores: a WebSocket relay that must never replay a frame, a reconnect
protocol between one command and many desktop adapters, credential refresh shared by several
processes, and a handful of wire contracts that other parts hash, extend or search. This project
models those cores and proves what they promise over every input, every schedule and every run.

`dafny verify dfyconfig.toml` covers all files.

| file | what it models |
|---|---|
| `RelayLoop.dfy` | the select loop of the local WebSocket proxy; the network is a schedule of results, and the promises are about what crosses the two sockets |
| `UpstreamRetry.dfy` | the bounded retry loop that opens an upstream WebSocket |
| `SseScanner.dfy` | the chunked search for error frames in a forwarded stream |
| `SseFrames.dfy`, `MessageReassembly.dfy` | putting a streamed Anthropic message back together, from the text of the stream |
| `AnthropicStream.dfy` | what a server streams, by the names of the protocol, and that it comes back |
| `ReconnectSession.dfy` | one adapter's idle shutdown, serialized against its input thread |
| `ReconnectProtocol.dfy` | the shared reconnect request: one command at a time, any number of adapters |
| `ThreadLeases.dfy` | which process owns a saved thread |
| `WorkspaceLifecycle.dfy` | the named workspaces one adapter holds for its chats |
| `CredentialRefresh.dfy` | redeeming refresh tokens from a credential file shared by processes |
| `Json.dfy`, `JsonWalk.dfy` | JSON values; the bounded explicit-stack walk |
| `JsonText.dfy` | JSON text and a reader of compact text, from the grammar of RFC 8259 |
| `CanonicalJson.dfy` | canonical request bytes and the reader that refuses repeated keys |
| `NativeHistory.dfy` | the history of native function turns: validation and multi-turn extension |
| `SettingsSwitch.dfy` | setup, automatic update, rollback and uninstall of an installation |
| `GuidanceSplice.dfy` | the marker-block rewrite of the user's AGENTS.md |
| `Text.dfy`, `Wrappers.dfy` | white space and trimming; `Option` and `Result` |

Conventions. Code that changes state step by step is a class or a method with loops, tied by its
`ensures` to a function on values; the lemmas are about that function. Concurrency is a state
machine whose steps are the sections under one lock or gate, one file replacement, or one read;
`Run` follows any list of steps, and a step that is not possible changes nothing. Whatever the code
cannot decide (the network, clocks, file errors, the registry's answers) is a parameter of a step.

Where a promise does not hold of the code as it is, the code is kept, an example run or input is
given, and the exact condition is proved:

- Every accepted request is answered or reported. It fails in `RelayLoop.SilentLossHappens` and
  `RelayLoop.OverlapLossHappens`, and holds exactly as `RelayLoop.TurnsAccountedFor` and, request by
  request, `RelayLoop.RequestsAccountedFor` say.
- A refused message means that the session stops: `ReconnectSession.RefusedWithoutStopping`, exactly
  `ReconnectSession.RefusedIff`. A session can still stop: `ReconnectSession.StuckNeverStops`, exactly
  `ReconnectSession.StopsIff`. A late answer to a request for a completed turn leaves its thread
  alone: `ReconnectSession.ForgottenTurnRuns`, exactly `ReconnectSession.LateAnswerIff`.
- A report of shutting down means that the adapter closes: `ReconnectProtocol.FailedCommitStays`,
  exactly `ReconnectProtocol.DrainsIffPublished`.
- A held thread is refused to others: `ThreadLeases.UnreadableIsEvicted`, exactly
  `ThreadLeases.RefusedIffProtected`.
- References, leases and threads stay accounted for: `WorkspaceLifecycle.TangledReleases`,
  `WorkspaceLifecycle.BorrowedThenOwnedLeaks` and `WorkspaceLifecycle.FailedAttachOutlives`, exactly
  `WorkspaceLifecycle.RequestKeeps` and `WorkspaceLifecycle.ResponseKeeps`.
- Refreshed credentials are usable: `CredentialRefresh.HugeLifetimeIsExpired`, exactly
  `CredentialRefresh.UsableUnlessOverflow`. A refresh token is sent once:
  `CredentialRefresh.LostSaveResends`, exactly `CredentialRefresh.ResentIff`.
- A rollback keeps profile and state home: `SettingsSwitch.RollbackAfterUninstallChangesProfile` and
  `SettingsSwitch.StaleRollbackMovesHome`, exactly `SettingsSwitch.RollbackKeepsIdentityIff`. It can be
  undone: `SettingsSwitch.StaleRollbackForgets`, exactly `SettingsSwitch.RollbackUndoneIff` and
  `SettingsSwitch.UpdateReturnsIff`. A setup can be rolled back:
  `SettingsSwitch.ChangedCommandBlocksRollback`, exactly `SettingsSwitch.SetupCanBeRolledBackIff`.

## Model

| member | source | states |
|---|---|---|
| `RelayLoop.SessionKeepsPromises` | crates/ai-fence-cli-core/src/proxy.rs:1083-1331 | Over every schedule: what is sent upstream is an in-order subsequence of what the client sent, without the request whose dial failed; after a failed first dial exactly the first request is discarded and nothing is dialled before a second one; upstream frames reach the client in order with none lost or repeated; there is one connection at a time, and one that reported its end is never used again; every request has one outcome (at most one dropped as the session ends); error events match failures one to one |
| `RelayLoop.StepHasFate` | crates/ai-fence-cli-core/src/proxy.rs:1096-1331 | In every session the two sockets alone decide what an iteration does: which frames are sent and on which connection, what is dialled, discarded, passed on, reported, pinged and closed |
| `RelayLoop.FirstRequestAnsweredOnce` | crates/ai-fence-cli-core/src/proxy.rs:1080-1129 | After a failed first dial the first request is discarded as soon as it is read, everything sent comes after it, and nothing is dialled or sent before a second request; after a first dial that worked nothing is discarded |
| `RelayLoop.RequestsAreTextOrBinary` | crates/ai-fence-cli-core/src/proxy.rs:1118-1121 | A first frame that cannot be sent is reported exactly when it is a text or binary frame |
| `RelayLoop.CompletedOrFailedEndsTurn` | crates/ai-fence-cli-core/src/proxy.rs:1652-1670 | After a reply the end of the upstream goes unreported exactly when the reply was a completed or failed response |
| `RelayLoop.ProxyWebsocket` | crates/ai-fence-cli-core/src/proxy.rs:1060-1331 | The loop over its own variables reaches the same session and keeps the same promises; only the client's side ends it |
| `RelayLoop.TurnsAccountedFor` | crates/ai-fence-cli-core/src/proxy.rs:1083-1319 | The accepted requests are the turns completed, interrupted with an error event, ended by a failed request with its error event, or still open, if and only if no control frame failed to be sent during a turn and no request was accepted during one |
| `RelayLoop.RequestsAccountedFor` | crates/ai-fence-cli-core/src/proxy.rs:1083-1331 | Request by request: each accepted one was answered, waits, or has an interrupted error of its own, if and only if no connection ended with requests waiting on it but for a single one whose turn was open and whose end a read saw |
| `RelayLoop.StepCounts` | crates/ai-fence-cli-core/src/proxy.rs:1096-1331 | One iteration loses a turn silently, overlaps a turn, or neglects a request exactly under the three stated guards |
| `RelayLoop.SilentLossHappens` | crates/ai-fence-cli-core/src/proxy.rs:1217-1237 | A schedule in which a failed ping ends the turn and the client is told nothing |
| `RelayLoop.OverlapLossHappens` | crates/ai-fence-cli-core/src/proxy.rs:1241-1319 | A schedule in which two requests are accepted before the first response: it ends the turn, and when the upstream then ends the second request is lost and nothing is reported |
| `UpstreamRetry.Connect` | crates/ai-fence-cli-core/src/proxy.rs:1337-1429 | For any limits and network: a handshake is made exactly when all before it may be retried and costs, backoffs and oversleeps leave time for it, is reported exactly when it also ends in time, and is waited for exactly when it then may be retried and time is left; sleeps are the capped doubling sequence cut at the deadline; the answer is the last report when that one is final and otherwise carries the latest HTTP status, and is given only when the time is spent |
| `UpstreamRetry.ConnectAnswers` | crates/ai-fence-cli-core/src/proxy.rs:1360-1429 | The first outcome that ends the loop is the answer when it comes in time: every failure before it was retried |
| `UpstreamRetry.IsPermanent` | crates/ai-fence-cli-core/src/proxy.rs:1532-1540 | Only client errors are final, and neither a timeout nor too many requests is |
| `UpstreamRetry.ConnectInProduction` | crates/ai-fence-cli-core/src/proxy.rs:26-37 | With the shipped constants at most 28 handshakes are made, whatever they cost |
| `UpstreamRetry.RefusedIsTried28Times` | crates/ai-fence-cli-core/src/proxy.rs:26-37 | The bound is met by an upstream that refuses at once |
| `UpstreamRetry.TryOnce` | crates/ai-fence-cli-core/src/proxy.rs:1360-1410 | One handshake is reported exactly when it ends in time, and is to be retried exactly when it is then neither opened nor refused for good; the most recent HTTP status is kept |
| `SseScanner.SseErrorEventScanner.Scan` | crates/ai-fence-cli-core/src/proxy.rs:804-821 | A call is true exactly when a marker starts in the carried bytes or later; with the earlier calls it decides whole-stream search |
| `SseScanner.ScanStream` | crates/ai-fence-cli-core/src/proxy.rs:795-822 | For every splitting into chunks: within the first k calls there is an alarm exactly when a marker occurs in the first k chunks together |
| `SseScanner.ChunkSearch` | crates/ai-fence-cli-core/src/proxy.rs:810-819 | Keeping the last L-1 bytes loses no marker that crosses a chunk boundary |
| `SseScanner.ShippedMarkersSearchable` | crates/ai-fence-cli-core/src/proxy.rs:790-793 | The shipped markers are non-empty, as the search needs |
| `SseFrames.ReadFrames` | crates/ai-fence-cli-core/src/proxy.rs:840-861 | The loops over pieces and lines read the frames of the text: comments and unknown lines are skipped, data lines are joined, pieces without data or with data that is no JSON give nothing |
| `SseFrames.WrittenReads` | crates/ai-fence-cli-core/src/proxy.rs:840-861 | Whatever events are written, with comments, unknown lines, several data lines and either line break, what is read is what they mean: the last name, the joined data, and nothing for events without readable data |
| `SseFrames.PiecesAfterSolid` | crates/ai-fence-cli-core/src/proxy.rs:840 | A piece ends at the first blank line after it, and what follows is cut on its own |
| `SseFrames.SynthesizeText` | crates/ai-fence-cli-core/src/proxy.rs:829-942 | From the text of the stream: the last error, or else the message |
| `MessageReassembly.Synthesize` | crates/ai-fence-cli-core/src/proxy.rs:829-942 | There is an error exactly when some frame is one, by name or type, and then the last one is returned; otherwise the message made of head and finalized blocks |
| `MessageReassembly.AggregateHead` | crates/ai-fence-cli-core/src/proxy.rs:868-904 | What the start and the delta of a message change, and nothing else |
| `MessageReassembly.AggregateContent` | crates/ai-fence-cli-core/src/proxy.rs:880-891 | What the start and the delta of a block change, and no other block |
| `MessageReassembly.FinalizeContent` | crates/ai-fence-cli-core/src/proxy.rs:915-917 | Every block is finalized, in place |
| `MessageReassembly.EnsureContentIndex` | crates/ai-fence-cli-core/src/proxy.rs:944-948 | Pads with empty text blocks up to the index and changes no block that is there |
| `MessageReassembly.FinalizeToolUse` | crates/ai-fence-cli-core/src/proxy.rs:971-994 | A finished tool call has no `partial_json` and has an object as its input |
| `MessageReassembly.ContentByBlock` | crates/ai-fence-cli-core/src/proxy.rs:880-891 | A block depends only on its own events in their order, however they are interleaved with others |
| `MessageReassembly.ContentExtent` | crates/ai-fence-cli-core/src/proxy.rs:944-948 | There are as many blocks as the largest index named, plus one |
| `MessageReassembly.ChunksJoin` | crates/ai-fence-cli-core/src/proxy.rs:950-1014 | Whatever the chunking, a field that deltas name holds its first text followed by theirs, and every other field is as it was |
| `MessageReassembly.BlockRoundTrip` | crates/ai-fence-cli-core/src/proxy.rs:950-1014 | A block cut into a start and deltas in any way comes back as it was |
| `MessageReassembly.MessageRoundTrip` | crates/ai-fence-cli-core/src/proxy.rs:829-1026 | Whatever the chunking and the interleaving, the streamed message comes back exactly, with the defaults for what was not sent |
| `MessageReassembly.LastFailureIs` | crates/ai-fence-cli-core/src/proxy.rs:862-865 | The last frame that is an error by name or type is the one reported |
| `MessageReassembly.NoFailureIs` | crates/ai-fence-cli-core/src/proxy.rs:862-865 | No error is reported exactly when no frame is one |
| `AnthropicStream.SentComesBack` | crates/ai-fence-cli-core/src/proxy.rs:829-1026 | From events with the protocol's own type and member names, whatever the cutting of blocks into pieces and the interleaving, the reassembly is the message that was sent; blocks without an index are block 0 and blocks never opened are empty texts |
| `AnthropicStream.SynthesizeSent` | crates/ai-fence-cli-core/src/proxy.rs:829-942 | The aggregation loop, run on such events, returns that message and no error |
| `AnthropicStream.TextComesBack` | crates/ai-fence-cli-core/src/proxy.rs:829-1026 | The same from any text that means these events |
| `AnthropicStream.CompactTextComesBack` | crates/ai-fence-cli-core/src/proxy.rs:829-1026 | The same from events printed as compact JSON and read back by the grammar, tool arguments included, with nothing assumed of a parser |
| `ReconnectSession.ReconnectSession.EnterInput` | crates/ai-fence-cli-core/assets/codex_desktop.py:1107-1115 | An input is admitted, and counted, exactly while the session is not draining |
| `ReconnectSession.ReconnectSession.LeaveInput` | crates/ai-fence-cli-core/assets/codex_desktop.py:1116-1122 | The input is uncounted and nothing else changes |
| `ReconnectSession.ReconnectSession.Client` | crates/ai-fence-cli-core/assets/codex_desktop.py:1124-1135 | A client message is refused exactly while draining, and otherwise its request or answer is tracked |
| `ReconnectSession.ReconnectSession.Native` | crates/ai-fence-cli-core/assets/codex_desktop.py:1137-1157 | A native message updates approvals, pending requests, active and completed turns |
| `ReconnectSession.ReconnectSession.PollChecked` | crates/ai-fence-cli-core/assets/codex_desktop.py:1181-1213 | Draining begins only in an idle session that serves a request without a reason against it |
| `ReconnectSession.ReconnectSession.Recover` | crates/ai-fence-cli-core/assets/codex_desktop.py:1170-1179 | The handler undoes draining and records the rejection |
| `ReconnectSession.SessionIsSafe` | crates/ai-fence-cli-core/assets/codex_desktop.py:1107-1217 | For every interleaving of input thread and output loop: at most one input is counted, draining means ready with nothing counted, held or awaited, the failure inside `client` never happens, and readiness, pending requests with their threads, approvals, running turns and remembered turns are exactly what the positions in the traffic say |
| `ReconnectSession.DrainingBeginsIff` | crates/ai-fence-cli-core/assets/codex_desktop.py:1181-1213 | Draining begins exactly in a poll that serves a request of its own, never declined before, in a session where the client has initialized, no input is being processed, and the traffic leaves no request, approval or turn open; the report marked is this request's |
| `ReconnectSession.PollFailsIff` | crates/ai-fence-cli-core/assets/codex_desktop.py:1167-1213 | A poll fails exactly when the request is unreadable, a reason cannot be noted, or a quiet session cannot lock, finds the installation changed, or cannot mark or publish |
| `ReconnectSession.TerminalIffDeclined` | crates/ai-fence-cli-core/assets/codex_desktop.py:1186-1198 | An operation is passed over exactly when an earlier poll noted a reason against it |
| `ReconnectSession.RemembersCompleted` | crates/ai-fence-cli-core/assets/codex_desktop.py:1149-1153 | Up to 256 completed turns are all remembered, and nothing else is |
| `ReconnectSession.LateAnswerIff` | crates/ai-fence-cli-core/assets/codex_desktop.py:1142-1146 | An answer after its turn completed leaves its thread as it was exactly when the turn is still remembered or another turn of the thread runs |
| `ReconnectSession.ForgottenTurnRuns` | crates/ai-fence-cli-core/assets/codex_desktop.py:1149-1153 | A run in which 256 other turns complete in between, and the late answer leaves the thread running |
| `ReconnectSession.NothingForwardedAfterStopping` | crates/ai-fence-cli-core/assets/codex_desktop.py:1320-1372 | Once a poll has returned true, draining stays, for the same request, and nothing more is forwarded, in any continuation |
| `ReconnectSession.ClosedIffStopped` | crates/ai-fence-cli-core/assets/codex_desktop.py:1215-1217 | The report is marked closed at the end exactly when a poll returned true |
| `ReconnectSession.RefusedIff` | crates/ai-fence-cli-core/assets/codex_desktop.py:1107-1115 | In every run the next message is refused exactly while draining, and by a session that goes on exactly while in addition a failed commit waits for its handler |
| `ReconnectSession.RefusedWithoutStopping` | crates/ai-fence-cli-core/assets/codex_desktop.py:1167-1179 | The run in which that happens |
| `ReconnectSession.StopsIff` | crates/ai-fence-cli-core/assets/codex_desktop.py:1107-1213 | In every run some continuation stops the session exactly when the output loop runs and the input thread lives, or left the session ready, uncounted and with no approval open |
| `ReconnectSession.StuckNeverStops` | crates/ai-fence-cli-core/assets/codex_desktop.py:1107-1122 | Otherwise no continuation stops it; an input that died publishing its entry, or with an approval open, is such a case |
| `ReconnectSession.StopsSomehow` | crates/ai-fence-cli-core/assets/codex_desktop.py:1181-1213 | The continuation: what is open gets answered, and a poll serves a request |
| `ReconnectProtocol.RunKeepsInv` | crates/ai-fence-cli-core/assets/codex_desktop.py:988-1217 | Over every run of one command and any number of adapters: what adapters hold of a request agrees with the files, a draining adapter is reported as shutting down, a reason is marked only where it can no longer be undone |
| `ReconnectProtocol.StatusMoves` | crates/ai-fence-cli-core/assets/codex_desktop.py:1159-1217 | A reason only becomes another reason, closed is final, only shutting down becomes closed, and nothing becomes pending again |
| `ReconnectProtocol.StatusIs` | crates/ai-fence-cli-core/assets/codex_desktop.py:1005-1016 | One step changes a status in exactly four ways: a returning cancel marks what is pending, an adapter notes its reason, an adapter commits, a draining adapter finishes |
| `ReconnectProtocol.LookMarks` | crates/ai-fence-cli-core/assets/codex_desktop.py:1181-1198 | Undisturbed, an adapter marks the first reason that holds of cancelled, expired, disabled and changed, and never looks at the operation again |
| `ReconnectProtocol.LookServes` | crates/ai-fence-cli-core/assets/codex_desktop.py:1199-1213 | Undisturbed and without a reason, it drains when idle and otherwise changes nothing |
| `ReconnectProtocol.ReasonsAreFounded` | crates/ai-fence-cli-core/assets/codex_desktop.py:1190-1213 | In every run a reason is marked only if it held of the operation's request at some point, and an adapter commits only to a request for which it was idle when no reason held |
| `ReconnectProtocol.ReplacedOnlyWhenDone` | crates/ai-fence-cli-core/assets/codex_desktop.py:1056-1079 | A request gives way to another only after that was applied at a point where the first was cancelled, expired, or had no running target left to serve it |
| `ReconnectProtocol.AppliedIs` | crates/ai-fence-cli-core/assets/codex_desktop.py:1063-1079 | An applied request is for its running targets alone, all pending, for 1 to 300 seconds as asked |
| `ReconnectProtocol.ClosedWasShuttingDown` | crates/ai-fence-cli-core/assets/codex_desktop.py:1215-1217 | In any run, whatever becomes closed was shutting down in the step before |
| `ReconnectProtocol.ReasonIsFinal` | crates/ai-fence-cli-core/assets/codex_desktop.py:1190-1198 | In any run a target marked cancelled, expired, disabled or installation_changed never shuts down under that operation |
| `ReconnectProtocol.CancelHolds` | crates/ai-fence-cli-core/assets/codex_desktop.py:996-1016 | Once a cancel has returned no target is pending under its operation, none that was not shutting down ever becomes so, and no adapter begins to drain under it |
| `ReconnectProtocol.DeadRun` | crates/ai-fence-cli-core/assets/codex_desktop.py:1201-1213 | Under an operation whose request was cancelled, replaced or never saved, nothing begins to shut down |
| `ReconnectProtocol.DrainsIffPublished` | crates/ai-fence-cli-core/assets/codex_desktop.py:1199-1213 | In every run an adapter drains under an operation exactly when it is not gone and a commit of its took effect and was published |
| `ReconnectProtocol.DrainStepIff` | crates/ai-fence-cli-core/assets/codex_desktop.py:1201-1213 | One step makes an adapter drain exactly when it is a served, intact, marked and published commit |
| `ReconnectProtocol.FailedCommitStays` | crates/ai-fence-cli-core/assets/codex_desktop.py:1208-1213 | A commit whose publishing fails leaves shutting_down in the report with nothing draining, and a cancel does not change that entry |
| `ThreadLeases.ThreadRecords.Attach` | crates/ai-fence-cli-core/assets/codex_desktop.py:722-752 | Attaching is refused exactly for another live lease; otherwise the record holds only the caller's |
| `ThreadLeases.ThreadRecords.Resume` | crates/ai-fence-cli-core/assets/codex_desktop.py:920-934 | The locked check of a resumed thread refuses exactly a live lease of another process id, and otherwise leaves only the caller's |
| `ThreadLeases.ThreadRecords.CloseThread` | crates/ai-fence-cli-core/assets/codex_desktop.py:870-882 | Closing keeps exactly the other live leases |
| `ThreadLeases.WrittenIsOwn` | crates/ai-fence-cli-core/assets/codex_desktop.py:738-741 | Even when processes end between the check and the rewrite, the rewritten record holds the one new lease |
| `ThreadLeases.OneLiveLease` | crates/ai-fence-cli-core/assets/codex_desktop.py:695-752 | Over any processes that start, attach, resume, close and end, from any records left behind, each record has at most one live lease |
| `ThreadLeases.OneHolder` | crates/ai-fence-cli-core/assets/codex_desktop.py:722-752 | At most one running process with a readable start time holds a thread |
| `ThreadLeases.RefusedIffProtected` | crates/ai-fence-cli-core/assets/codex_desktop.py:738-752 | In every run a thread is refused to a running process exactly when another running process holds it and has a readable start time |
| `ThreadLeases.GivenIff` | crates/ai-fence-cli-core/assets/codex_desktop.py:722-752 | In every run a running process is given a thread exactly when the record is acceptable and no other running process with a readable start time holds it; otherwise nothing changes; likewise on resuming |
| `ThreadLeases.ClosedGivesUp` | crates/ai-fence-cli-core/assets/codex_desktop.py:870-880 | Closing takes out the process's own lease and keeps those of all other running processes |
| `ThreadLeases.UnreadableIsEvicted` | crates/ai-fence-cli-core/assets/codex_desktop.py:686-696 | A run in which a process whose start time cannot be read loses its thread to another while it still runs |
| `WorkspaceLifecycle.Lifecycle.Reserve` | crates/ai-fence-cli-core/assets/codex_desktop.py:839-857 | The workspace is named, kept if it already was, and tied to the thread; the registry's lease is held |
| `WorkspaceLifecycle.Lifecycle.ReleaseUnused` | crates/ai-fence-cli-core/assets/codex_desktop.py:859-868 | A lease is released only when no startup, thread or pending entry refers to its workspace |
| `WorkspaceLifecycle.Lifecycle.ClosedThread` | crates/ai-fence-cli-core/assets/codex_desktop.py:870-882 | The thread is forgotten and its workspace released if unused |
| `WorkspaceLifecycle.Lifecycle.Request` | crates/ai-fence-cli-core/assets/codex_desktop.py:894-938 | Checks, reservation and pending entry of one request, and what a failed one leaves |
| `WorkspaceLifecycle.Lifecycle.Response` | crates/ai-fence-cli-core/assets/codex_desktop.py:940-965 | What one native message does to pending requests, threads and workspaces, on every path |
| `WorkspaceLifecycle.Lifecycle.Close` | crates/ai-fence-cli-core/assets/codex_desktop.py:884-892 | Closing empties `named` if and only if every thread with a workspace is in `threads`; then nothing stays held if and only if the held leases were those named as owned |
| `WorkspaceLifecycle.RequestKeeps` | crates/ai-fence-cli-core/assets/codex_desktop.py:906-938 | A request keeps every reference to a named workspace; owned leases stay accounted for exactly unless the registry gives a lease for a workspace named as borrowed |
| `WorkspaceLifecycle.ResponseKeeps` | crates/ai-fence-cli-core/assets/codex_desktop.py:940-965 | A message keeps references named exactly when it does not close a thread and answer a turn on its workspace at once, keeps leases exact exactly when no lease is given for a workspace named as borrowed, and keeps threads visited exactly when no attach fails after its reservation |
| `WorkspaceLifecycle.RequestRemembered` | crates/ai-fence-cli-core/assets/codex_desktop.py:896-938 | Exactly when a request is refused, and exactly which forwarded ones are remembered with their workspace |
| `WorkspaceLifecycle.RefusedRequestUndone` | crates/ai-fence-cli-core/assets/codex_desktop.py:909-935 | A refused request changes nothing but lets go of a workspace that was unused |
| `WorkspaceLifecycle.RequestLeavesIdle` | crates/ai-fence-cli-core/assets/codex_desktop.py:909-938 | A request leaves a workspace without use only when forwarded without an id, or under the id of another one |
| `WorkspaceLifecycle.ResponseForgets` | crates/ai-fence-cli-core/assets/codex_desktop.py:940-965 | The answered request is forgotten whatever happens, and handling stops early exactly when registry or attach fails |
| `WorkspaceLifecycle.ThreadAfterResponse` | crates/ai-fence-cli-core/assets/codex_desktop.py:940-965 | What a handled message does to each thread's tie: unsubscription, granted turn, failure or closing, announcement, in this order of precedence, and otherwise nothing |
| `WorkspaceLifecycle.ResponseLeavesIdle` | crates/ai-fence-cli-core/assets/codex_desktop.py:940-965 | A message leaves a workspace without use only when handling stopped early or a thread was tied to another one; everything else unused is let go at once |
| `WorkspaceLifecycle.RunKeeps` | crates/ai-fence-cli-core/assets/codex_desktop.py:839-965 | Over any run: references stay named, acquired leases equal released ones plus held ones, and threads with workspaces stay visited unless an attach fails |
| `WorkspaceLifecycle.CloseAfterRun` | crates/ai-fence-cli-core/assets/codex_desktop.py:884-892 | After any run without those exceptions, closing releases each acquired lease exactly once |
| `WorkspaceLifecycle.FailedAttachOutlives` | crates/ai-fence-cli-core/assets/codex_desktop.py:945-951 | A failed attach leaves a workspace that closing does not visit |
| `WorkspaceLifecycle.BorrowedThenOwnedLeaks` | crates/ai-fence-cli-core/assets/codex_desktop.py:851-857 | A workspace first borrowed and later leased is held without being named as owned |
| `WorkspaceLifecycle.TangledReleases` | crates/ai-fence-cli-core/assets/codex_desktop.py:953-964 | A message that closes a thread and carries a pending turn's id leaves a reference to a released workspace |
| `CredentialRefresh.UsableUnlessOverflow` | crates/ai-fence-cli-core/src/auth.rs:80-88 | Refreshed credentials are usable at once exactly when the named lifetime does not overflow the expiry |
| `CredentialRefresh.HugeLifetimeIsExpired` | crates/ai-fence-cli-core/src/auth.rs:539-546 | A named lifetime of 2^63 seconds is accepted and expired at once |
| `CredentialRefresh.ExpiredIff` | crates/ai-fence-cli-core/src/auth.rs:80-88 | Without overflow, credentials count as expired from a minute before their time on |
| `CredentialRefresh.RefreshedIs` | crates/ai-fence-cli-core/src/auth.rs:530-550 | An answer is usable exactly when it names a token and more than a minute; what it leaves out, and who issued the credentials to whom, stays |
| `CredentialRefresh.CredentialFile.RefreshLocked` | crates/ai-fence-cli-core/src/auth.rs:406-425 | The section under the lock: good credentials are handed out and nothing is sent; otherwise the file's refresh token is sent, success means that an answer was saved, and failure changes nothing |
| `CredentialRefresh.BeginIs` | crates/ai-fence-cli-core/src/auth.rs:377-400 | Good credentials are handed out without the lock; any other caller waits for it |
| `CredentialRefresh.AcquireIs` | crates/ai-fence-cli-core/src/auth.rs:410 | The lock is given exactly when it is free |
| `CredentialRefresh.RunKeepsInv` | crates/ai-fence-cli-core/src/auth.rs:377-425 | Over any processes: whoever is past the lock holds the file's credentials, and the file is what the last refresh saved |
| `CredentialRefresh.OneInside` | crates/ai-fence-cli-core/src/auth.rs:410-425 | At most one process at a time is past the lock |
| `CredentialRefresh.ReplacedNeverSent` | crates/ai-fence-cli-core/src/auth.rs:410-424 | After a refresh nothing is sent for the access token it replaced, and a replaced refresh token is never sent again |
| `CredentialRefresh.SingleFlight` | crates/ai-fence-cli-core/src/auth.rs:385-420 | Each access token is refreshed at most once, however many callers saw it expired or rejected |
| `CredentialRefresh.RefreshesChain` | crates/ai-fence-cli-core/src/auth.rs:530-550 | Each refresh starts from the credentials of the one before, was needed by its caller, and keeps the refresh token when the server sends none (section 6 of RFC 6749) |
| `CredentialRefresh.ReturnedFits` | crates/ai-fence-cli-core/src/auth.rs:377-400 | What a caller is given without a refresh is not expired, and never is it the access token it rejected |
| `CredentialRefresh.ResentIff` | crates/ai-fence-cli-core/src/auth.rs:406-425 | In every run two sends use the same refresh token exactly when no refresh between them replaced it |
| `CredentialRefresh.LostSaveResends` | crates/ai-fence-cli-core/src/auth.rs:422-424 | The run, for any answer, in which a process dies between the answer and the save and the next one sends the old refresh token again |
| `CredentialRefresh.SectionIsRefreshLocked` | crates/ai-fence-cli-core/src/auth.rs:406-425 | Undisturbed, the steps of one process under the lock do what the locked section does |
| `JsonWalk.BoundedJson` | crates/ai-fence-contract/src/application_native.rs:24-48 | The walk accepts exactly trees within the node and depth limits and never has more values waiting than the node limit |
| `JsonWalk.WalkResponse` | crates/ai-fence-contract/src/audio_transcription.rs:175-195 | The transcription walk makes the same decision with the same bound |
| `JsonWalk.CheckNative` | crates/ai-fence-contract/src/application_native.rs:24-48 | A native item passes exactly with at most 16384 values and 64 levels |
| `JsonWalk.CheckTranscript` | crates/ai-fence-contract/src/audio_transcription.rs:175-195 | A transcription passes exactly with at most 65536 values and 32 levels |
| `CanonicalJson.EmitReads` | crates/ai-fence-contract/src/application_run.rs:333-352 | The printed text reads, by the grammar of RFC 8259 (sections 3 to 7), as the value with its members in key order, followed by what follows it |
| `CanonicalJson.CanonicalReads` | crates/ai-fence-contract/src/application_run.rs:333-352 | Canonical bytes are compact JSON text with ascending keys at every depth and none repeated, and stand for the value |
| `CanonicalJson.EscapedShortest` | crates/ai-fence-contract/src/application_run.rs:351 | No shorter text in a string stands for a character than the one printed, and hexadecimal digits are lower-case |
| `Json.BeforeIff` | crates/ai-fence-contract/src/application_run.rs:337-339 | The key order is the lexicographic one by code point |
| `CanonicalJson.CanonicalInjective` | crates/ai-fence-contract/src/application_run.rs:333-352 | Canonical bytes are equal exactly for equal values |
| `CanonicalJson.EmitUnique` | crates/ai-fence-contract/src/application_run.rs:333-352 | A printed value can be read in one way only, whatever follows it |
| `CanonicalJson.CanonicalIgnoresOrder` | crates/ai-fence-contract/src/application_run.rs:333-407 | For texts without repeated keys, canonical bytes are equal exactly when the texts are the same tree but for member order at any depth |
| `CanonicalJson.SameTreeSameValue` | crates/ai-fence-contract/src/application_run.rs:389-405 | Two such texts are read as the same value exactly when they are the same unordered tree |
| `CanonicalJson.UniqueJson` | crates/ai-fence-contract/src/application_run.rs:354-407 | The reader accepts exactly texts in which no object repeats a key at any depth, and reads their value |
| `CanonicalJson.VisitSeq` | crates/ai-fence-contract/src/application_run.rs:389-395 | The same for an array |
| `CanonicalJson.VisitMap` | crates/ai-fence-contract/src/application_run.rs:396-404 | The same for an object |
| `CanonicalJson.DigestBytesDecide` | crates/ai-fence-contract/src/application_run.rs:320-331 | Two requests are hashed from the same bytes exactly when they agree on every member but `dispatch_key` and `payload_digest` |
| `NativeHistory.ItemIds` | crates/ai-fence-contract/src/application_native.rs:385-395 | Succeeds exactly when item ids are distinct, with the set of them |
| `NativeHistory.ValidateHistory` | crates/ai-fence-contract/src/application_native.rs:350-383 | Accepts exactly the histories with distinct item and call ids and a one-to-one matching of calls to later outputs with agreeing names and no user message in between |
| `NativeHistory.ValidateInput` | crates/ai-fence-contract/src/application_native.rs:330-347 | Accepts exactly the valid inputs, and tells size from form |
| `NativeHistory.ArrayBytesIs` | crates/ai-fence-contract/src/application_native.rs:343-346 | The sizes that are limited are the lengths of the JSON arrays |
| `NativeHistory.ScanReply` | crates/ai-fence-contract/src/application_native.rs:428-454 | The reply scan accepts exactly items of the allowed kinds whose ids and call ids are fresh |
| `NativeHistory.ValidateFor` | crates/ai-fence-contract/src/application_native.rs:418-459 | Accepts exactly the replies valid for the input, and says exactly when it refuses for size |
| `NativeHistory.ExtensionMatched` | crates/ai-fence-contract/src/application_native.rs:462-479 | The extended history is valid exactly when the outcomes settle each new call once, in any order, with agreeing names and fresh ids |
| `NativeHistory.ContinueWith` | crates/ai-fence-contract/src/application_native.rs:462-479 | Succeeds exactly then and within the limits, with the old history as a prefix of the new one, and says exactly when it refuses for size |
| `NativeHistory.ChainKeeps` | crates/ai-fence-contract/src/application_native.rs:462-479 | Over any chain of turns earlier histories are prefixes, every call is answered, and no call id repeats |
| `SettingsSwitch.Root.Setup` | crates/ai-fence-cli-core/assets/codex_desktop.py:286-462 | A setup's refusals and its whole effect on the files and both settings files |
| `SettingsSwitch.Root.Activate` | crates/ai-fence-cli-core/assets/codex_desktop_updates.py:78-121 | An update's refusals and its effect, for any staged settings |
| `SettingsSwitch.Root.RollBack` | crates/ai-fence-cli-core/assets/codex_desktop.py:1803-1815 | A rollback's refusals and its effect, with settings loaded before the lock |
| `SettingsSwitch.Root.Intact` | crates/ai-fence-cli-core/assets/codex_desktop.py:319-323 | True exactly when every listed file is there with its hash |
| `SettingsSwitch.SetupAsks` | crates/ai-fence-cli-core/assets/codex_desktop.py:318-363 | A setup completes exactly under these conditions on files, identity, state home, account and releases |
| `SettingsSwitch.SetupDoes` | crates/ai-fence-cli-core/assets/codex_desktop.py:378-462 | A completed setup file by file and field by field: its files, its settings with kept or chosen policies, the replaced settings, the roots |
| `SettingsSwitch.ActivateAsks` | crates/ai-fence-cli-core/assets/codex_desktop_updates.py:78-121 | An update completes exactly when the expected settings are current and the proposed ones differ only in the release, all files in place under paths that stay inside; it changes no file |
| `SettingsSwitch.RollBackAsks` | crates/ai-fence-cli-core/assets/codex_desktop.py:1803-1815 | A rollback completes exactly when the previous settings are of the loaded state home with all files in place; it changes no file |
| `SettingsSwitch.UninstallAsks` | crates/ai-fence-cli-core/assets/codex_desktop.py:1570-1586 | An uninstall takes away the listed commands, all in place, and settings.json; releases and previous settings stay |
| `SettingsSwitch.IdentityOfARoot` | crates/ai-fence-cli-core/assets/codex_desktop.py:342-346 | Over any run without an uninstall, interruptions included, every current and previous settings file has the first profile and state home |
| `SettingsSwitch.RollbackKeepsIdentityIff` | crates/ai-fence-cli-core/assets/codex_desktop.py:1803-1815 | A completed rollback keeps the profile and the state home of settings.json exactly when the previous settings have them, and the state home exactly when the loaded settings have it |
| `SettingsSwitch.StepKeepsOneIdentityIff` | crates/ai-fence-cli-core/assets/codex_desktop.py:342-346 | Uninstalls included, one step keeps all settings of one identity exactly when it is not a completed setup for another |
| `SettingsSwitch.RollbackKeepsIdentity` | crates/ai-fence-cli-core/assets/codex_desktop.py:1803-1815 | When all setups of a root are for one profile and state home, every completed rollback keeps both, whatever was uninstalled and however early its settings were loaded |
| `SettingsSwitch.StaleRollbackMovesHome` | crates/ai-fence-cli-core/assets/codex_desktop.py:1773-1815 | A run in which a rollback loaded before an uninstall moves settings.json back to the old state home |
| `SettingsSwitch.RollbackAfterUninstallChangesProfile` | crates/ai-fence-cli-core/assets/codex_desktop.py:1570-1586 | After an uninstall and a setup for another profile, a rollback changes the profile |
| `SettingsSwitch.RunKeepsReleases` | crates/ai-fence-cli-core/assets/codex_desktop.py:378-405 | In every run the release files of current, previous and loaded settings are there unchanged |
| `SettingsSwitch.CompletedIsSettled` | crates/ai-fence-cli-core/assets/codex_desktop.py:423-457 | Each completed setup, update or rollback leaves every file named by settings.json with its hash and the approved roots as its own, whatever state it found |
| `SettingsSwitch.SettledSinceCompletion` | crates/ai-fence-cli-core/assets/codex_desktop.py:453-457 | In any run, however often setups, updates, rollbacks and uninstalls stopped half way before, that holds from the last completed operation on until one stops half way again |
| `SettingsSwitch.RollbackWorksIff` | crates/ai-fence-cli-core/assets/codex_desktop.py:1805-1810 | In every run a rollback works exactly when there are previous settings of the same state home whose commands are still installed |
| `SettingsSwitch.UpdateCanBeRolledBack` | crates/ai-fence-cli-core/assets/codex_desktop_updates.py:118-119 | After any run without half-done steps a completed update can be rolled back at once, to what it replaced with manual updates |
| `SettingsSwitch.TwoRollbacksRestore` | crates/ai-fence-cli-core/assets/codex_desktop.py:1803-1815 | After any run without half-done steps two rollbacks restore settings, roots and files but for the update policy; only the first can be refused |
| `SettingsSwitch.SetupCanBeRolledBackIff` | crates/ai-fence-cli-core/assets/codex_desktop.py:412-457 | After a setup a rollback works exactly when the setup left the replaced settings' commands as they were |
| `SettingsSwitch.ChangedCommandBlocksRollback` | crates/ai-fence-cli-core/assets/codex_desktop.py:425-433 | A second setup whose launch prefix changes the command cannot be rolled back |
| `SettingsSwitch.RollbackUndoneIff` | crates/ai-fence-cli-core/assets/codex_desktop.py:1812-1814 | The replaced settings become the previous ones exactly when they are the ones that were loaded |
| `SettingsSwitch.UpdateReturnsIff` | crates/ai-fence-cli-core/assets/codex_desktop.py:1773-1814 | After a completed update two rollbacks bring the updated settings back exactly when the first loaded them, up to the update policy |
| `SettingsSwitch.StaleRollbackForgets` | crates/ai-fence-cli-core/assets/codex_desktop.py:1773-1814 | The failing case: a rollback that loaded its settings before the update committed loses the updated settings for good |
| `GuidanceSplice.SpliceKeepsOutside` | crates/ai-fence-cli-core/src/workspace_snapshot.rs:518-531 | The rewrite succeeds exactly on unmarked or well-marked text, installs the block and keeps all text outside the first block |
| `GuidanceSplice.SpliceIdempotent` | crates/ai-fence-cli-core/src/workspace_snapshot.rs:518-531 | A second rewrite changes nothing, whatever the user's text was |
| `GuidanceSplice.NoStraddle` | crates/ai-fence-cli-core/src/workspace_snapshot.rs:519-525 | No marker straddles a splice boundary |
| `GuidanceSplice.ShippedSound` | crates/ai-fence-cli-core/src/workspace_snapshot.rs:478-479 | The two shipped markers have the properties the splice needs |
| `GuidanceSplice.CodexHome.InstallGuidance` | crates/ai-fence-cli-core/src/workspace_snapshot.rs:504-544 | One run rewrites the file only to change it, and leaves it alone when it refuses |
| `GuidanceSplice.CodexHome.InstallTwice` | crates/ai-fence-cli-core/src/workspace_snapshot.rs:504-544 | Running it twice replaces the file at most once |

## Left out

- RelayLoop.ProxyWebsocket: the schedule decides which select arm fires; fairness, pong replies, message size limits and the texts of error payloads are not modelled.
- UpstreamRetry.Connect: the single credential reload after a 401 inside one handshake is part of that handshake's outcome.
- SseFrames.WrittenReads: no line is empty or ends in a carriage return of its own. UTF-8 replacement is left out, and the reader of the data is a parameter.
- MessageReassembly.MessageRoundTrip: the stream has at most one opening and then at most one closing event for the whole message, and a block is opened once, before its pieces, as the API sends them.
- AnthropicStream.CompactTextComesBack: the printed text is compact; a reader of text with insignificant white space or surrogate escapes is left out.
- ReconnectSession.ReconnectSession.Native: message members have the types the protocol gives them; a member of another type raises in the source.
- ReconnectSession.SessionIsSafe: the text of the published summary is left out; publishing only succeeds or fails.
- ReconnectProtocol.RunKeepsInv: an adapter evaluates the reasons against a request in one step, and thread lists, replacement launches and previews are left out; they do not enter any decision.
- ThreadLeases.OneLiveLease: whether a start time can be read does not change while a process runs, and the workspace and profile comparisons of a record are one accepted-or-not answer.
- WorkspaceLifecycle.RunKeeps: one request is one step against responses, although its reservation and its pending entry are two gate sections, and a release is one step with the registry call that follows it.
- WorkspaceLifecycle.Lifecycle.Close: release calls succeed; a registry that fails to release is left out.
- CredentialRefresh.RunKeepsInv: the server issues new access tokens, and refresh tokens that are new or the one it was sent; no login writes the file meanwhile; a missing or unreadable file is left out.
- CredentialRefresh.UsableUnlessOverflow: arithmetic wraps as in release builds; a debug build stops instead.
- CanonicalJson.CanonicalInjective: a number is kept as the token it prints as, and text is a sequence of characters; number formatting, UTF-8 and SHA-256 are left out.
- NativeHistory.ValidateInput: items enter with their shape already validated and with their serialized sizes as fields.
- SettingsSwitch.Root.Setup: probing the native executable, symbolic links, file modes, account selection and the registration for terminal updates are left out; a file's content stands for its hash.
- SettingsSwitch.Root.Activate: downloading and preparing a release is left out; the staged settings are arbitrary.
- SettingsSwitch.CompletedIsSettled: for an update, the staged roots file is the one a setup writes beside its staged settings.
- GuidanceSplice.CodexHome.InstallGuidance: file permissions and failures of the replacing rename are left out.
- HTTP, TLS and WebSocket framing, the proxy's header and URL rules, doctor output, argument parsing and the Windows launcher are left out: they are lookups or single expressions.
- Agent configuration rendering, the client crate and the DTO field checks, `TranscriptionOutput::validate_for` among them, are left out: each is a template or a list of single-field conditions.
- The profile lock of the agent launcher is left out: reclaiming a stale lock is two steps, so the code does not decide exclusion between two reclaimers.
