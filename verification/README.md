# Proofs about lsp-cli

A Dafny model of the parts of lsp-cli whose guarantees span many calls, with proofs of those
guarantees. `dafny verify dfyconfig.toml` checks all of it.

## What is modelled

**The daemon.** One coordinator serves successive clients with one language server that it
restarts when it has to. `Coordinator.dfy` gives each handler of its event loop as a transition
function on the daemon's state; a handler that fails returns the state it leaves behind.
`Daemon.dfy` is the coordinator as the program has it, a class whose methods update fields in
place; the contract of each handler there is that its new state is that of the function of its
name, so the table lists only its loops. `Invariants.dfy` states what every reachable state
satisfies. `LifecycleProofs.dfy`, `DepartureProofs.dfy`, `ClientProofs.dfy`, `ServerProofs.dfy` and
`LoopProofs.dfy` prove that every handler, turn and run keeps it.

`Effects.dfy` is a table over events and states, apart from the handlers: what each event makes the
daemon write to the server and to a client, and how it changes a session. `Frames.dfy`,
`Sessions.dfy` and `Turns.dfy` prove that handlers and turns do just that; `Transcripts.dfy` folds
the table over a run and proves that it is what every session and every server has read.
`Handshake.dfy`, `Restarts.dfy`, `Shutdowns.dfy`, `Waiting.dfy`, `Departures.dfy`, `Faults.dfy`,
`StopProofs.dfy` and `Theorems.dfy` draw the conclusions; `Scenarios.dfy` has concrete runs. Logs of
what was written to each server and to each client, the current ones and those that are gone, are
kept with the state; `Streams.dfy` says what a log amounts to: documents opened, requests answered,
responses delivered.

The outside world is an `Env`: whether a writer accepts a message, a worker can be started, a URI
parses. Theorems hold for every `Env`, every sequence of events and every clock. What a run needs
of the process workers, that a start is the first report of its worker, is stated as
`AdmissibleRun` and follows from the model of the worker itself (`ProcessWorker.dfy`,
`WorkerOrder.dfy`).

**Output queues.** `Writer.dfy` is a machine of atomic steps, one for each load, addition,
subtraction, send and receive of the two threads, under every interleaving.

**Coordinates.** `Text.dfy` relates characters, UTF-8 offsets and UTF-16 positions, on the encodings
of `Utf8.dfy` and `Utf16.dfy`; `Edits.dfy`, `Inserts.dfy`, `Overlaps.dfy`, `Render.dfy` and
`SourceCache.dfy` build the formatter, the renderer and range extraction on it.
`Symbols.dfy` is the search for the smallest enclosing symbol.

**Requests and messages.** `Window.dfy` is the pipelined scan for document symbols, `Transport.dfy`
the framing on a byte stream, `Json.dfy` and `Protocol.dfy` the canonical JSON text and what is
built on it, `Version.dfy` the version order and the choice of an override, `Releases.dfy` what that
order means for the versions of a release.

## Where the code does less than one would expect

These are proved, with the exact condition where there is one.

- A ready client can repeat the handshake; its messages are forwarded. A server reads a second
  `initialize`, or a second `initialized`, exactly when turns of the run bring it one
  (`Handshake.HandshakeRepeated`, `Scenarios.SecondInitializeRead`).
- A server can serve sessions without ever reading `initialized`: a session that left before its
  own, followed by one served from the cache (`Handshake.InitializedArrives`,
  `Scenarios.InitializedNeverRead`).
- The daemon ends with an error as soon as one output refuses a message it owes, be it that of a
  client that has gone away (`Faults.DispatchEnds`).
- A client whose id or document URI is odd ends the daemon when it leaves
  (`Theorems.DepartureSucceeds`, `Theorems.DepartureEndsRun`, `Scenarios.NullEndsDaemon`).
- Inserts at one position come out in reverse order (`Inserts.InsertsReversed`). The
  specification of the language server protocol 3.17, section "Text Edit[]", asks for the other
  order; the model follows the code.
- A pre-release word makes a version newer: `1.0.0` comes before `1.0.0-rc`
  (`Releases.WordIsNewer`).
- `refresh_flag` never sets the flag (`Writer.BacklogFlagged`).
- The size of a range is not monotone once a column exceeds a million (`Symbols.SizeIsMonotone`).

## Model

| member | source | states |
|---|---|---|
| LoopProofs.RunKeeps | src/commands/daemon.rs:321-356 | Every state a run of the daemon reaches, from the start of the first server through any sequence of turns of `serve`, satisfies the invariant of the coordinator; a run that ends in an error still leaves ordered streams and conserved routing counts |
| Theorems.StreamsInOrder | src/commands/daemon/forwarding.rs:224-245 | In every run, failed ones included, the stream of messages each server was ever sent obeys the initialize handshake |
| Theorems.OrderMeans | src/commands/daemon/forwarding.rs:58-123 | What such a stream is: one initialize and one `initialized` of the handshake at most, and no traffic of a session in front of the initialize |
| Handshake.HandshakeRepeated | src/commands/daemon/forwarding.rs:33-123 | Finding, with its exact condition over whole runs: some server, current or earlier, reads two initializes if and only if some turn brings an attached server one from a ready client and the write is accepted; two `initialized` if and only if two turns bring such to the same server, whether from a ready client or to end a handshake |
| Handshake.InitializedArrives | src/commands/daemon/forwarding.rs:58-81 | The server of a run has read `initialized` exactly as often as turns brought it one; a session served from the cache brings none, so a server may serve sessions without having read any |
| Handshake.RunCounted | src/commands/daemon/forwarding.rs:33-123 | The bookkeeping behind it: for every server of a run, current or earlier, how many initializes and how many `initialized` its stream holds, counted from the turns alone |
| Handshake.CountInitializes | src/commands/daemon/forwarding.rs:91-123 | An ordered stream holds the initialize of the handshake, if that was sent, plus one for each that a ready client sent, and none of the latter without the former |
| Handshake.CountInitializeds | src/commands/daemon/forwarding.rs:58-81 | The same count for `initialized` |
| Handshake.ReadyInitializeRepeats | src/commands/daemon/forwarding.rs:91-123 | The input that shows it: any initialize request of a ready client, its write accepted, makes its server read at least two |
| Handshake.ReadyInitializedRepeats | src/commands/daemon/forwarding.rs:91-123 | Any `initialized` of a ready client is one more for its server: a second one if the server took part in the handshake |
| Scenarios.SecondInitializeRead | src/commands/daemon/forwarding.rs:91-123 | An admissible run, from the start of the daemon, in which a server reads a second initialize |
| Scenarios.InitializedNeverRead | src/commands/daemon/forwarding.rs:183-204 | An admissible run in which a server reads the traffic of a second session and no `initialized`, because the first session left before its own and the second was served from the cache |
| Transcripts.SessionsHear | src/commands/daemon.rs:366-429 | In every run, failed ones included, each session, active or gone, has been written exactly what the turns brought it by a table of effects over events, in that order; the table also gives its phase, the requests of both sides that wait for a response, and its open documents |
| Transcripts.ServersHear | src/commands/daemon/forwarding.rs:16-145 | So has each server, current or earlier, in what it was sent on behalf of its sessions |
| Transcripts.SessionsReadTheServer | src/commands/daemon/forwarding.rs:324-353 | So the messages of a server in the stream of a session are, in order, exactly the decodable notifications and named requests that the current server sent while that session was the active one and the write was accepted |
| Turns.DispatchStep | src/commands/daemon.rs:366-429 | What one event does to the streams, tables and phases of the sessions is what the table of effects says, whether or not its handler fails |
| Turns.TurnStep | src/commands/daemon.rs:321-356 | The same of a whole turn: besides the effect of its event it can only end sessions and servers, settle a departure and start a shutdown |
| Restarts.RunRemembers | src/commands/daemon/forwarding.rs:297-335 | In every run the current server is marked for a restart if and only if some turn has spoilt it: it registered a capability, or failed an initialize |
| Restarts.SpoiltServesNobodyElse | src/commands/daemon.rs:464-472 | However a run goes on after that, no session but the one that was live then is ever live at that server, and once that client has gone the server no longer runs, unless a stop is requested |
| Restarts.SpoiltIsNotUsed | src/commands/daemon/forwarding.rs:183-245 | Nor do later turns send a session an answer of that server from the cache, or send the server an initialize |
| Restarts.UnspoiltAnswers | src/commands/daemon/forwarding.rs:183-204 | Conversely a server that no turn has spoilt, and that has answered an initialize with the same normal form, answers the next one from the cache: the session is sent that answer and the server reads nothing |
| Restarts.ResultRecorded | src/commands/daemon/forwarding.rs:297-322 | The answer to the initialize a session forwarded is recorded when it arrives |
| Shutdowns.ServersParted | src/commands/daemon/lifecycle.rs:266-376 | In every run each server, current or earlier, has read exactly the shutdown request and then the exit notification, as far as its shutdown has come |
| Shutdowns.ReplyAdvances | src/commands/daemon/lifecycle.rs:300-331 | The reply to the shutdown request is followed by the exit notification and the next deadline, or by force if that cannot be written |
| Shutdowns.WriteAdvances | src/commands/daemon/lifecycle.rs:333-354 | The end of that write is followed by the last deadline |
| Shutdowns.ExitAdvances | src/commands/daemon/lifecycle.rs:142-192 | The end of the process meets the aim of the shutdown: another server is started with the initialize that waits, the daemon has stopped, or there is neither server nor client |
| Shutdowns.CrashAdvances | src/commands/daemon/lifecycle.rs:142-192 | A server that ends by itself leaves neither server nor client |
| Shutdowns.LostKills | src/commands/daemon/lifecycle.rs:384-400 | A server whose stream ends or whose output fails is killed; what it was being shut down for stays, and otherwise the client goes with it |
| Shutdowns.DeadlineKills | src/commands/daemon/lifecycle.rs:360-376 | A shutdown past its deadline goes on by force in the next turn |
| Shutdowns.GrantStops | src/commands/daemon/forwarding.rs:262-274 | A stop that is granted takes effect once the grant has been written, and not before |
| Shutdowns.WaitingStops | src/commands/daemon/connections.rs:105-175 | The same for a connection that waits for admission; one that is refused is closed once the refusal has been written |
| Shutdowns.RefusedLeaves | src/commands/daemon/outputs.rs:8-65 | A client that was told that its server is gone is disconnected once that has been written |
| Waiting.FailedGoes | src/commands/daemon/outputs.rs:8-65 | A waiting connection whose output fails goes, alone |
| Shutdowns.FailureLeaves | src/commands/daemon/forwarding.rs:247-260 | A client that waits for a server that cannot be started is told so, and disconnected once it has been told |
| Shutdowns.StopsWhenDue | src/commands/daemon.rs:321-364 | Once a stop is requested, or nobody has been there for the idle time, a turn that waits for an event is one of a stopping daemon |
| Waiting.AcceptedWaits | src/commands/daemon/connections.rs:34-56 | Who is accepted to wait, and until when |
| Waiting.FirstMessageDecides | src/commands/daemon/connections.rs:105-175 | The first message of a waiting connection admits it, or is answered and closes it, or ends it, and touches no other connection |
| Waiting.PrologueKeepsWaiting | src/commands/daemon/connections.rs:58-61 | Exactly those stay who were answered or are in time and whose output has not stalled, unless a stop begins |
| Departures.LateAnswerDropped | src/commands/daemon/forwarding.rs:284-322 | The response to a request whose client has left is dropped once; the next with that id goes to the client that waits for it |
| Faults.DispatchEnds | src/commands/daemon.rs:366-429 | Exactly which events end the daemon with an error: input that cannot be read or used, a message owed that its output refuses or that has no addressee, a worker that cannot be started, and the departure of a client that cannot leave |
| Faults.TurnFails | src/commands/daemon.rs:321-356 | A turn fails if and only if its event is one of these, or it drops a client that cannot leave |
| Faults.ServeFails | src/commands/daemon.rs:321-356 | The loop fails if and only if it reaches such a turn |
| Faults.RunFails | src/commands/daemon.rs:321-356 | The same from the start of the daemon |
| Departures.DepartureOffers | src/commands/daemon.rs:438-462 | The messages a departing client leaves to the server, in order, those the writer refuses left out, and the requests whose responses will be dropped |
| Departures.ClosingHolds | src/commands/daemon.rs:438-444 | One for each document |
| Departures.CancellingHolds | src/commands/daemon.rs:446-453 | One for each request, under the id the client gave it |
| Departures.RefusingHolds | src/commands/daemon.rs:455-462 | One for each request of the server |
| Theorems.LifecycleAgrees | src/commands/daemon/lifecycle.rs:64-192 | In every reachable state lifecycle, process and server are in agreement, the deadlines armed for a server are those of a prefix of the three shutdown stages, each once, and at most sixteen connections wait |
| Theorems.ShutdownAdvances | src/commands/daemon/lifecycle.rs:266-376 | However a run goes on, as long as a server stays the current one its shutdown only advances: the stages it has passed are the first of those it passes later, its lifecycle is never an earlier one, and `Killing` is never left |
| Theorems.RetiredIgnored | src/commands/daemon.rs:366-429 | An event of a connection, server or process that is gone changes nothing but the expiry of waiting connections |
| Theorems.GoneForGood | src/commands/daemon.rs:366-429 | A worker that has ended stays retired in every continuation of the run: no generation is given out twice |
| Theorems.GoneIgnored | src/commands/daemon.rs:366-429 | So nothing it reports later, after any number of turns, changes anything |
| Theorems.NoLateStart | src/commands/daemon/lifecycle.rs:202-264 | In no run is a server process started after a stop was requested |
| StopProofs.StopStands | src/commands/daemon.rs:321-356 | A requested stop survives every turn of the loop, starts no process, and is under way when the turn ends, unless the process being stopped had failed to start in that very turn |
| StopProofs.NoStartAfterStop | src/commands/daemon.rs:321-356 | From any reachable state with a requested stop, no continuation of the loop starts a process or withdraws the request |
| Theorems.RequestsConserved | src/commands/daemon/forwarding.rs:324-346 | Outside `Killing`, with accepted writes and ids not reused while unanswered: the ids received from a server plus those inherited at its start are, as multisets, the ids answered to it plus those pending at the client |
| Scenarios.RequestAnswered | src/commands/daemon/forwarding.rs:324-346 | An admissible run in which a request of the server is relayed and answered, and that meets all these conditions |
| Theorems.DocumentsTracked | src/commands/daemon/forwarding.rs:355-381 | Outside `Killing` and with accepted writes, the documents open at the server, by a fold over everything written to it, are among those of the active client, and none without a client |
| Theorems.ResponsesRouted | src/commands/daemon/forwarding.rs:284-322 | For every session and id, responses delivered plus one still awaited never exceed the requests forwarded with that id, and equal them unless the client reuses an unanswered id |
| Theorems.DepartureSettles | src/commands/daemon.rs:431-475 | A departing client answers exactly the server requests it still had pending and leaves no document open |
| Theorems.DepartureSucceeds | src/commands/daemon.rs:431-475 | Finding: a disconnect fails if and only if a document has no valid URI or an unanswered request has an id that is neither a string nor a 32-bit integer; the restart that may follow never makes it fail |
| Theorems.DepartureEndsRun | src/commands/daemon.rs:406-421 | So the turn in which the stream of the client ends keeps the daemon alive exactly then |
| Theorems.CancellableIds | src/commands/daemon.rs:446-453 | The ids a cancellation can carry are the strings and the 32-bit integers, and no others |
| Theorems.NullCannotBeCancelled | src/commands/daemon/protocol.rs:375-381 | A failing id: `null` |
| Scenarios.NullEndsDaemon | src/commands/daemon.rs:446-453 | An admissible run that a client ends by asking with the id `null` and leaving |
| Theorems.SettleSucceeds | src/commands/daemon.rs:438-462 | The same condition for the three loops |
| Theorems.CloseAllSucceeds | src/commands/daemon.rs:438-444 | The first of its three loops fails exactly at a URI that does not parse |
| Theorems.CancelAllSucceeds | src/commands/daemon.rs:446-453 | The second fails exactly at an id that a cancel notification cannot carry |
| Theorems.CachedAnswerSound | src/commands/daemon/forwarding.rs:183-204 | An initialize is answered from the cache only if its normalized parameters are, as JSON, those this server was initialized with, and the answer is the result this server gave to that initialize, provided the server answers only what it was asked |
| Theorems.CachedInitializeSound | src/commands/daemon/forwarding.rs:147-204 | The same of the request itself, through normalization and fingerprint |
| ProcessWorker.WorkersStartFirst | src/commands/daemon/process_worker.rs:50-118 | However the reports of several process workers are interleaved, the report of a start is the first of its worker |
| WorkerOrder.WorkersAreAdmissible | src/commands/daemon/process_worker.rs:50-118 | Every trace whose process events come from such workers satisfies the assumption under which runs are considered, so that assumption is discharged by the worker |
| LoopProofs.DispatchKeeps | src/commands/daemon.rs:366-429 | Every event keeps the invariant |
| LoopProofs.PrologueKeeps | src/commands/daemon.rs:322-332 | So does what `serve` does before it waits: expiry, stalled outputs, deadlines, the start of a stop; and once a stop is requested, the lifecycle is a stopping one whenever an event is awaited |
| LoopProofs.TurnKeeps | src/commands/daemon.rs:321-356 | So does a whole turn |
| LoopProofs.BootKeeps | src/commands/daemon/lifecycle.rs:76-86 | The start of the daemon up to the first running server establishes it |
| LoopProofs.PendingMessageKeeps | src/commands/daemon/connections.rs:105-175 | The first message of a waiting connection keeps it, in all outcomes: admission, rejection, stop, silence |
| LoopProofs.ExpireStalledKeeps | src/commands/daemon/outputs.rs:67-101 | Dropping stalled outputs keeps it |
| LifecycleProofs.BeginShutdownKeeps | src/commands/daemon/lifecycle.rs:266-298 | A running server is always taken into a shutdown stage or `Killing` with the given aim; the restart case needs that the server is marked for restart, or an initialize is kept and one was recorded |
| LifecycleProofs.BeginRestartKeeps | src/commands/daemon/lifecycle.rs:194-200 | A restart keeps the invariant in every lifecycle |
| LifecycleProofs.ProcessExitKeeps | src/commands/daemon/lifecycle.rs:142-192 | The end of a process keeps it, whether the server was asked to restart, to stop, or failed |
| LifecycleProofs.UpstreamFailedKeeps | src/commands/daemon/lifecycle.rs:384-400 | The loss of the server keeps it |
| DepartureProofs.BeginStopKeeps | src/commands/daemon/lifecycle.rs:202-264 | After a successful `begin_stop` the daemon is stopping and has no client |
| DepartureProofs.DisconnectKeeps | src/commands/daemon.rs:431-475 | A disconnect keeps it, in every lifecycle and phase |
| DepartureProofs.SettleEffect | src/commands/daemon.rs:438-462 | What a disconnect writes: it only appends to the server's stream, closes the client's documents and adds exactly its pending ids to the answered ones |
| ClientProofs.HandleInitializeKeeps | src/commands/daemon/forwarding.rs:147-212 | An initialize keeps it on all paths: restart, cached answer, forwarding |
| ClientProofs.BeforeInitializedKeeps | src/commands/daemon/forwarding.rs:58-81 | The second half of the handshake keeps it |
| ClientProofs.HandleReadyKeeps | src/commands/daemon/forwarding.rs:94-123 | Traffic of a ready client keeps it |
| ClientProofs.ClientMessageKeeps | src/commands/daemon/forwarding.rs:16-145 | Any message of the client keeps it |
| ServerProofs.ServerResponseKeeps | src/commands/daemon/forwarding.rs:284-322 | Any response of the server keeps it: orphaned, foreign, routed, a successful or failed initialize |
| ServerProofs.ServerRequestKeeps | src/commands/daemon/forwarding.rs:324-346 | Any request of the server keeps it, relayed or answered by the daemon |
| Invariants.NothingBeforeInit | src/commands/daemon/forwarding.rs:91-123 | A stream without an initialize holds no traffic of a session |
| Invariants.OnlyInitialize | src/commands/daemon/forwarding.rs:224-245 | While nothing was forwarded, the initialize is the only request a server can answer |
| Protocol.IdKeyInverse | src/commands/daemon/protocol.rs:375-381 | `request_id_from_key` inverts `id_key` on all JSON ids |
| Json.RoundTrip | src/commands/daemon/protocol.rs:339-373 | The canonical text of any JSON value, followed by anything that may follow a value, is parsed back to that value and leaves what followed |
| Json.FingerprintInjective | src/commands/daemon/protocol.rs:339-373 | Two values have the same fingerprint if and only if they are the same JSON up to key order |
| Order.SortedKeysMultiset | src/commands/daemon/protocol.rs:355-358 | The sorted keys of an object are all its keys, each once |
| Protocol.NormalFormsAgree | src/commands/daemon/protocol.rs:230-300 | Two accepted initialize requests have the same normal form if and only if they agree on every member that is not overridden |
| Protocol.NormalMembers | src/commands/daemon/protocol.rs:273-299 | The members every normal form carries |
| Protocol.NormalizeIdempotent | src/commands/daemon/protocol.rs:230-300 | A normal form is accepted and normalizes to itself |
| Protocol.AcceptsThisWorkspace | src/commands/daemon/protocol.rs:230-272 | An initialize is accepted if and only if every root and folder it names is this workspace |
| Protocol.AsksForBackgroundWork | src/commands/daemon/protocol.rs:199-216 | A client is told of background work if and only if it asks by one of two capabilities |
| Daemon.Daemon.Serve | src/commands/daemon.rs:321-356 | The loop ends in the state of the run function, so every theorem about runs is about this method; it keeps the invariant as long as it goes on |
| Daemon.Daemon.ServeTurn | src/commands/daemon.rs:322-347 | One turn, whatever event arrives: the state of the turn function, and the invariant again |
| Daemon.Daemon.CloseAll | src/commands/daemon.rs:438-444 | The loop over open documents refines the recursion over their sorted URIs |
| Daemon.Daemon.CancelAll | src/commands/daemon.rs:446-453 | The loop over outstanding ids refines the recursion over their sorted keys |
| Daemon.Daemon.AnswerAll | src/commands/daemon.rs:455-462 | The loop over pending server requests refines the recursion over their sorted keys |
| ProcessWorker.Worker.Work | src/commands/daemon/process_worker.rs:50-118 | A worker has reported nothing, a failed start, an exit, a start, or a start and an exit, and exactly when each of them |
| ProcessWorker.Worker.Publish | src/commands/daemon/events.rs:99-106 | A report is accepted or never again |
| Writer.RunKeeps | src/commands/daemon/writer.rs:62-171 | Every interleaving of the atomic steps of coordinator and writer thread keeps the invariant of the queue |
| Writer.CountersExact | src/commands/daemon/writer.rs:62-150 | The two counters never underflow, and between two calls they are the frames and bytes queued plus in flight |
| Writer.OutcomesInOrder | src/commands/daemon/writer.rs:63-86 | Outcomes are published in strictly increasing order of identifiers, none that was not given out |
| Writer.BacklogFlagged | src/commands/daemon/writer.rs:141-160 | Between two calls a backlog at either limit is flagged; finding: the branch of `refresh_flag` that would set the flag is never taken |
| Writer.StallIsLong | src/commands/daemon/writer.rs:152-171 | `timed_out` never fires on a shorter stall: every refresh of the last `timeout` saw one of the values at its limit |
| Writer.StallIsReported | src/commands/daemon/writer.rs:152-171 | It does fire on every stall that lasts: from a backlog on, as long as no refresh sees both values below their limits, `timed_out` holds from `timeout` later on |
| Writer.RefreshSees | src/commands/daemon/writer.rs:152-160 | What a refresh sees, whatever the thread does meanwhile |
| Writer.FramesConserved | src/commands/daemon/writer.rs:48-150 | Under every interleaving, until a cancellation, the frames accepted are in order those published, the one in hand and those queued; only a failed write or a closed queue ends the thread |
| Writer.EnqueueHandsOver | src/commands/daemon/writer.rs:111-150 | An `enqueue` on its own hands the frame over if and only if the queue is open and its thread runs, and flags a backlog; otherwise it leaves the counters as they were |
| Writer.ClosedByCancel | src/commands/daemon/writer.rs:181-189 | Only a cancellation closes a queue |
| Text.OffsetForUnits | src/lsp/position.rs:187-200 | The counting loop finds the offset of exactly the character with `column` UTF-16 units before it, or nothing |
| Text.ColumnsAndOffsets | src/lsp/position.rs:171-180 | `byte_offset` and `utf16_column` are inverse; a column is accepted if and only if it is the number of units before some character, so never inside a surrogate pair |
| Text.CharactersAndOffsets | src/lsp/position.rs:148-161 | `character_offset` and `character_column` are inverse on the same boundaries |
| Text.LinesJoin | src/commands/format.rs:176-186 | A text is its lines joined by line feeds |
| Text.LineStartsAre | src/commands/format.rs:176-186 | The line index holds, for each line, the length of the text before it |
| Text.LineCut | src/commands/format.rs:206-212 | The slice between two entries of the index is the line of that number |
| Text.PositionToOffsetIs | src/commands/format.rs:188-232 | A position is accepted if and only if it is the position of some character boundary, and then the result is that boundary |
| Text.PositionsMonotone | src/commands/format.rs:188-232 | Positions and offsets of boundaries grow strictly together |
| Utf16.DecodeEncode | src/lsp/position.rs:187-200 | UTF-16 decoding, surrogate pairs included, inverts encoding on all strings |
| Utf16.UnitsAre | src/lsp/position.rs:187-200 | The units counted for a text are the length of its UTF-16 encoding |
| Utf16.ColumnsCountUnits | src/lsp/position.rs:171-200 | So a column is the length of the UTF-16 encoding of what precedes it in the line, an offset that of its UTF-8 encoding, and the two conversions take one to the other |
| Utf16.PositionsCountUnits | src/commands/format.rs:188-232 | The same for positions in a text of many lines |
| Edits.ApplyTextEdits | src/commands/format.rs:133-174 | The backward in-place loop returns the simultaneous left-to-right splice of the reversed sorted spans, and fails exactly on an invalid range or an overlap |
| Edits.ReplaceStep | src/commands/format.rs:168-171 | In every iteration the offsets of the next edit are character boundaries of the current buffer |
| Edits.SpliceLength | src/commands/format.rs:133-174 | The result is as long as the source, plus what is inserted, minus what is removed |
| Edits.SortSorts | src/commands/format.rs:155 | Sorting yields the same spans in descending order |
| Edits.ListOrderIrrelevant | src/commands/format.rs:133-174 | As long as no two edits have the same range, the order of the list is irrelevant |
| Inserts.InsertsReversed | src/commands/format.rs:155-171 | Finding, with its exact condition: for every accepted list of edits, the result is the splice that keeps inserts at one position in the order of the list if and only if, at every position, the texts inserted there read the same joined in either order |
| Inserts.MergedSplice | src/commands/format.rs:133-174 | Edits of one range may be joined into one without changing the splice |
| Inserts.SortedTexts | src/commands/format.rs:155 | Neither order of sorting changes the order of the texts of one range |
| Edits.TwoInsertsReversed | src/commands/format.rs:155-171 | The case of two inserts, with the text that results |
| Edits.AcceptedInOrder | src/commands/format.rs:133-174 | Accepted spans, reversed, are in order and disjoint in the source |
| Overlaps.RefusedExactly | src/commands/format.rs:155-166 | Edits are refused if and only if one range is invalid or two of them overlap, in whatever order they are listed; touching ones are accepted |
| Overlaps.RangeAccepted | src/commands/format.rs:137-153 | A range is valid if and only if its ends are the positions of two characters in order, and then covers the text between them |
| Render.SourceLines | src/commands/cat/render.rs:70-81 | The running offset is the length of the text before each line |
| Render.OffsetIs | src/commands/cat/render.rs:83-87 | Looking a position up in that index gives its offset in the source |
| Render.IndexesAgree | src/commands/cat/render.rs:83-87 | The line index of the renderer agrees with that of the formatter wherever it has an answer, and rejects exactly the further positions behind a carriage return |
| Render.Highlight | src/commands/cat/render.rs:6-57 | It succeeds if and only if every token is valid; then the segments of its output are the source, each token is the text between its absolute positions in its style and stands exactly there, and everything between tokens is plain |
| Render.TokensAscend | src/commands/cat/render.rs:22-54 | Valid tokens are non-empty, ascending and disjoint |
| Render.PaletteCovers | src/commands/cat/render.rs:91-105 | Exactly the token types of the protocol have a style |
| Render.PaletteColours | src/commands/cat/render.rs:91-105 | And which colour that is |
| SourceCache.RangeContent | src/lsp/source_cache.rs:50-88 | For every range, valid or not, the loop over cached lines yields what the two byte offsets cut out of the file with uniform line endings |
| SourceCache.BetweenIs | src/lsp/source_cache.rs:50-88 | What two offsets cut out of a text, in terms of its lines |
| SourceCache.NormalizedLines | src/lsp/source_cache.rs:118-129 | The cached lines are the lines of the file with uniform line endings |
| SourceCache.NothingToNormalize | src/lsp/source_cache.rs:118-129 | That is the file itself when it has no carriage return |
| SourceCache.ReturnsDropped | src/lsp/source_cache.rs:118-129 | A file whose lines end in carriage return and line feed is cached as its lines |
| SourceCache.RangeOfBoundaries | src/lsp/source_cache.rs:50-88 | Then a range between two boundaries is the text between them |
| Symbols.SearchIsFirstLeast | src/lsp/full_content.rs:47-94 | The recursive search returns the first of the smallest matches of the whole forest in preorder |
| Symbols.FirstLeastIs | src/lsp/full_content.rs:81-86 | What the first of the smallest is: no smaller one, and all before it are larger |
| Symbols.SizeIsMonotone | src/lsp/position.rs:131-135 | The size of a range is monotone under containment if columns stay within a bound of one million, and for no larger bound |
| Symbols.ChosenIsInnermost | src/lsp/full_content.rs:47-94 | So the chosen symbol is no larger than any match that encloses it, and no match inside it is smaller |
| Symbols.FindsBest | src/lsp/full_content.rs:47-94 | What is searched for, by name and position: the first of the smallest such symbols is found, and nothing if and only if there is none |
| Window.Client.DocumentSymbolsWindow | src/lsp/client/window.rs:41-62 | A success is the list of the sequential scan over the answers that settle the files, which the messages alone determine, for every window size, order of arrival, repeated, early or foreign reply, with never more than `limit` in flight. On a monotone clock it succeeds if and only if all files can be opened and asked for, the messages settle them all, and until then no message is unusable and no request out of time. A failure has its cause where the scan stands, and exactly the requests in flight whose id fits a cancellation are cancelled |
| Window.Client.Collect | src/lsp/client/window.rs:64-150 | The fill-and-drain loop: results are the decoded first replies by file; a failure names the file, request or message at which the scan stands |
| Window.NotSmooth | src/lsp/client/window.rs:64-150 | None of the six causes arises where all goes well |
| Window.SmoothWorld | src/lsp/client/window.rs:64-150 | A world in which all goes well although a notification and a second reply to the same request come in between |
| Window.PassedSmooth | src/lsp/client/window.rs:64-150 | A scan that completes has met nothing else: all files opened, no message unusable, no request late |
| Window.Client.Fill | src/lsp/client/window.rs:74-100 | The filling loop stops at a full window or at the end of the files, having sent each request as soon as there was room |
| Window.Client.Ask | src/lsp/client/window.rs:79-99 | One request goes out exactly if the file opens, nothing is out of time and the send is accepted |
| Window.Client.Send | src/lsp/client/window.rs:93-99 | The id is used up whether or not the send is accepted; the request started at the reading of the clock just before |
| Window.Client.Receive | src/lsp/client/window.rs:104-147 | One message and no more: a first reply settles its file, anything else leaves requests and results as they were |
| Window.Client.Reply | src/lsp/client/window.rs:108-125 | A reply is decoded into its file's slot, or skipped if it is an error; it fails exactly if it cannot be decoded |
| Window.Client.WindowTimeout | src/lsp/client/window.rs:153-160 | At this reading of the clock it fails if and only if some request in flight has used up its time |
| Window.Client.CancelPending | src/lsp/client/window.rs:52-59 | The cancellations sent, in ascending order |
| Window.ReplyOnSchedule | src/lsp/client/window.rs:74-125 | A reply to a request in flight settles its file and keeps the rest in flight |
| Window.AllAsked | src/lsp/client/window.rs:74-103 | Nothing in flight in a full window means that every file was asked for |
| Window.SettlingOnce | src/lsp/client/window.rs:108-125 | Every file is settled once, so the answers that settle the files are unique |
| Window.FirstSettles | src/lsp/client/window.rs:108-125 | What settles a file is the first reply after its request was sent; earlier replies under its id do not count, later ones neither |
| Window.CollectsSettling | src/lsp/client/window.rs:64-103 | A finished scan has collected what the sequential one does from the answers that settle the files |
| Window.WindowIsSequential | src/lsp/client/window.rs:64-103 | A finished scan has collected what the sequential one does, if the server answers each request in one way |
| Window.CancellableAre | src/lsp/client/window.rs:52-59 | Exactly the ids in flight that fit 32 bits, ascending |
| Version.TokenizeVersion | src/mason/registry.rs:437-459 | The character loop yields the maximal runs of digits and of letters |
| Version.PushVersionPart | src/mason/registry.rs:461-484 | A finished run becomes one token |
| Version.CompareVersionStrings | src/mason/registry.rs:422-435 | The loop over indexes decides by the first difference |
| Version.TotalPreorder | src/mason/registry.rs:422-525 | The order on version strings is reflexive, total and transitive across different numbers of tokens, and two versions are equal if and only if their tokens agree without trailing zeros |
| Releases.TokensLess | src/mason/registry.rs:500-525 | The direction of the order: a version is less if and only if at the first tokens that differ its token is the lower one, numbers by value, words as texts, a word above a number |
| Releases.SmallerNumberIsOlder | src/mason/registry.rs:422-525 | Of two version texts that agree up to a separator, the one that goes on with the smaller number is older, whatever follows |
| Releases.SmallerMajorIsOlder | src/mason/registry.rs:422-525 | The same for the first number |
| Releases.WordIsNewer | src/mason/registry.rs:422-525 | Finding: a word at the end makes a version newer; an ending in zeros makes no difference |
| Version.MatchesDownward | src/mason/registry.rs:399-411 | What a `<=` bound admits is downward closed |
| Releases.BoundAdmits | src/mason/registry.rs:399-411 | An upper bound admits itself and what is older, and refuses what is newer |
| Releases.VersionOfId | src/mason/registry.rs:390-397 | The version of an identifier is read whatever qualifiers or subpath follow it |
| Version.ChooseOverride | src/mason/registry.rs:266-276 | The first matching override with the least bound, or none if none matches |
| Version.AppliesOnce | src/mason/registry.rs:266-276 | That override is unique |
| Version.Source.ApplyVersionOverrides | src/mason/registry.rs:264-291 | The recipe becomes that of the chosen override, its platforms replaced even by none, the rest only if stated; without a match, or with an unreadable id, nothing changes |
| Transport.Reader.ReadMessage | src/lsp/transport.rs:7-59 | The header loop and the body do what the reading function says, and consume what it consumes |
| Transport.Reader.ReadLine | src/lsp/transport.rs:16-18 | One line is consumed |
| Transport.FrameRead | src/lsp/transport.rs:7-59 | A frame is read back as its message, whatever follows, and no byte behind it is consumed |
| Transport.StreamRead | src/lsp/transport.rs:72-80 | Reading what was written gives exactly the messages, `null` among them, and then the end of the stream |
| Transport.MessageRead | src/lsp/transport.rs:14-59 | A message is read whatever other header lines come before or after its length, in whatever letters the name of that header is written |
| Transport.FrameCut | src/lsp/transport.rs:20-53 | A frame cut short at any byte fails; it is never taken for a message or for the end of the stream |
| Transport.StreamCut | src/lsp/transport.rs:20-53 | So a stream that breaks off inside a frame yields the messages before it and then a failure |
| Utf8.DecodeEncode | src/lsp/transport.rs:54-58 | UTF-8 decoding inverts encoding on all strings |
| Decimal.PrintValue | src/lsp/transport.rs:72-80 | A printed length is read back as the same number |

## Left out

- Sockets, pipes, threads, signals, the file system, logging, standard error of the server and the
  command line: replaced by events, oracles and given texts.
- Generations, write identifiers and request identifiers are unbounded; the errors raised when a
  64-bit counter is exhausted are not modelled.
- JSON numbers are integers, and the parser accepts no white space and no surrogate escapes; the
  texts the daemon itself writes are all covered.
- Messages are abstracted to the members that the coordinator reads; the texts of error responses
  are not modelled.
- The tracker of background work: whether the server is known to be idle, and whether one of its
  notifications decodes, is given from outside.
- `next_event_timeout`: waiting times decide when events arrive, and every arrival is covered.
- Which outputs have stalled in a turn is given from outside; `Writer.dfy` says when that can be.
- That a shutdown always reaches its end: `Killing` has no deadline, and the loop drops the event
  that arrives together with the idle deadline.
- Response ids are not rewritten, so a response may reach a later session that uses the same id;
  `Theorems.ResponsesRouted` counts per session and id.
- Parsing of URIs.
- What is written to connections that still wait for admission is not kept in a log.
- A `null` answer to a request for semantic tokens, for which the source is printed as it is.
- Leading comments in `source_cache.rs`, flat symbol lists and the anchor of a flat symbol.
- The size of the buffer that `read_message` allocates for an announced length.
- Decoding of registry files, and the parts of a recipe beyond its members as opaque texts.
- Theorems.RequestsConserved: nothing is claimed for a server that reuses an id while it is
  unanswered, because the table of pending requests then holds only the later one.
- Theorems.DocumentsTracked: nothing is claimed once a write to the server was refused, because the
  daemon ignores refused writes when a client leaves.
- Window.Client.WindowTimeout: the clock is read once for a check, while the code reads it once for
  every request in flight.
- Writer.StallIsLong: the backlog is observed at refreshes; between two of them it may fall below
  the limits and rise again unnoticed.
