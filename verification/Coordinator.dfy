/** The daemon's coordinator as transition functions on its state: what each handler of the
    event loop does to the session, the lifecycle and the messages written so far.

    A function returns the state it reaches and whether the source would return `Ok`; after an
    error the daemon is torn down. Time is in milliseconds. The outside world is an `Env`. */
module Coordinator {
  import opened Json
  import opened Order
  import opened Protocol
  import opened Streams

  const UPSTREAM_SHUTDOWN_TIMEOUT: nat := 2000
  const HANDSHAKE_TIMEOUT: nat := 2000
  const MAX_PENDING_CONNECTIONS: nat := 16
  const SHUTDOWN_ID: Value := String("lsp-cli/daemon-shutdown")

  /** Everything the coordinator does not decide. Writes are numbered by `State.attempts`. */
  datatype Env = Env(
    target: Target,
    write: nat -> bool,        // whether an output worker accepts a message
    spawn: nat -> bool,        // whether the workers of a generation can be started
    attach: nat -> bool,       // whether the I/O workers of a started server can be
    quiescent: nat -> bool,    // whether the server is known to be idle
    uriParses: string -> bool,
    idleTimeout: nat)

  // ----- state

  datatype AfterExit = Restart | Stop | NoServer

  datatype Lifecycle =
    | Starting(generation: nat, initial: bool)
    | Running
    | AwaitingShutdownReply(generation: nat, deadline: nat, after: AfterExit)
    | AwaitingExitWrite(generation: nat, writeId: nat, deadline: nat, after: AfterExit)
    | AwaitingExit(generation: nat, deadline: nat, after: AfterExit)
    | Killing(generation: nat, after: AfterExit)
    | Absent
    | Stopped
  {
    predicate Awaiting() { AwaitingShutdownReply? || AwaitingExitWrite? || AwaitingExit? }
    predicate Leaving() { Awaiting() || Killing? }
    predicate IsStopping() { (Leaving() && after == Stop) || Stopped? }
  }

  datatype Phase =
    | WaitingForInitialize
    | WaitingForUpstream
    | WaitingForInitialized(forward: bool)
    | Ready
    | WaitingForExit

  /** What a shutdown deadline was armed for. */
  datatype ShutdownStage = ForReply | ForExitWrite | ForExit

  /** What happened between the daemon and one server. The program has no such variable. */
  datatype ServerLog = ServerLog(
    sent: seq<ToServer>,                   // accepted by the server's writer
    received: multiset<string>,            // ids of requests received from the server
    inherited: multiset<string>,           // ids the client still had to answer when it was attached
    replies: set<(string, Option<Value>)>, // id and result of each response received
    writeLost: bool,                       // a write was refused
    reused: bool,                          // the server reused an id that was still unanswered
    stray: bool,                           // the server answered an id it was not asked
    stages: seq<ShutdownStage>)            // shutdown deadlines armed, in order

  datatype Upstream = Upstream(
    generation: nat,
    fingerprint: Option<string>,
    result: Option<Value>,
    restartRequired: bool,
    nextWriteId: nat,
    log: ServerLog)

  /** What happened between the daemon and one client. The program has no such variable. */
  datatype ClientLog = ClientLog(
    sent: seq<ToClient>,          // accepted by the client's writer
    asked: multiset<string>,      // ids forwarded to servers on the client's behalf
    reasked: bool)                // the client reused an id that was still unanswered

  datatype Client = Client(
    generation: nat,
    phase: Phase,
    wantsBackground: bool,
    forwarded: set<string>,
    serverRequests: map<string, Value>,
    openDocuments: set<string>,
    stopAfterWrite: Option<nat>,
    disconnectAfterWrite: Option<nat>,
    nextWriteId: nat,
    log: ClientLog)

  datatype PendingInitialize = PendingInitialize(
    id: Value, normalized: Value, fingerprint: string, wantsBackground: bool)

  datatype Pending = Pending(client: Client, deadline: nat, closeAfterWrite: Option<nat>, stopAfterWrite: bool)

  /** What happened before the current server and client. The program has no such variable. */
  datatype Past = Past(
    servers: seq<Upstream>,       // earlier servers, as they were when they ended
    sessions: seq<Client>,        // earlier clients, as they were when they left
    announced: bool,              // the process worker reported the start of the process
    starts: nat,                  // server processes started
    lateStarts: nat)              // of these, started although a stop was requested

  datatype State = State(
    upstream: Option<Upstream>,
    process: Option<nat>,
    lifecycle: Lifecycle,
    pendingInitialize: Option<PendingInitialize>,
    client: Option<Client>,
    pending: map<nat, Pending>,
    orphaned: set<string>,
    idleSince: nat,
    stopRequested: bool,
    accepting: bool,
    generation: nat,
    attempts: nat,
    past: Past)

  /** A state and whether the step that reached it succeeded. */
  datatype Out = Out(s: State, ok: bool) {
    predicate IsFailure() { !ok }
    function PropagateFailure(): Out requires !ok { this }
    function Extract(): State requires ok { s }
  }

  // ----- events

  datatype Source = FromClient(generation: nat) | FromServer(generation: nat)
  datatype ReaderEvent = Received(m: Message) | EndOfStream | ReadError
  datatype WriterEvent = Completed(id: nat, at: nat) | Refused(id: nat)
  datatype ProcessEvent = Started | StartFailed | Exited

  datatype Event =
    | Accepted(acceptedAt: nat)
    | AcceptError
    | Reader(source: Source, read: ReaderEvent)
    | Writer(source: Source, written: WriterEvent)
    | Process(generation: nat, event: ProcessEvent)

  // ----- writing

  /** A message offered to a server's writer. */
  function Send(up: Upstream, e: ToServer, accepted: bool): Upstream {
    up.(nextWriteId := up.nextWriteId + 1,
        log := if accepted then up.log.(sent := up.log.sent + [e]) else up.log.(writeLost := true))
  }

  /** `write_upstream_message` and `write_upstream_shared`. */
  function WriteUpstream(s: State, e: ToServer, env: Env): Out {
    match s.upstream
    case None => Out(s, false)
    case Some(up) =>
      Out(s.(attempts := s.attempts + 1, upstream := Some(Send(up, e, env.write(s.attempts)))),
          env.write(s.attempts))
  }

  /** A message offered to a client's writer. */
  function Reply(c: Client, e: ToClient, accepted: bool): Client {
    c.(nextWriteId := c.nextWriteId + 1,
       log := if accepted then c.log.(sent := c.log.sent + [e]) else c.log)
  }

  /** `enqueue_client_message` and `enqueue_client_response`; without a client nothing happens. */
  function EnqueueClient(s: State, e: ToClient, env: Env): Out {
    match s.client
    case None => Out(s, true)
    case Some(c) =>
      Out(s.(attempts := s.attempts + 1, client := Some(Reply(c, e, env.write(s.attempts)))),
          env.write(s.attempts))
  }

  function SetPhase(s: State, phase: Phase): State {
    if s.client.Some? then s.(client := Some(s.client.value.(phase := phase))) else s
  }

  /** The active client goes away and its session becomes history. */
  function DropClient(s: State): State {
    if s.client == None then s
    else s.(client := None, past := s.past.(sessions := s.past.sessions + [s.client.value]))
  }

  // ----- lifecycle

  function StartUpstream(s: State, initial: bool, env: Env): Out {
    var g := s.generation + 1;
    if !env.spawn(g) then Out(s.(generation := g), false)
    else Out(s.(generation := g, process := Some(g), lifecycle := Starting(g, initial),
                past := s.past.(announced := false, starts := s.past.starts + 1,
                                lateStarts := s.past.lateStarts + if s.stopRequested then 1 else 0)), true)
  }

  /** A shutdown deadline is set. */
  function Arm(s: State, stage: ShutdownStage): State {
    if s.upstream == None then s
    else
      var up := s.upstream.value;
      s.(upstream := Some(up.(log := up.log.(stages := up.log.stages + [stage]))))
  }

  function ForceStop(s: State, generation: nat, after: AfterExit): State {
    s.(lifecycle := Killing(generation, after))
  }

  function BeginShutdown(s: State, after: AfterExit, now: nat, env: Env): Out {
    match s.upstream
    case None =>
      var s' := s.(lifecycle := if after == Stop then Stopped else Absent);
      if after == Restart then StartUpstream(s', false, env) else Out(s', true)
    case Some(up) =>
      if up.fingerprint == None then Out(ForceStop(s, up.generation, after), true)
      else
        var w := WriteUpstream(s, ShutdownRequest, env);
        if !w.ok then Out(ForceStop(w.s, up.generation, after), true)
        else
          var deadline := now + UPSTREAM_SHUTDOWN_TIMEOUT;
          Out(Arm(w.s, ForReply).(lifecycle := AwaitingShutdownReply(up.generation, deadline, after)), true)
  }

  function BeginRestart(s: State, now: nat, env: Env): Out {
    match s.lifecycle
    case Running => BeginShutdown(s, Restart, now, env)
    case Absent => StartUpstream(s, false, env)
    case _ => Out(s, true)
  }

  predicate IsShutdownReply(m: Message) { m.ResponseId() == Some(SHUTDOWN_ID) }

  /** `handle_lifecycle_message` on a reply to the daemon's own shutdown request. */
  function HandleShutdownReply(s: State, now: nat, env: Env): State {
    if !s.lifecycle.AwaitingShutdownReply? then s
    else
      var lc := s.lifecycle;
      if s.upstream == None then ForceStop(s, lc.generation, lc.after)
      else
        var w := WriteUpstream(s, ExitNotice, env);
        if !w.ok then ForceStop(w.s, lc.generation, lc.after)
        else Arm(w.s, ForExitWrite).(lifecycle := AwaitingExitWrite(lc.generation, w.s.upstream.value.nextWriteId,
                                                      now + UPSTREAM_SHUTDOWN_TIMEOUT, lc.after))
  }

  function HandleLifecycleWrite(s: State, generation: nat, id: nat, at: nat): State {
    var lc := s.lifecycle;
    if lc.AwaitingExitWrite? && lc.generation == generation && lc.writeId == id then
      Arm(s, ForExit).(lifecycle := AwaitingExit(generation, at + UPSTREAM_SHUTDOWN_TIMEOUT, lc.after))
    else s
  }

  function AdvanceDeadline(s: State, now: nat): State {
    var lc := s.lifecycle;
    if lc.Awaiting() && now >= lc.deadline then ForceStop(s, lc.generation, lc.after) else s
  }

  function UpstreamFailed(s: State): State {
    match s.upstream
    case None => s
    case Some(up) =>
      var after := if s.lifecycle.Leaving() then s.lifecycle.after else NoServer;
      var s' := if after == NoServer then DropClient(s).(pendingInitialize := None) else s;
      ForceStop(s', up.generation, after)
  }

  /** The server's input and output are gone; its stream is kept as history. */
  function DropUpstream(s: State): State {
    if s.upstream == None then s
    else s.(upstream := None, past := s.past.(servers := s.past.servers + [s.upstream.value]))
  }

  function HandleProcessExit(s: State, generation: nat, now: nat, env: Env): Out {
    var lc := s.lifecycle;
    if !(lc.Running? || (lc.Leaving() && lc.generation == generation)) then Out(s, true)
    else
      var after := if lc.Running? then NoServer else lc.after;
      var s' := DropUpstream(s).(process := None, orphaned := {});
      match after
      case Restart => StartUpstream(s', false, env)
      case Stop => Out(s'.(lifecycle := Stopped), true)
      case NoServer =>
        Out(DropClient(s').(pendingInitialize := None, lifecycle := Absent, idleSince := now), true)
  }

  function PendingKeys(c: Option<Client>): multiset<string> {
    if c.Some? then multiset(c.value.serverRequests.Keys) else multiset{}
  }

  /** `UpstreamServer::from_io`: a server without any history. */
  function NewUpstream(generation: nat, inherited: multiset<string>): Upstream {
    Upstream(generation, None, None, false, 0,
             ServerLog([], multiset{}, inherited, {}, false, false, false, []))
  }

  function AttachUpstream(s: State, generation: nat): State {
    s.(upstream := Some(NewUpstream(generation, PendingKeys(s.client))), lifecycle := Running)
  }

  function HandleProcessEvent(s: State, generation: nat, event: ProcessEvent, now: nat, env: Env): Out {
    if s.process != Some(generation) then Out(s, true)
    else if event.Started? then
      var s' := s.(past := s.past.(announced := true));
      if !(s.lifecycle.Starting? && s.lifecycle.generation == generation) then Out(s', true)
      else if !env.attach(generation) then Out(s', false)
      else ResumePendingInitialize(AttachUpstream(s', generation), env)
    else if event.StartFailed? then
      var initial := s.lifecycle.Starting? && s.lifecycle.generation == generation && s.lifecycle.initial;
      var s' := s.(process := None, lifecycle := Absent);
      if initial then Out(s', false) else FailPendingInitialize(s', env)
    else HandleProcessExit(s, generation, now, env)
  }

  // ----- initialize

  function ForwardInitialize(s: State, init: PendingInitialize, env: Env): Out {
    if s.upstream == None then Out(s, false)
    else
      var s1 := s.(upstream := Some(s.upstream.value.(fingerprint := Some(init.fingerprint))));
      var s2 :- WriteUpstream(s1, InitializeRequest(init.id, init.normalized), env);
      Out(Ask(s2, init), true)
  }

  /** The active client now waits for the answer to a forwarded initialize. */
  function Ask(s: State, init: PendingInitialize): State {
    if s.client == None then s
    else
      s.(client := Some(RecordRequest(
        s.client.value.(wantsBackground := init.wantsBackground, phase := WaitingForInitialized(true)),
        IdKey(init.id))))
  }

  /** A request with this key is forwarded for a client. */
  function RecordRequest(c: Client, key: string): Client {
    c.(forwarded := c.forwarded + {key},
       log := c.log.(asked := c.log.asked + multiset{key}, reasked := c.log.reasked || key in c.forwarded))
  }

  function ResumePendingInitialize(s: State, env: Env): Out {
    match s.pendingInitialize
    case None => Out(s, true)
    case Some(init) =>
      var s' := s.(pendingInitialize := None);
      if s.client == None then Out(s', true) else ForwardInitialize(s', init, env)
  }

  function FailPendingInitialize(s: State, env: Env): Out {
    match s.pendingInitialize
    case None => Out(s, true)
    case Some(init) =>
      var s1 := s.(pendingInitialize := None);
      if s.client == None then Out(s1, true)
      else
        var s2 :- EnqueueClient(s1, Failure(init.id), env);
        var c := s2.client.value;
        Out(s2.(client := Some(c.(phase := WaitingForExit, disconnectAfterWrite := Some(c.nextWriteId)))), true)
  }

  predicate ShouldRestart(up: Option<Upstream>, fingerprint: string) {
    up == None || up.value.restartRequired
    || (up.value.fingerprint.Some? && up.value.fingerprint.value != fingerprint)
  }

  function HandleInitialize(s: State, m: Message, now: nat, env: Env): Out {
    if m.RequestId() == None then Out(s, true)
    else if m.params == None then Out(s, false)
    else
      match NormalizeInitialize(m.params.value, env.target)
      case Err => Out(s, false)
      case Ok(normalized) =>
        var init := PendingInitialize(m.id.value, normalized, Fingerprint(normalized), WantsBackgroundWork(normalized));
        ServeInitialize(s, init, now, env)
  }

  function ServeInitialize(s: State, init: PendingInitialize, now: nat, env: Env): Out {
    if ShouldRestart(s.upstream, init.fingerprint) then
      BeginRestart(SetPhase(s.(pendingInitialize := Some(init)), WaitingForUpstream), now, env)
    else if s.upstream.value.fingerprint.Some? then
      if s.upstream.value.result == None then Out(s, false)
      else
        var s1 :- EnqueueClient(s, CachedInitialize(init.id, s.upstream.value.result.value), env);
        if s1.client == None then Out(s1, true)
        else Out(s1.(client := Some(s1.client.value.(wantsBackground := init.wantsBackground,
                                                     phase := WaitingForInitialized(false)))), true)
    else ForwardInitialize(s, init, env)
  }

  // ----- clients

  function HandleStop(s: State, id: Value, env: Env): Out {
    var s1 :- EnqueueClient(s, Success(id), env);
    if s1.client == None then Out(s1, true)
    else Out(s1.(client := Some(s1.client.value.(stopAfterWrite := Some(s1.client.value.nextWriteId)))), true)
  }

  function CloseAll(s: State, uris: seq<string>, env: Env): Out
    decreases |uris|
  {
    if uris == [] then Out(s, true)
    else if !env.uriParses(uris[0]) then Out(s, false)
    else CloseAll(WriteUpstream(s, CloseDocument(uris[0]), env).s, uris[1..], env)
  }

  function CancelAll(s: State, keys: seq<string>, env: Env): Out
    decreases |keys|
  {
    if keys == [] then Out(s, true)
    else
      var id := RequestIdFromKey(keys[0]);
      if !IsNumberOrString(id) then Out(s, false)
      else
        var s1 := WriteUpstream(s, CancelRequest(id), env).s;
        CancelAll(s1.(orphaned := s1.orphaned + {keys[0]}), keys[1..], env)
  }

  function AnswerAll(s: State, requests: map<string, Value>, keys: seq<string>, env: Env): State
    requires forall k | k in keys :: k in requests
    decreases |keys|
  {
    if keys == [] then s
    else AnswerAll(WriteUpstream(s, CancelledAnswer(requests[keys[0]]), env).s, requests, keys[1..], env)
  }

  /** What a departing client leaves to the server: its documents are closed, its requests
      cancelled and the server's requests to it answered. */
  function Settle(s: State, c: Client, env: Env): Out {
    var s1 :- CloseAll(s, SortedKeys(c.openDocuments), env);
    var s2 :- CancelAll(s1, SortedKeys(c.forwarded), env);
    Out(AnswerAll(s2, c.serverRequests, SortedKeys(c.serverRequests.Keys), env), true)
  }

  function Disconnect(s: State, now: nat, env: Env): Out {
    if s.client == None then Out(s, true)
    else
      var s1 :- Settle(DropClient(s), s.client.value, env);
      var s2 :- if !s1.stopRequested && s1.upstream.Some? && s1.upstream.value.restartRequired
                then BeginRestart(s1, now, env) else Out(s1, true);
      Out(s2.(idleSince := now), true)
  }

  /** What `begin_stop` does once the client is gone. */
  function StopStage(s: State, now: nat, env: Env): Out {
    match s.lifecycle
    case Running => BeginShutdown(s, Stop, now, env)
    case Starting(g, _) => Out(ForceStop(s, g, Stop), true)
    case Absent => Out(s.(lifecycle := Stopped), true)
    case AwaitingShutdownReply(g, d, _) => Out(s.(lifecycle := AwaitingShutdownReply(g, d, Stop)), true)
    case AwaitingExitWrite(g, w, d, _) => Out(s.(lifecycle := AwaitingExitWrite(g, w, d, Stop)), true)
    case AwaitingExit(g, d, _) => Out(s.(lifecycle := AwaitingExit(g, d, Stop)), true)
    case Killing(g, _) => Out(s.(lifecycle := Killing(g, Stop)), true)
    case Stopped => Out(s, true)
  }

  function BeginStop(s: State, now: nat, env: Env): Out {
    var s1 :- Disconnect(s.(stopRequested := true, accepting := false, pending := map[]), now, env);
    StopStage(s1, now, env)
  }

  function TrackDocument(s: State, m: Message): State {
    if s.client == None || m.uri == None then s
    else
      var c := s.client.value;
      if m.name == DidOpen then s.(client := Some(c.(openDocuments := c.openDocuments + {m.uri.value})))
      else if m.name == DidClose then s.(client := Some(c.(openDocuments := c.openDocuments - {m.uri.value})))
      else s
  }

  /** A response of the client to a request of the server. */
  function HandleClientResponse(s: State, m: Message, key: string, env: Env): Out {
    if s.client == None then Out(s, true)
    else
      var c := s.client.value;
      if key !in c.serverRequests then Out(s, true)
      else WriteUpstream(s.(client := Some(c.(serverRequests := c.serverRequests - {key}))), Answer(m), env)
  }

  function HandleBeforeInitialize(s: State, m: Message, now: nat, env: Env): Out {
    if m.StopId().Some? then HandleStop(s, m.StopId().value, env)
    else if m.name == Initialize && m.RequestId().Some? then HandleInitialize(s, m, now, env)
    else if m.name == ExitMethod then Disconnect(s, now, env)
    else if m.RequestId().Some? then EnqueueClient(s, Failure(m.RequestId().value), env)
    else Out(s, true)
  }

  function HandleWaitingForUpstream(s: State, m: Message, now: nat, env: Env): Out {
    if m.StopId().Some? then HandleStop(s, m.StopId().value, env)
    else if m.name == ExitMethod then Disconnect(s, now, env)
    else if m.RequestId().Some? then EnqueueClient(s, Failure(m.RequestId().value), env)
    else Out(s, true)
  }

  function HandleBeforeInitialized(s: State, m: Message, forward: bool, env: Env): Out {
    if m.name == Initialized then
      var s1 :- if forward then WriteUpstream(s, InitializedNotice(m), env) else Out(s, true);
      var s2 := SetPhase(s1, Ready);
      if forward then Out(s2, true) else NotifyIfReady(s2, env)
    else if m.RequestId().Some? then EnqueueClient(s, Failure(m.RequestId().value), env)
    else Out(s, true)
  }

  function NotifyIfReady(s: State, env: Env): Out {
    if s.client.Some? && s.client.value.wantsBackground && s.upstream.Some? && env.quiescent(s.attempts)
    then EnqueueClient(s, BackgroundReady, env) else Out(s, true)
  }

  /** A message of a ready client that is none of the daemon's own business. */
  function ForwardMessage(s: State, m: Message, env: Env): Out {
    var s1 := TrackDocument(s, m);
    if m.RequestId() == None then WriteUpstream(s1, Forwarded(m), env)
    else if s1.client == None then Out(s1, true)
    else
      var c := RecordRequest(s1.client.value, IdKey(m.RequestId().value));
      WriteUpstream(s1.(client := Some(c)), Forwarded(m), env)
  }

  function HandleReady(s: State, m: Message, now: nat, env: Env): Out {
    if m.name == ShutdownMethod then
      if m.RequestId() == None then Out(s, true)
      else EnqueueClient(SetPhase(s, WaitingForExit), Success(m.RequestId().value), env)
    else if m.name == ExitMethod then Disconnect(s, now, env)
    else if m.name == StopMethod then
      if m.StopId() == None then Out(s, false) else HandleStop(s, m.StopId().value, env)
    else ForwardMessage(s, m, env)
  }

  function HandleClientMessage(s: State, m: Message, now: nat, env: Env): Out {
    if m.ResponseId().Some? then HandleClientResponse(s, m, IdKey(m.ResponseId().value), env)
    else if s.client == None then HandleReady(s, m, now, env)
    else
      match s.client.value.phase
      case WaitingForInitialize => HandleBeforeInitialize(s, m, now, env)
      case WaitingForUpstream => HandleWaitingForUpstream(s, m, now, env)
      case WaitingForInitialized(forward) => HandleBeforeInitialized(s, m, forward, env)
      case WaitingForExit => if m.name == ExitMethod then Disconnect(s, now, env) else Out(s, true)
      case Ready => HandleReady(s, m, now, env)
  }

  // ----- the server

  /** What is remembered of a response: that it came, and whether it was asked for. */
  function RecordReply(s: State, m: Message, key: string): State {
    if s.upstream == None then s
    else
      var up := s.upstream.value;
      s.(upstream := Some(up.(log := up.log.(replies := up.log.replies + {(key, m.result)},
                                             stray := up.log.stray || key !in RequestKeys(up.log.sent)))))
  }

  function HandleServerResponse(s: State, m: Message, key: string, env: Env): Out {
    if key in s.orphaned then Out(s.(orphaned := s.orphaned - {key}), true)
    else if s.client == None || key !in s.client.value.forwarded then Out(s, true)
    else
      var c := s.client.value;
      var initialize := c.phase == WaitingForInitialized(true);
      var c' := c.(forwarded := c.forwarded - {key},
                   phase := if initialize && m.error then WaitingForExit else c.phase);
      var s1 := s.(client := Some(c'));
      var s2 := if initialize then CacheInitialize(s1, m) else s1;
      EnqueueClient(s2, Routed(key), env)
  }

  function CacheInitialize(s: State, m: Message): State {
    if s.upstream == None then s
    else if m.error then
      s.(upstream := Some(s.upstream.value.(fingerprint := None, result := None, restartRequired := true)))
    else s.(upstream := Some(s.upstream.value.(result := m.result)))
  }

  /** What a request of the server changes about the server: a registration makes its state
      differ from that of a fresh one. */
  function NoteRequest(up: Upstream, m: Message, key: string, reused: bool): Upstream {
    up.(restartRequired := up.restartRequired || m.name == Registration,
        log := up.log.(received := up.log.received + multiset{key}, reused := up.log.reused || reused))
  }

  function HandleServerRequest(s: State, m: Message, id: Value, key: string, env: Env): Out {
    if m.name == NotAString then Out(s, false)
    else
      var reused := s.client.Some? && key in s.client.value.serverRequests;
      var s1 := if s.upstream.Some? then s.(upstream := Some(NoteRequest(s.upstream.value, m, key, reused))) else s;
      if s.client.Some? then
        var c := s.client.value;
        EnqueueClient(s1.(client := Some(c.(serverRequests := c.serverRequests[key := id]))), Relayed(m), env)
      else WriteUpstream(s1, LocalAnswer(id), env)
  }

  function HandleUpstreamMessage(s: State, m: Message, env: Env): Out {
    if !m.decodable then Out(s, false)
    else if m.ResponseId().Some? then
      var key := IdKey(m.ResponseId().value);
      HandleServerResponse(RecordReply(s, m, key), m, key, env)
    else if m.RequestId().Some? then
      HandleServerRequest(s, m, m.RequestId().value, IdKey(m.RequestId().value), env)
    else EnqueueClient(s, Relayed(m), env)
  }

  // ----- connections

  function ExpirePending(s: State, now: nat): State {
    s.(pending := map g | g in s.pending && (s.pending[g].closeAfterWrite.Some? || s.pending[g].deadline > now) ::
       s.pending[g])
  }

  function NewClient(generation: nat): Client {
    Client(generation, WaitingForInitialize, false, {}, map[], {}, None, None, 0, ClientLog([], multiset{}, false))
  }

  function AcceptPending(s: State, acceptedAt: nat, now: nat, env: Env): Out {
    var deadline := acceptedAt + HANDSHAKE_TIMEOUT;
    if deadline <= now || |s.pending| >= MAX_PENDING_CONNECTIONS then Out(s, true)
    else
      var g := s.generation + 1;
      var s' := s.(generation := g);
      if !env.spawn(g) then Out(s', false)
      else Out(s'.(pending := s.pending[g := Pending(NewClient(g), deadline, None, false)]), true)
  }

  /** Replies to a connection that is not admitted; if the reply cannot be queued it is dropped. */
  function ReplyPending(s: State, g: nat, p: Pending, stop: bool, env: Env): State {
    var c := p.client.(nextWriteId := p.client.nextWriteId + 1);
    var s' := s.(attempts := s.attempts + 1);
    if !env.write(s.attempts) then s'
    else s'.(pending := s'.pending[g := p.(client := c, closeAfterWrite := Some(c.nextWriteId),
                                           stopAfterWrite := p.stopAfterWrite || stop)])
  }

  function HandlePendingMessage(s: State, g: nat, event: ReaderEvent, now: nat, env: Env): Out {
    if g !in s.pending then Out(s, true)
    else
      var p := s.pending[g];
      var s1 := s.(pending := s.pending - {g});
      if !event.Received? then Out(s1, true)
      else
        var m := event.m;
        if m.StopId().Some? then Out(ReplyPending(s1, g, p, true, env), true)
        else if m.RequestId() == None then Out(s1, true)
        else if m.name != Initialize || s1.client.Some?
             || NormalizeInitialize(if m.params.Some? then m.params.value else Null, env.target).Err?
        then Out(ReplyPending(s1, g, p, false, env), true)
        else HandleClientMessage(s1.(client := Some(p.client)), m, now, env)
  }

  // ----- outputs

  function HandleClientWritten(s: State, g: nat, id: nat, now: nat, env: Env): Out {
    if g in s.pending then
      if s.pending[g].closeAfterWrite != Some(id) then Out(s, true)
      else Out(s.(pending := s.pending - {g}, stopRequested := s.stopRequested || s.pending[g].stopAfterWrite), true)
    else if s.client.Some? && s.client.value.generation == g then
      var s1 := if s.client.value.stopAfterWrite == Some(id) then s.(stopRequested := true) else s;
      if s.client.value.disconnectAfterWrite == Some(id) then Disconnect(s1, now, env) else Out(s1, true)
    else Out(s, true)
  }

  function HandleWriterEvent(s: State, source: Source, event: WriterEvent, now: nat, env: Env): Out {
    var g := source.generation;
    if source.FromClient? then
      if event.Completed? then HandleClientWritten(s, g, event.id, now, env)
      else if g in s.pending then Out(s.(pending := s.pending - {g}), true)
      else if s.client.Some? && s.client.value.generation == g then Disconnect(s, now, env)
      else Out(s, true)
    else if event.Completed? then Out(HandleLifecycleWrite(s, g, event.id, event.at), true)
    else if s.upstream.Some? && s.upstream.value.generation == g then Out(UpstreamFailed(s), true)
    else Out(s, true)
  }

  function ExpireStalled(s: State, stalled: set<Source>, now: nat, env: Env): Out {
    var s1 := s.(pending := map g | g in s.pending && FromClient(g) !in stalled :: s.pending[g]);
    var s2 :- if s1.client.Some? && FromClient(s1.client.value.generation) in stalled
              then Disconnect(s1, now, env) else Out(s1, true);
    if s2.upstream.Some? && FromServer(s2.upstream.value.generation) in stalled
    then Out(UpstreamFailed(s2), true) else Out(s2, true)
  }

  // ----- the event loop

  function HandleServerEvent(s: State, event: ReaderEvent, now: nat, env: Env): Out {
    match event
    case Received(m) =>
      if IsShutdownReply(m) then Out(HandleShutdownReply(s, now, env), true) else HandleUpstreamMessage(s, m, env)
    case EndOfStream => Out(UpstreamFailed(s), true)
    case ReadError => Out(UpstreamFailed(s), false)
  }

  function HandleClientEvent(s: State, event: ReaderEvent, now: nat, env: Env): Out {
    match event
    case Received(m) => HandleClientMessage(s, m, now, env)
    case EndOfStream => Disconnect(s, now, env)
    case ReadError => Out(Disconnect(s, now, env).s, false)
  }

  function Dispatch(s0: State, event: Event, now: nat, env: Env): Out {
    var s := ExpirePending(s0, now);
    match event
    case Accepted(at) => AcceptPending(s, at, now, env)
    case AcceptError => Out(s, false)
    case Reader(source, read) =>
      if source.FromClient? then
        if source.generation in s.pending then HandlePendingMessage(s, source.generation, read, now, env)
        else if s.client.Some? && s.client.value.generation == source.generation
        then HandleClientEvent(s, read, now, env)
        else Out(s, true)
      else if s.upstream.Some? && s.upstream.value.generation == source.generation
      then HandleServerEvent(s, read, now, env)
      else Out(s, true)
    case Writer(source, written) => HandleWriterEvent(s, source, written, now, env)
    case Process(g, e) => HandleProcessEvent(s, g, e, now, env)
  }

  predicate IdleStopDue(s: State, now: nat, env: Env) {
    s.client == None && now >= s.idleSince + env.idleTimeout && !s.lifecycle.IsStopping()
  }

  /** What `serve` does before it waits for an event. */
  function Prologue(s: State, now: nat, stalled: set<Source>, env: Env): Out {
    var s1 :- ExpireStalled(ExpirePending(s, now), stalled, now, env);
    var s2 := AdvanceDeadline(s1, now);
    if (s2.stopRequested && !s2.lifecycle.IsStopping()) || IdleStopDue(s2, now, env)
    then BeginStop(s2, now, env) else Out(s2, true)
  }

  /** One turn of `serve`: the clock when it begins, the outputs that stalled, and the event
      received, if any, with the clock when it is handled. */
  datatype Turn = Turn(now: nat, stalled: set<Source>, event: Option<Event>, later: nat)

  function ServeTurn(s: State, turn: Turn, env: Env): Out {
    var s1 :- Prologue(s, turn.now, turn.stalled, env);
    if s1.lifecycle.Stopped? || turn.event == None then Out(s1, true)
    else if IdleStopDue(s1, turn.later, env) then BeginStop(s1, turn.later, env)
    else Dispatch(s1, turn.event.value, turn.later, env)
  }

  // ----- runs

  /** A report of a process worker and the clock when it is handled. */
  datatype Report = Report(generation: nat, event: ProcessEvent, now: nat)

  function NewDaemon(now: nat): State {
    State(None, None, Absent, None, None, map[], {}, now, false, false, 0, 0, Past([], [], false, 0, 0))
  }

  /** `wait_for_initial_upstream`: only the process worker runs before connections are accepted. */
  function AwaitInitial(s: State, reports: seq<Report>, env: Env): Out
    decreases |reports|
  {
    if s.lifecycle.Running? || reports == [] then Out(s, true)
    else
      var s1 :- Dispatch(s, Process(reports[0].generation, reports[0].event), reports[0].now, env);
      AwaitInitial(s1, reports[1..], env)
  }

  function Boot(now: nat, reports: seq<Report>, env: Env): Out {
    var s1 :- StartUpstream(NewDaemon(now), true, env);
    var s2 :- AwaitInitial(s1, reports, env);
    Out(s2.(accepting := true), true)
  }

  /** `serve`, turn by turn, until it stops or fails. */
  function Serve(s: State, turns: seq<Turn>, env: Env): Out
    decreases |turns|
  {
    if turns == [] || s.lifecycle.Stopped? then Out(s, true)
    else
      var s1 :- ServeTurn(s, turns[0], env);
      Serve(s1, turns[1..], env)
  }

  /** A run of the daemon from its start. */
  function Run(now: nat, reports: seq<Report>, turns: seq<Turn>, env: Env): Out {
    var s1 :- Boot(now, reports, env);
    if s1.lifecycle.Running? then Serve(s1, turns, env) else Out(s1, true)
  }
}
