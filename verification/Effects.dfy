/** What each event brings, as one table over events and states: the messages of a session, or about it,
    that the coordinator writes to the server and to a client, and how the session changes. */
module Effects {
  import opened Json
  import opened Protocol
  import opened Streams
  import opened Coordinator

  /** How a session changes: its phase, whether it wants to hear of background work, the requests of the
      client and of the server that wait for a response, and the documents it has open. */
  datatype Change =
    | Enters(phase: Phase)
    | Wants(background: bool)
    | Awaited(key: string)
    | Resolved(key: string)
    | Pended(key: string, id: Value)
    | Settled(key: string)
    | Opened(uri: string)
    | Closed(uri: string)

  datatype Session = Session(phase: Phase, wantsBackground: bool, forwarded: set<string>,
                             serverRequests: map<string, Value>, openDocuments: set<string>)

  function SessionOf(c: Client): Session {
    Session(c.phase, c.wantsBackground, c.forwarded, c.serverRequests, c.openDocuments)
  }

  const NEW_SESSION: Session := Session(WaitingForInitialize, false, {}, map[], {})

  function Changed1(x: Session, change: Change): Session {
    match change
    case Enters(phase) => x.(phase := phase)
    case Wants(background) => x.(wantsBackground := background)
    case Awaited(key) => x.(forwarded := x.forwarded + {key})
    case Resolved(key) => x.(forwarded := x.forwarded - {key})
    case Pended(key, id) => x.(serverRequests := x.serverRequests[key := id])
    case Settled(key) => x.(serverRequests := x.serverRequests - {key})
    case Opened(uri) => x.(openDocuments := x.openDocuments + {uri})
    case Closed(uri) => x.(openDocuments := x.openDocuments - {uri})
  }

  function Changed(x: Session, changes: seq<Change>): Session {
    if changes == [] then x else Changed1(Changed(x, changes[..|changes| - 1]), changes[|changes| - 1])
  }

  /** What is written, whether the server is no longer like a fresh one, and how the active session
      changes. */
  datatype Effect = Effect(toServer: seq<ToServer>, toClient: seq<ToClient>, taint: bool, changes: seq<Change>)

  const NONE: Effect := Effect([], [], false, [])

  function If<T>(condition: bool, x: T): seq<T> { if condition then [x] else [] }

  // ----- a message of the active client

  /** A well-formed initialize request for this workspace. */
  predicate Initializes(m: Message, env: Env) {
    m.name == Initialize && m.id.Some? && m.params.Some? && NormalizeInitialize(m.params.value, env.target).Ok?
  }

  function Normal(m: Message, env: Env): Value
    requires Initializes(m, env)
  {
    NormalizeInitialize(m.params.value, env.target).value
  }

  predicate Tainted(up: Option<Upstream>) { up.Some? && up.value.restartRequired }

  /** A server that no session has asked anything yet. */
  predicate Fresh(up: Option<Upstream>) { up.Some? && !up.value.restartRequired && up.value.fingerprint == None }

  /** A server that has answered an initialize with these parameters. */
  predicate Knows(up: Option<Upstream>, normal: Value) {
    && up.Some? && !up.value.restartRequired && up.value.result.Some?
    && up.value.fingerprint == Some(Fingerprint(normal))
  }

  /** What the server reads of it. */
  function Passed(s: State, m: Message, env: Env): seq<ToServer>
    requires s.client.Some?
  {
    var c := s.client.value;
    if m.name == Missing && m.id.Some? then If(IdKey(m.id.value) in c.serverRequests, Answer(m))
    else
      match c.phase
      case WaitingForInitialize =>
        if Initializes(m, env) && Fresh(s.upstream) then [InitializeRequest(m.id.value, Normal(m, env))] else []
      case WaitingForInitialized(true) => If(m.name == Initialized, InitializedNotice(m))
      case Ready => If(m.name !in {ShutdownMethod, ExitMethod, StopMethod}, Forwarded(m))
      case _ => []
  }

  /** What the daemon itself answers: a stop and a shutdown are granted, an initialize may be answered
      from the cache, and other requests are refused until the session is ready. */
  function Replies(s: State, m: Message, env: Env): seq<ToClient>
    requires s.client.Some?
  {
    var c := s.client.value;
    if m.name == Missing && m.id.Some? then []
    else
      match c.phase
      case WaitingForInitialize =>
        if m.name == Initialize && m.id.Some? then
          if Initializes(m, env) && Knows(s.upstream, Normal(m, env))
          then [CachedInitialize(m.id.value, s.upstream.value.result.value)] else []
        else if m.name == StopMethod && m.id.Some? then [Success(m.id.value)]
        else Refused(m)
      case WaitingForUpstream =>
        if m.name == StopMethod && m.id.Some? then [Success(m.id.value)] else Refused(m)
      case WaitingForInitialized(forward) =>
        if m.name == Initialized then
          If(!forward && c.wantsBackground && s.upstream.Some? && env.quiescent(s.attempts), BackgroundReady)
        else if m.id.Some? then [Failure(m.id.value)] else []
      case Ready =>
        if (m.name == ShutdownMethod || m.name == StopMethod) && m.id.Some? then [Success(m.id.value)] else []
      case WaitingForExit => []
  }

  function Refused(m: Message): seq<ToClient> {
    if m.name != ExitMethod && m.id.Some? then [Failure(m.id.value)] else []
  }

  /** How it changes the session. What is recorded of a message that is passed on is recorded before it is
      written; a phase that a write leads to is entered only if the write is accepted. */
  function Moves(s: State, m: Message, env: Env): seq<Change>
    requires s.client.Some?
  {
    var c, accepted := s.client.value, env.write(s.attempts);
    if m.name == Missing && m.id.Some? then If(IdKey(m.id.value) in c.serverRequests, Settled(IdKey(m.id.value)))
    else
      match c.phase
      case WaitingForInitialize =>
        if !Initializes(m, env) then []
        else
          var normal := Normal(m, env);
          var wants := WantsBackgroundWork(normal);
          if Fresh(s.upstream) then
            if accepted then [Wants(wants), Enters(WaitingForInitialized(true)), Awaited(IdKey(m.id.value))] else []
          else if Knows(s.upstream, normal) then
            if accepted then [Wants(wants), Enters(WaitingForInitialized(false))] else []
          else If(!Asked(s.upstream, normal), Enters(WaitingForUpstream))
      case WaitingForInitialized(forward) =>
        If(m.name == Initialized && (!forward || (s.upstream.Some? && accepted)), Enters(Ready))
      case Ready =>
        if m.name == ShutdownMethod then If(m.id.Some?, Enters(WaitingForExit))
        else if m.name == ExitMethod || m.name == StopMethod then []
        else Tracked(m) + if m.name != Missing && m.id.Some? then [Awaited(IdKey(m.id.value))] else []
      case _ => []
  }

  /** A server that was asked an initialize with these parameters and has not answered. */
  predicate Asked(up: Option<Upstream>, normal: Value) {
    && up.Some? && !up.value.restartRequired && up.value.result == None
    && up.value.fingerprint == Some(Fingerprint(normal))
  }

  /** Documents are opened and closed by notifications that name one. */
  function Tracked(m: Message): seq<Change> {
    if m.uri == None then []
    else if m.name == DidOpen then [Opened(m.uri.value)]
    else if m.name == DidClose then [Closed(m.uri.value)]
    else []
  }

  /** All of it, what is written as far as the write is accepted. */
  function Said(s: State, m: Message, env: Env): Effect
    requires s.client.Some?
  {
    var accepted := env.write(s.attempts);
    Effect(if accepted && s.upstream.Some? then Passed(s, m, env) else [],
           if accepted then Replies(s, m, env) else [], false, Moves(s, m, env))
  }

  // ----- a message of the server

  /** A response is routed to the client that waits for it; requests and notifications are relayed to the
      active client, and without one the daemon answers the requests. A registration and a failed
      initialize make the server unlike a fresh one. */
  function Told(s: State, m: Message, env: Env): Effect
    requires s.upstream.Some?
  {
    var accepted := env.write(s.attempts);
    if !m.decodable || IsShutdownReply(m) then NONE
    else if m.name == Missing && m.id.Some? then
      var key := IdKey(m.id.value);
      if !Awaits(s, key) then NONE
      else
        var failed := s.client.value.phase == WaitingForInitialized(true) && m.error;
        Effect([], If(accepted, Routed(key)), failed, [Resolved(key)] + If(failed, Enters(WaitingForExit)))
    else if m.name != Missing && m.id.Some? then
      if m.name == NotAString then NONE
      else
        Effect(If(s.client == None && accepted, LocalAnswer(m.id.value)), If(s.client.Some? && accepted, Relayed(m)),
               m.name == Registration, If(s.client.Some?, Pended(IdKey(m.id.value), m.id.value)))
    else Effect([], If(s.client.Some? && accepted, Relayed(m)), false, [])
  }

  /** The active client waits for the response with this key, and no departed one does. */
  predicate Awaits(s: State, key: string) {
    key !in s.orphaned && s.client.Some? && key in s.client.value.forwarded
  }

  // ----- all events

  /** The first message of a waiting connection: an initialize for this workspace makes it the active
      client, if there is none. */
  predicate Admits(s: State, g: nat, read: ReaderEvent, env: Env) {
    && g in s.pending && s.client == None && read.Received?
    && var m := read.m;
       m.name == Initialize && m.id.Some?
       && NormalizeInitialize(if m.params.Some? then m.params.value else Null, env.target).Ok?
  }

  function Admitted(s: State, g: nat): State
    requires g in s.pending
  {
    s.(pending := s.pending - {g}).(client := Some(s.pending[g].client))
  }

  /** A report of the process worker: a client that waits for the server has its initialize sent to it,
      or is told that there is none. */
  function Reported(s: State, g: nat, event: ProcessEvent, env: Env): Effect {
    var starting := s.process == Some(g) && s.lifecycle.Starting? && s.lifecycle.generation == g;
    var waiting := s.pendingInitialize.Some? && s.client.Some? && env.write(s.attempts);
    if s.process != Some(g) || !waiting then NONE
    else
      var init := s.pendingInitialize.value;
      if event.Started? && starting && env.attach(g) then
        Effect([InitializeRequest(init.id, init.normalized)], [], false,
               [Wants(init.wantsBackground), Enters(WaitingForInitialized(true)), Awaited(IdKey(init.id))])
      else if event.StartFailed? && !(starting && s.lifecycle.initial) then
        Effect([], [Failure(init.id)], false, [Enters(WaitingForExit)])
      else NONE
  }

  /** What an event brings in a state in which all waiting connections are in time. */
  function EffectOf(s: State, event: Event, env: Env): Effect {
    match event
    case Reader(FromClient(g), read) =>
      if g in s.pending then
        if Admits(s, g, read, env) then Said(Admitted(s, g), read.m, env) else NONE
      else if s.client.Some? && s.client.value.generation == g && read.Received? then Said(s, read.m, env)
      else NONE
    case Reader(FromServer(g), read) =>
      if s.upstream.Some? && s.upstream.value.generation == g && read.Received? then Told(s, read.m, env) else NONE
    case Process(g, report) => Reported(s, g, report, env)
    case _ => NONE
  }
}
