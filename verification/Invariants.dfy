/** What every reachable state of the coordinator satisfies. */
module Invariants {
  import opened Json
  import opened Protocol
  import opened Streams
  import opened Coordinator

  // ----- the lifecycle

  function Generation(up: Option<Upstream>): Option<nat> {
    if up.Some? then Some(up.value.generation) else None
  }

  /** Lifecycle, process and server agree: a starting daemon has a process and no server, a
      running or leaving one has both at one generation, a killed one may have lost the server,
      and an absent or stopped one has neither. */
  predicate Agreement(lc: Lifecycle, process: Option<nat>, server: Option<nat>) {
    if lc.Starting? then process == Some(lc.generation) && server == None
    else if lc.Running? then process.Some? && server == process
    else if lc.Awaiting() then process == Some(lc.generation) && server == process && lc.after != NoServer
    else if lc.Killing? then
      process == Some(lc.generation) && (server == process || (server == None && lc.after == Stop))
    else process == None && server == None
  }

  const SHUTDOWN_STAGES: seq<ShutdownStage> := [ForReply, ForExitWrite, ForExit]

  /** The deadlines armed for a server follow the stages of one shutdown, each at most once and
      in order; the last of them is the stage the lifecycle is in. */
  predicate Stage(lc: Lifecycle, stages: seq<ShutdownStage>) {
    && stages <= SHUTDOWN_STAGES
    && (lc.Running? ==> stages == [])
    && (lc.AwaitingShutdownReply? ==> |stages| == 1)
    && (lc.AwaitingExitWrite? ==> |stages| == 2)
    && (lc.AwaitingExit? ==> |stages| == 3)
  }

  predicate Shape(lc: Lifecycle, process: Option<nat>, up: Option<Upstream>, generation: nat, past: Past) {
    && Agreement(lc, process, Generation(up))
    && (up.Some? ==> Stage(lc, up.value.log.stages) && past.announced)
    && (lc.Starting? ==> !past.announced)
    && (process.Some? ==> process.value <= generation)
    && past.lateStarts == 0
  }

  // ----- connections

  predicate Untouched(c: Client) {
    c.phase == WaitingForInitialize && !c.wantsBackground && c.forwarded == {} && c.serverRequests == map[]
      && c.openDocuments == {}
    && c.log.asked == multiset{} && c.log.sent == []
  }

  /** Connections that are not admitted hold no session state and are bounded in number. */
  predicate Connections(pending: map<nat, Pending>, client: Option<nat>, generation: nat) {
    && |pending| <= MAX_PENDING_CONNECTIONS
    && (forall g | g in pending :: g <= generation && pending[g].client.generation == g && Untouched(pending[g].client))
    && (client.Some? ==> client.value <= generation && client.value !in pending)
  }

  function ClientGeneration(c: Option<Client>): Option<nat> {
    if c.Some? then Some(c.value.generation) else None
  }

  // ----- one server

  /** What the daemon remembers of a server's initialize is what was written to it, and the
      cached result is the server's answer to it. */
  predicate ServerOk(up: Upstream) {
    var init := FirstInit(up.log.sent);
    && InitOrder(up.log.sent)
    && (up.fingerprint.Some? ==> init.Some? && Fingerprint(init.value.1) == up.fingerprint.value)
    && (up.fingerprint == None && !up.restartRequired ==> init == None)
    && (up.result.Some? ==> up.fingerprint.Some?)
    && (up.result.Some? && !up.log.stray ==> (IdKey(init.value.0), up.result) in up.log.replies)
  }

  // ----- one client

  /** Past the initialize handshake, at least from the daemon's side. */
  predicate Live(phase: Phase) { phase != WaitingForInitialize && phase != WaitingForUpstream }

  /** Responses are routed only for requests that were forwarded, at most once each; as long as
      no id is reused while it is unanswered, none is lost. */
  predicate Routing(log: ClientLog, forwarded: set<string>) {
    && Delivered(log.sent) + multiset(forwarded) <= log.asked
    && (!log.reasked ==> Delivered(log.sent) + multiset(forwarded) == log.asked)
  }

  predicate ClientOk(c: Client) {
    && Routing(c.log, c.forwarded)
    && (!Live(c.phase) ==> c.openDocuments == {} && c.forwarded == {})
    && forall k | k in c.serverRequests :: IdKey(c.serverRequests[k]) == k
  }

  // ----- client and server together

  predicate Restarting(lc: Lifecycle) { lc.Leaving() && lc.after == Restart }

  predicate HasLive(c: Option<Client>) { c.Some? && Live(c.value.phase) }

  /** A client that waits for a server has its initialize kept for that server; a live client
      talks to an initialized server, or the next server will be initialized first. */
  predicate LivePhase(lc: Lifecycle, kept: bool, up: Option<Upstream>, c: Option<Client>) {
    && (c.Some? && c.value.phase == WaitingForUpstream ==> kept)
    && (HasLive(c) ==>
          || (up.Some? && InitSent(up.value.log.sent))
          || (lc.Starting? && kept)
          || (lc.Absent? && c.value.phase == WaitingForExit)
          || lc.Stopped?)
  }

  /** While the answer to a forwarded initialize is awaited, nothing else was forwarded. */
  predicate InitializingPhase(lc: Lifecycle, up: Option<Upstream>, c: Option<Client>) {
    c.Some? && c.value.phase == WaitingForInitialized(true) && !lc.Stopped? ==>
      && up.Some? && up.value.fingerprint.Some?
      && !InitializedSent(up.value.log.sent) && !ForwardedAny(up.value.log.sent)
      && !Restarting(lc)
  }

  /** A server that is to be restarted cannot be initialized again, and a live client keeps an
      initialize for the next one. */
  predicate RestartPhase(lc: Lifecycle, kept: bool, up: Option<Upstream>, c: Option<Client>) {
    Restarting(lc) && up.Some? ==>
      && (up.value.restartRequired || (kept && up.value.fingerprint.Some?))
      && (HasLive(c) ==> kept)
  }

  function ClientDocuments(c: Option<Client>): set<string> {
    if c.Some? then c.value.openDocuments else {}
  }

  /** The documents open at the server are open at the client, and every request of the server
      is answered or pending at the client, exactly once. */
  predicate Settled(lc: Lifecycle, log: ServerLog, documents: set<string>, pending: multiset<string>) {
    !lc.Killing? && !log.writeLost ==>
      && OpenAt(log.sent) <= documents
      && (!log.reused ==> log.received + log.inherited == Answered(log.sent) + pending)
  }

  /** The client's phase and tables fit the server it talks to. */
  predicate Linked(lc: Lifecycle, kept: bool, up: Option<Upstream>, c: Option<Client>) {
    && LivePhase(lc, kept, up, c)
    && InitializingPhase(lc, up, c)
    && RestartPhase(lc, kept, up, c)
    && (up.Some? ==> Settled(lc, up.value.log, ClientDocuments(c), PendingKeys(c)))
  }

  // ----- all of it

  /** What was written to any server and routed to any client, now or before. */
  predicate Recorded(up: Option<Upstream>, past: Past) {
    && (up.Some? ==> InitOrder(up.value.log.sent) && up.value.log.stages <= SHUTDOWN_STAGES)
    && (forall up | up in past.servers :: InitOrder(up.log.sent) && up.log.stages <= SHUTDOWN_STAGES)
    && (forall c | c in past.sessions :: Delivered(c.log.sent) <= c.log.asked)
    && past.lateStarts == 0
  }

  /** An initialize kept for the next server carries its own fingerprint. */
  predicate KeptOk(init: Option<PendingInitialize>) {
    init.Some? ==> init.value.fingerprint == Fingerprint(init.value.normalized)
  }

  predicate Invariant(s: State) {
    && Shape(s.lifecycle, s.process, s.upstream, s.generation, s.past)
    && Connections(s.pending, ClientGeneration(s.client), s.generation)
    && (s.upstream.Some? ==> ServerOk(s.upstream.value))
    && (s.client.Some? ==> ClientOk(s.client.value))
    && Linked(s.lifecycle, s.pendingInitialize.Some?, s.upstream, s.client)
    && Recorded(s.upstream, s.past)
    && KeptOk(s.pendingInitialize)
  }

  /** What holds even when a handler fails and the daemon is torn down. */
  predicate Safe(s: State) { Recorded(s.upstream, s.past) }

  predicate Kept(r: Out) { Safe(r.s) && (r.ok ==> Invariant(r.s)) }

  /** A daemon that was asked to stop is stopping. */
  predicate StopHonoured(s: State) {
    s.stopRequested ==> s.lifecycle.IsStopping()
  }

  // ----- about streams

  /** Streams that end before their initialize hold no traffic of a client. */
  lemma {:induction false} NothingBeforeInit(log: seq<ToServer>)
    requires InitOrder(log) && !InitSent(log)
    ensures !InitializedSent(log) && !ForwardedAny(log) && FirstInit(log) == None
  {
    if log != [] { NothingBeforeInit(log[..|log| - 1]); }
  }

  lemma {:induction false} FirstInitSent(log: seq<ToServer>)
    ensures InitSent(log) <==> FirstInit(log).Some?
  {
    if log != [] { FirstInitSent(log[..|log| - 1]); }
  }

  /** Without forwarded traffic the only request a server was sent is its initialize. */
  lemma {:induction false} OnlyInitialize(log: seq<ToServer>)
    requires InitOrder(log) && !ForwardedAny(log)
    ensures FirstInit(log) == None ==> RequestKeys(log) == {}
    ensures FirstInit(log).Some? ==> RequestKeys(log) == {IdKey(FirstInit(log).value.0)}
  {
    hide IdKey;
    if log != [] {
      OnlyInitialize(log[..|log| - 1]);
      FirstInitSent(log[..|log| - 1]);
    }
  }
}
