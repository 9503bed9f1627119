/** The coordinator object of the daemon: fields updated in place by the handlers of its event
    loop. Each method is proved to do what the transition function of its name says. */
module Daemon {
  import opened Json
  import opened Order
  import opened Protocol
  import opened Streams
  import opened Coordinator
  import opened Invariants
  import LoopProofs

  class Daemon {
    const env: Env
    var upstream: Option<Upstream>
    var process: Option<nat>
    var lifecycle: Lifecycle
    var pendingInitialize: Option<PendingInitialize>
    var client: Option<Client>
    var pending: map<nat, Pending>
    var orphaned: set<string>
    var idleSince: nat
    var stopRequested: bool
    var accepting: bool
    var generation: nat
    var attempts: nat  // numbers the writes offered to output workers
    ghost var past: Past

    ghost function St(): State
      reads this
    {
      State(upstream, process, lifecycle, pendingInitialize, client, pending, orphaned, idleSince,
            stopRequested, accepting, generation, attempts, past)
    }

    /** A daemon that has not started its server yet. */
    constructor (env: Env, now: nat)
      ensures this.env == env && St() == NewDaemon(now)
    {
      this.env := env;
      upstream, process, lifecycle, pendingInitialize, client := None, None, Absent, None, None;
      pending, orphaned, idleSince := map[], {}, now;
      stopRequested, accepting, generation, attempts := false, false, 0, 0;
      past := Past([], [], false, 0, 0);
    }

    // ----- writing

    method WriteUpstream(e: ToServer) returns (ok: bool)
      modifies this`upstream, this`attempts
      ensures Out(St(), ok) == Coordinator.WriteUpstream(old(St()), e, env)
    {
      if upstream == None { return false; }
      ok := env.write(attempts);
      attempts := attempts + 1;
      upstream := Some(Send(upstream.value, e, ok));
    }

    method EnqueueClient(e: ToClient) returns (ok: bool)
      modifies this`client, this`attempts
      ensures Out(St(), ok) == Coordinator.EnqueueClient(old(St()), e, env)
    {
      if client == None { return true; }
      ok := env.write(attempts);
      attempts := attempts + 1;
      client := Some(Reply(client.value, e, ok));
    }

    method SetPhase(phase: Phase)
      modifies this`client
      ensures St() == Coordinator.SetPhase(old(St()), phase)
    {
      if client.Some? { client := Some(client.value.(phase := phase)); }
    }

    method DropClient()
      modifies this`client, this`past
      ensures St() == Coordinator.DropClient(old(St()))
    {
      if client.Some? {
        past := past.(sessions := past.sessions + [client.value]);
        client := None;
      }
    }

    method DropUpstream()
      modifies this`upstream, this`past
      ensures St() == Coordinator.DropUpstream(old(St()))
    {
      if upstream.Some? {
        past := past.(servers := past.servers + [upstream.value]);
        upstream := None;
      }
    }

    // ----- lifecycle

    method StartUpstream(initial: bool) returns (ok: bool)
      modifies this
      ensures Out(St(), ok) == Coordinator.StartUpstream(old(St()), initial, env)
    {
      generation := generation + 1;
      if !env.spawn(generation) { return false; }
      process := Some(generation);
      lifecycle := Starting(generation, initial);
      past := past.(announced := false, starts := past.starts + 1,
                    lateStarts := past.lateStarts + if stopRequested then 1 else 0);
      return true;
    }

    method ForceStop(generation: nat, after: AfterExit)
      modifies this`lifecycle
      ensures St() == Coordinator.ForceStop(old(St()), generation, after)
    {
      lifecycle := Killing(generation, after);
    }

    method Arm(stage: ShutdownStage)
      modifies this`upstream
      ensures St() == Coordinator.Arm(old(St()), stage)
    {
      if upstream.Some? {
        var up := upstream.value;
        upstream := Some(up.(log := up.log.(stages := up.log.stages + [stage])));
      }
    }

    method BeginShutdown(after: AfterExit, now: nat) returns (ok: bool)
      modifies this
      ensures Out(St(), ok) == Coordinator.BeginShutdown(old(St()), after, now, env)
    {
      if upstream == None {
        lifecycle := if after == Stop then Stopped else Absent;
        if after == Restart { ok := StartUpstream(false); return; }
        return true;
      }
      var g := upstream.value.generation;
      if upstream.value.fingerprint == None {
        ForceStop(g, after);
        return true;
      }
      var sent := WriteUpstream(ShutdownRequest);
      if !sent {
        ForceStop(g, after);
        return true;
      }
      Arm(ForReply);
      lifecycle := AwaitingShutdownReply(g, now + UPSTREAM_SHUTDOWN_TIMEOUT, after);
      return true;
    }

    method BeginRestart(now: nat) returns (ok: bool)
      modifies this
      ensures Out(St(), ok) == Coordinator.BeginRestart(old(St()), now, env)
    {
      hide Coordinator.BeginShutdown, Coordinator.StartUpstream;
      ok := true;
      match lifecycle {
        case Running => ok := BeginShutdown(Restart, now);
        case Absent => ok := StartUpstream(false);
        case _ =>
      }
    }

    method HandleShutdownReply(now: nat)
      modifies this
      ensures St() == Coordinator.HandleShutdownReply(old(St()), now, env)
    {
      if !lifecycle.AwaitingShutdownReply? { return; }
      var lc := lifecycle;
      if upstream == None {
        ForceStop(lc.generation, lc.after);
        return;
      }
      var sent := WriteUpstream(ExitNotice);
      if sent {
        var writeId := upstream.value.nextWriteId;
        Arm(ForExitWrite);
        lifecycle := AwaitingExitWrite(lc.generation, writeId, now + UPSTREAM_SHUTDOWN_TIMEOUT, lc.after);
      } else {
        ForceStop(lc.generation, lc.after);
      }
    }

    method HandleLifecycleWrite(generation: nat, id: nat, at: nat)
      modifies this
      ensures St() == Coordinator.HandleLifecycleWrite(old(St()), generation, id, at)
    {
      var lc := lifecycle;
      if lc.AwaitingExitWrite? && lc.generation == generation && lc.writeId == id {
        Arm(ForExit);
        lifecycle := AwaitingExit(generation, at + UPSTREAM_SHUTDOWN_TIMEOUT, lc.after);
      }
    }

    method AdvanceDeadline(now: nat)
      modifies this`lifecycle
      ensures St() == Coordinator.AdvanceDeadline(old(St()), now)
    {
      if lifecycle.Awaiting() && now >= lifecycle.deadline {
        ForceStop(lifecycle.generation, lifecycle.after);
      }
    }

    method UpstreamFailed()
      modifies this
      ensures St() == Coordinator.UpstreamFailed(old(St()))
    {
      if upstream == None { return; }
      var after := if lifecycle.Leaving() then lifecycle.after else NoServer;
      if after == NoServer {
        DropClient();
        pendingInitialize := None;
      }
      ForceStop(upstream.value.generation, after);
    }

    method HandleProcessExit(generation: nat, now: nat) returns (ok: bool)
      modifies this
      ensures Out(St(), ok) == Coordinator.HandleProcessExit(old(St()), generation, now, env)
    {
      hide Coordinator.StartUpstream, Coordinator.DropUpstream, Coordinator.DropClient;
      var lc := lifecycle;
      if !(lc.Running? || (lc.Leaving() && lc.generation == generation)) { return true; }
      var after := if lc.Running? then NoServer else lc.after;
      DropUpstream();
      process := None;
      orphaned := {};
      ok := true;
      match after {
        case Restart => ok := StartUpstream(false);
        case Stop => lifecycle := Stopped;
        case NoServer => LoseServer(now);
      }
    }

    /** The server is gone and nobody asked for another one. */
    method LoseServer(now: nat)
      modifies this
      ensures St() == Coordinator.DropClient(old(St())).(pendingInitialize := None, lifecycle := Absent,
                                                         idleSince := now)
    {
      hide Coordinator.DropClient;
      DropClient();
      pendingInitialize := None;
      lifecycle := Absent;
      idleSince := now;
    }

    method HandleProcessEvent(generation: nat, event: ProcessEvent, now: nat) returns (ok: bool)
      modifies this
      ensures Out(St(), ok) == Coordinator.HandleProcessEvent(old(St()), generation, event, now, env)
    {
      hide Coordinator.HandleProcessExit, Coordinator.ResumePendingInitialize, Coordinator.FailPendingInitialize;
      if process != Some(generation) { return true; }
      match event {
        case Started =>
          past := past.(announced := true);
          if !(lifecycle.Starting? && lifecycle.generation == generation) { return true; }
          if !env.attach(generation) { return false; }
          upstream := Some(NewUpstream(generation, PendingKeys(client)));
          lifecycle := Running;
          ok := ResumePendingInitialize();
        case StartFailed =>
          var initial := lifecycle.Starting? && lifecycle.generation == generation && lifecycle.initial;
          process := None;
          lifecycle := Absent;
          if initial { return false; }
          ok := FailPendingInitialize();
        case Exited => ok := HandleProcessExit(generation, now);
      }
    }

    // ----- initialize

    method ForwardInitialize(init: PendingInitialize) returns (ok: bool)
      modifies this
      ensures Out(St(), ok) == Coordinator.ForwardInitialize(old(St()), init, env)
    {
      hide IdKey;
      if upstream == None { return false; }
      upstream := Some(upstream.value.(fingerprint := Some(init.fingerprint)));
      ok := WriteUpstream(InitializeRequest(init.id, init.normalized));
      if ok && client.Some? {
        client := Some(RecordRequest(
          client.value.(wantsBackground := init.wantsBackground, phase := WaitingForInitialized(true)),
          IdKey(init.id)));
      }
    }

    method ResumePendingInitialize() returns (ok: bool)
      modifies this
      ensures Out(St(), ok) == Coordinator.ResumePendingInitialize(old(St()), env)
    {
      hide Coordinator.ForwardInitialize;
      if pendingInitialize == None { return true; }
      var init := pendingInitialize.value;
      pendingInitialize := None;
      if client == None { return true; }
      ok := ForwardInitialize(init);
    }

    method FailPendingInitialize() returns (ok: bool)
      modifies this
      ensures Out(St(), ok) == Coordinator.FailPendingInitialize(old(St()), env)
    {
      if pendingInitialize == None { return true; }
      var init := pendingInitialize.value;
      pendingInitialize := None;
      ok := EnqueueClient(Failure(init.id));
      if ok && client.Some? {
        client := Some(client.value.(phase := WaitingForExit, disconnectAfterWrite := Some(client.value.nextWriteId)));
      }
    }

    method HandleInitialize(m: Message, now: nat) returns (ok: bool)
      modifies this
      ensures Out(St(), ok) == Coordinator.HandleInitialize(old(St()), m, now, env)
    {
      hide NormalizeInitialize, Coordinator.ServeInitialize, Fingerprint, WantsBackgroundWork;
      if m.RequestId() == None { return true; }
      if m.params == None { return false; }
      var normalized := NormalizeInitialize(m.params.value, env.target);
      if normalized.Err? { return false; }
      ok := ServeInitialize(PendingInitialize(
        m.id.value, normalized.value, Fingerprint(normalized.value), WantsBackgroundWork(normalized.value)), now);
    }

    method ServeInitialize(init: PendingInitialize, now: nat) returns (ok: bool)
      modifies this
      ensures Out(St(), ok) == Coordinator.ServeInitialize(old(St()), init, now, env)
    {
      hide Coordinator.ForwardInitialize, Coordinator.BeginRestart;
      if ShouldRestart(upstream, init.fingerprint) {
        pendingInitialize := Some(init);
        SetPhase(WaitingForUpstream);
        ok := BeginRestart(now);
        return;
      }
      if upstream.value.fingerprint.Some? {
        if upstream.value.result == None { return false; }
        ok := EnqueueClient(CachedInitialize(init.id, upstream.value.result.value));
        if ok && client.Some? {
          client := Some(client.value.(wantsBackground := init.wantsBackground, phase := WaitingForInitialized(false)));
        }
        return;
      }
      ok := ForwardInitialize(init);
    }

    // ----- clients

    method HandleStop(id: Value) returns (ok: bool)
      modifies this
      ensures Out(St(), ok) == Coordinator.HandleStop(old(St()), id, env)
    {
      ok := EnqueueClient(Success(id));
      if ok && client.Some? {
        client := Some(client.value.(stopAfterWrite := Some(client.value.nextWriteId)));
      }
    }

    method CloseAll(uris: seq<string>) returns (ok: bool)
      modifies this
      ensures Out(St(), ok) == Coordinator.CloseAll(old(St()), uris, env)
    {
      hide Coordinator.WriteUpstream;
      var i := 0;
      while i < |uris|
        invariant 0 <= i <= |uris|
        invariant Coordinator.CloseAll(St(), uris[i..], env) == Coordinator.CloseAll(old(St()), uris, env)
      {
        assert uris[i..][0] == uris[i] && uris[i..][1..] == uris[i + 1..];
        if !env.uriParses(uris[i]) { return false; }
        var _ := WriteUpstream(CloseDocument(uris[i]));
        i := i + 1;
      }
      return true;
    }

    method CancelAll(keys: seq<string>) returns (ok: bool)
      modifies this
      ensures Out(St(), ok) == Coordinator.CancelAll(old(St()), keys, env)
    {
      hide Coordinator.WriteUpstream, RequestIdFromKey, IsNumberOrString;
      var i := 0;
      while i < |keys|
        invariant 0 <= i <= |keys|
        invariant Coordinator.CancelAll(St(), keys[i..], env) == Coordinator.CancelAll(old(St()), keys, env)
      {
        assert keys[i..][0] == keys[i] && keys[i..][1..] == keys[i + 1..];
        var id := RequestIdFromKey(keys[i]);
        if !IsNumberOrString(id) { return false; }
        var _ := WriteUpstream(CancelRequest(id));
        orphaned := orphaned + {keys[i]};
        i := i + 1;
      }
      return true;
    }

    method AnswerAll(requests: map<string, Value>, keys: seq<string>)
      requires forall k | k in keys :: k in requests
      modifies this
      ensures St() == Coordinator.AnswerAll(old(St()), requests, keys, env)
    {
      hide Coordinator.WriteUpstream;
      var i := 0;
      while i < |keys|
        invariant 0 <= i <= |keys|
        invariant Coordinator.AnswerAll(St(), requests, keys[i..], env)
                  == Coordinator.AnswerAll(old(St()), requests, keys, env)
      {
        assert keys[i..][0] == keys[i] && keys[i..][1..] == keys[i + 1..];
        var _ := WriteUpstream(CancelledAnswer(requests[keys[i]]));
        i := i + 1;
      }
    }

    method Settle(c: Client) returns (ok: bool)
      modifies this
      ensures Out(St(), ok) == Coordinator.Settle(old(St()), c, env)
    {
      hide Coordinator.CloseAll, Coordinator.CancelAll, Coordinator.AnswerAll;
      ok := CloseAll(SortedKeys(c.openDocuments));
      if !ok { return; }
      ok := CancelAll(SortedKeys(c.forwarded));
      if !ok { return; }
      AnswerAll(c.serverRequests, SortedKeys(c.serverRequests.Keys));
    }

    method Disconnect(now: nat) returns (ok: bool)
      modifies this
      ensures Out(St(), ok) == Coordinator.Disconnect(old(St()), now, env)
    {
      hide Coordinator.Settle, Coordinator.BeginRestart;
      if client == None { return true; }
      var c := client.value;
      DropClient();
      ok := Settle(c);
      if !ok { return; }
      if !stopRequested && upstream.Some? && upstream.value.restartRequired {
        ok := BeginRestart(now);
        if !ok { return; }
      }
      idleSince := now;
    }

    method BeginStop(now: nat) returns (ok: bool)
      modifies this
      ensures Out(St(), ok) == Coordinator.BeginStop(old(St()), now, env)
    {
      hide Coordinator.Disconnect, Coordinator.StopStage;
      stopRequested := true;
      accepting := false;
      pending := map[];
      ok := Disconnect(now);
      if !ok { return; }
      ok := StopStage(now);
    }

    method StopStage(now: nat) returns (ok: bool)
      modifies this
      ensures Out(St(), ok) == Coordinator.StopStage(old(St()), now, env)
    {
      hide Coordinator.BeginShutdown;
      ok := true;
      match lifecycle {
        case Running => ok := BeginShutdown(Stop, now);
        case Starting(g, _) => ForceStop(g, Stop);
        case Absent => lifecycle := Stopped;
        case Stopped =>
        case AwaitingShutdownReply(g, d, _) => lifecycle := AwaitingShutdownReply(g, d, Stop);
        case AwaitingExitWrite(g, w, d, _) => lifecycle := AwaitingExitWrite(g, w, d, Stop);
        case AwaitingExit(g, d, _) => lifecycle := AwaitingExit(g, d, Stop);
        case Killing(g, _) => lifecycle := Killing(g, Stop);
      }
    }

    method TrackDocument(m: Message)
      modifies this`client
      ensures St() == Coordinator.TrackDocument(old(St()), m)
    {
      if client == None || m.uri == None { return; }
      var c := client.value;
      if m.name == DidOpen {
        client := Some(c.(openDocuments := c.openDocuments + {m.uri.value}));
      } else if m.name == DidClose {
        client := Some(c.(openDocuments := c.openDocuments - {m.uri.value}));
      }
    }

    method HandleClientResponse(m: Message, key: string) returns (ok: bool)
      modifies this
      ensures Out(St(), ok) == Coordinator.HandleClientResponse(old(St()), m, key, env)
    {
      if client == None || key !in client.value.serverRequests { return true; }
      var c := client.value;
      client := Some(c.(serverRequests := c.serverRequests - {key}));
      ok := WriteUpstream(Answer(m));
    }

    method HandleBeforeInitialize(m: Message, now: nat) returns (ok: bool)
      modifies this
      ensures Out(St(), ok) == Coordinator.HandleBeforeInitialize(old(St()), m, now, env)
    {
      hide Coordinator.HandleStop, Coordinator.HandleInitialize, Coordinator.Disconnect, Coordinator.EnqueueClient;
      ok := true;
      if m.StopId().Some? {
        ok := HandleStop(m.StopId().value);
      } else if m.name == Initialize && m.RequestId().Some? {
        ok := HandleInitialize(m, now);
      } else if m.name == ExitMethod {
        ok := Disconnect(now);
      } else if m.RequestId().Some? {
        ok := EnqueueClient(Failure(m.RequestId().value));
      }
    }

    method HandleWaitingForUpstream(m: Message, now: nat) returns (ok: bool)
      modifies this
      ensures Out(St(), ok) == Coordinator.HandleWaitingForUpstream(old(St()), m, now, env)
    {
      hide Coordinator.HandleStop, Coordinator.Disconnect, Coordinator.EnqueueClient;
      ok := true;
      if m.StopId().Some? {
        ok := HandleStop(m.StopId().value);
      } else if m.name == ExitMethod {
        ok := Disconnect(now);
      } else if m.RequestId().Some? {
        ok := EnqueueClient(Failure(m.RequestId().value));
      }
    }

    method HandleBeforeInitialized(m: Message, forward: bool) returns (ok: bool)
      modifies this
      ensures Out(St(), ok) == Coordinator.HandleBeforeInitialized(old(St()), m, forward, env)
    {
      hide Coordinator.WriteUpstream, Coordinator.EnqueueClient;
      ok := true;
      if m.name == Initialized {
        if forward { ok := WriteUpstream(InitializedNotice(m)); }
        if !ok { return; }
        SetPhase(Ready);
        if !forward { ok := NotifyIfReady(); }
      } else if m.RequestId().Some? {
        ok := EnqueueClient(Failure(m.RequestId().value));
      }
    }

    method NotifyIfReady() returns (ok: bool)
      modifies this
      ensures Out(St(), ok) == Coordinator.NotifyIfReady(old(St()), env)
    {
      ok := true;
      if client.Some? && client.value.wantsBackground && upstream.Some? && env.quiescent(attempts) {
        ok := EnqueueClient(BackgroundReady);
      }
    }

    method HandleReady(m: Message, now: nat) returns (ok: bool)
      modifies this
      ensures Out(St(), ok) == Coordinator.HandleReady(old(St()), m, now, env)
    {
      hide Coordinator.WriteUpstream, Coordinator.EnqueueClient, Coordinator.Disconnect, Coordinator.HandleStop,
           Coordinator.TrackDocument, IdKey;
      if m.name == ShutdownMethod {
        if m.RequestId() == None { return true; }
        SetPhase(WaitingForExit);
        ok := EnqueueClient(Success(m.RequestId().value));
      } else if m.name == ExitMethod {
        ok := Disconnect(now);
      } else if m.name == StopMethod {
        if m.StopId() == None { return false; }
        ok := HandleStop(m.StopId().value);
      } else {
        TrackDocument(m);
        if m.RequestId().Some? {
          if client == None { return true; }
          client := Some(RecordRequest(client.value, IdKey(m.RequestId().value)));
        }
        ok := WriteUpstream(Forwarded(m));
      }
    }

    method HandleClientMessage(m: Message, now: nat) returns (ok: bool)
      modifies this
      ensures Out(St(), ok) == Coordinator.HandleClientMessage(old(St()), m, now, env)
    {
      hide Coordinator.HandleClientResponse, Coordinator.HandleReady, Coordinator.HandleBeforeInitialize,
           Coordinator.HandleWaitingForUpstream, Coordinator.HandleBeforeInitialized, Coordinator.Disconnect, IdKey;
      if m.ResponseId().Some? {
        ok := HandleClientResponse(m, IdKey(m.ResponseId().value));
        return;
      }
      if client == None {
        ok := HandleReady(m, now);
        return;
      }
      ok := true;
      match client.value.phase {
        case WaitingForInitialize => ok := HandleBeforeInitialize(m, now);
        case WaitingForUpstream => ok := HandleWaitingForUpstream(m, now);
        case WaitingForInitialized(forward) => ok := HandleBeforeInitialized(m, forward);
        case WaitingForExit => if m.name == ExitMethod { ok := Disconnect(now); }
        case Ready => ok := HandleReady(m, now);
      }
    }

    // ----- the server

    method HandleServerResponse(m: Message, key: string) returns (ok: bool)
      modifies this
      ensures Out(St(), ok) == Coordinator.HandleServerResponse(old(St()), m, key, env)
    {
      hide Coordinator.EnqueueClient;
      if key in orphaned {
        orphaned := orphaned - {key};
        return true;
      }
      if client == None || key !in client.value.forwarded { return true; }
      var c := client.value;
      var initialize := c.phase == WaitingForInitialized(true);
      client := Some(c.(forwarded := c.forwarded - {key},
                        phase := if initialize && m.error then WaitingForExit else c.phase));
      if initialize { CacheInitialize(m); }
      ok := EnqueueClient(Routed(key));
    }

    method CacheInitialize(m: Message)
      modifies this`upstream
      ensures St() == Coordinator.CacheInitialize(old(St()), m)
    {
      if upstream == None { return; }
      if m.error {
        upstream := Some(upstream.value.(fingerprint := None, result := None, restartRequired := true));
      } else {
        upstream := Some(upstream.value.(result := m.result));
      }
    }

    method HandleServerRequest(m: Message, id: Value, key: string) returns (ok: bool)
      modifies this
      ensures Out(St(), ok) == Coordinator.HandleServerRequest(old(St()), m, id, key, env)
    {
      hide Coordinator.EnqueueClient, Coordinator.WriteUpstream, NoteRequest;
      if m.name == NotAString { return false; }
      if upstream.Some? {
        upstream := Some(NoteRequest(upstream.value, m, key, client.Some? && key in client.value.serverRequests));
      }
      if client.Some? {
        var c := client.value;
        client := Some(c.(serverRequests := c.serverRequests[key := id]));
        ok := EnqueueClient(Relayed(m));
      } else {
        ok := WriteUpstream(LocalAnswer(id));
      }
    }

    /** The log of the server notes a response. */
    method RecordReply(m: Message, key: string)
      modifies this`upstream
      ensures St() == Coordinator.RecordReply(old(St()), m, key)
    {
      hide RequestKeys;
      if upstream.Some? {
        var up := upstream.value;
        upstream := Some(up.(log := up.log.(replies := up.log.replies + {(key, m.result)},
                                            stray := up.log.stray || key !in RequestKeys(up.log.sent))));
      }
    }

    method HandleUpstreamMessage(m: Message) returns (ok: bool)
      modifies this
      ensures Out(St(), ok) == Coordinator.HandleUpstreamMessage(old(St()), m, env)
    {
      hide Coordinator.HandleServerResponse, Coordinator.HandleServerRequest, Coordinator.EnqueueClient,
           Coordinator.RecordReply, IdKey;
      if !m.decodable { return false; }
      if m.ResponseId().Some? {
        RecordReply(m, IdKey(m.ResponseId().value));
        ok := HandleServerResponse(m, IdKey(m.ResponseId().value));
      } else if m.RequestId().Some? {
        ok := HandleServerRequest(m, m.RequestId().value, IdKey(m.RequestId().value));
      } else {
        ok := EnqueueClient(Relayed(m));
      }
    }

    // ----- connections

    method ExpirePending(now: nat)
      modifies this`pending
      ensures St() == Coordinator.ExpirePending(old(St()), now)
    {
      pending := map g | g in pending && (pending[g].closeAfterWrite.Some? || pending[g].deadline > now) :: pending[g];
    }

    method AcceptPending(acceptedAt: nat, now: nat) returns (ok: bool)
      modifies this
      ensures Out(St(), ok) == Coordinator.AcceptPending(old(St()), acceptedAt, now, env)
    {
      var deadline := acceptedAt + HANDSHAKE_TIMEOUT;
      if deadline <= now || |pending| >= MAX_PENDING_CONNECTIONS { return true; }
      generation := generation + 1;
      if !env.spawn(generation) { return false; }
      pending := pending[generation := Pending(NewClient(generation), deadline, None, false)];
      return true;
    }

    method ReplyPending(g: nat, p: Pending, stop: bool)
      modifies this`pending, this`attempts
      ensures St() == Coordinator.ReplyPending(old(St()), g, p, stop, env)
    {
      var c := p.client.(nextWriteId := p.client.nextWriteId + 1);
      var accepted := env.write(attempts);
      attempts := attempts + 1;
      if accepted {
        pending := pending[g := p.(client := c, closeAfterWrite := Some(c.nextWriteId),
                                   stopAfterWrite := p.stopAfterWrite || stop)];
      }
    }

    method HandlePendingMessage(g: nat, event: ReaderEvent, now: nat) returns (ok: bool)
      modifies this
      ensures Out(St(), ok) == Coordinator.HandlePendingMessage(old(St()), g, event, now, env)
    {
      hide Coordinator.ReplyPending, Coordinator.HandleClientMessage, NormalizeInitialize;
      if g !in pending { return true; }
      var p := pending[g];
      pending := pending - {g};
      if !event.Received? { return true; }
      var m := event.m;
      if m.StopId().Some? {
        ReplyPending(g, p, true);
        return true;
      }
      if m.RequestId() == None { return true; }
      if m.name != Initialize || client.Some?
         || NormalizeInitialize(if m.params.Some? then m.params.value else Null, env.target).Err? {
        ReplyPending(g, p, false);
        return true;
      }
      client := Some(p.client);
      ok := HandleClientMessage(m, now);
    }

    // ----- outputs

    method HandleClientWritten(g: nat, id: nat, now: nat) returns (ok: bool)
      modifies this
      ensures Out(St(), ok) == Coordinator.HandleClientWritten(old(St()), g, id, now, env)
    {
      hide Coordinator.Disconnect;
      ok := true;
      if g in pending {
        if pending[g].closeAfterWrite == Some(id) {
          stopRequested := stopRequested || pending[g].stopAfterWrite;
          pending := pending - {g};
        }
      } else if client.Some? && client.value.generation == g {
        var c := client.value;
        if c.stopAfterWrite == Some(id) { stopRequested := true; }
        if c.disconnectAfterWrite == Some(id) { ok := Disconnect(now); }
      }
    }

    method HandleWriterEvent(source: Source, event: WriterEvent, now: nat) returns (ok: bool)
      modifies this
      ensures Out(St(), ok) == Coordinator.HandleWriterEvent(old(St()), source, event, now, env)
    {
      hide Coordinator.Disconnect, Coordinator.UpstreamFailed, Coordinator.HandleLifecycleWrite,
           Coordinator.HandleClientWritten;
      ok := true;
      var g := source.generation;
      match (source, event) {
        case (FromClient(_), Completed(id, _)) => ok := HandleClientWritten(g, id, now);
        case (FromClient(_), Refused(_)) =>
          if g in pending { pending := pending - {g}; }
          else if client.Some? && client.value.generation == g { ok := Disconnect(now); }
        case (FromServer(_), Completed(id, at)) => HandleLifecycleWrite(g, id, at);
        case (FromServer(_), Refused(_)) =>
          if upstream.Some? && upstream.value.generation == g { UpstreamFailed(); }
      }
    }

    method ExpireStalled(stalled: set<Source>, now: nat) returns (ok: bool)
      modifies this
      ensures Out(St(), ok) == Coordinator.ExpireStalled(old(St()), stalled, now, env)
    {
      hide Coordinator.Disconnect, Coordinator.UpstreamFailed;
      ok := true;
      pending := map g | g in pending && FromClient(g) !in stalled :: pending[g];
      if client.Some? && FromClient(client.value.generation) in stalled {
        ok := Disconnect(now);
        if !ok { return; }
      }
      if upstream.Some? && FromServer(upstream.value.generation) in stalled { UpstreamFailed(); }
    }

    // ----- the event loop

    method HandleServerEvent(event: ReaderEvent, now: nat) returns (ok: bool)
      modifies this
      ensures Out(St(), ok) == Coordinator.HandleServerEvent(old(St()), event, now, env)
    {
      hide Coordinator.HandleShutdownReply, Coordinator.HandleUpstreamMessage, Coordinator.UpstreamFailed;
      ok := true;
      match event {
        case Received(m) =>
          if IsShutdownReply(m) { HandleShutdownReply(now); } else { ok := HandleUpstreamMessage(m); }
        case EndOfStream => UpstreamFailed();
        case ReadError =>
          UpstreamFailed();
          ok := false;
      }
    }

    method HandleClientEvent(event: ReaderEvent, now: nat) returns (ok: bool)
      modifies this
      ensures Out(St(), ok) == Coordinator.HandleClientEvent(old(St()), event, now, env)
    {
      hide Coordinator.HandleClientMessage, Coordinator.Disconnect;
      match event {
        case Received(m) => ok := HandleClientMessage(m, now);
        case EndOfStream => ok := Disconnect(now);
        case ReadError =>
          var _ := Disconnect(now);
          ok := false;
      }
    }

    method Dispatch(event: Event, now: nat) returns (ok: bool)
      modifies this
      ensures Out(St(), ok) == Coordinator.Dispatch(old(St()), event, now, env)
    {
      hide Coordinator.ExpirePending, Coordinator.AcceptPending, Coordinator.HandlePendingMessage,
           Coordinator.HandleClientEvent, Coordinator.HandleServerEvent, Coordinator.HandleWriterEvent,
           Coordinator.HandleProcessEvent;
      ExpirePending(now);
      ok := true;
      match event {
        case Accepted(at) => ok := AcceptPending(at, now);
        case AcceptError => ok := false;
        case Reader(source, read) =>
          if source.FromClient? {
            if source.generation in pending {
              ok := HandlePendingMessage(source.generation, read, now);
            } else if client.Some? && client.value.generation == source.generation {
              ok := HandleClientEvent(read, now);
            }
          } else if upstream.Some? && upstream.value.generation == source.generation {
            ok := HandleServerEvent(read, now);
          }
        case Writer(source, written) => ok := HandleWriterEvent(source, written, now);
        case Process(g, e) => ok := HandleProcessEvent(g, e, now);
      }
    }

    predicate IdleStopDue(now: nat)
      reads this
    {
      client == None && now >= idleSince + env.idleTimeout && !lifecycle.IsStopping()
    }

    method Prologue(now: nat, stalled: set<Source>) returns (ok: bool)
      modifies this
      ensures Out(St(), ok) == Coordinator.Prologue(old(St()), now, stalled, env)
    {
      hide Coordinator.ExpirePending, Coordinator.ExpireStalled, Coordinator.AdvanceDeadline, Coordinator.BeginStop;
      ExpirePending(now);
      ok := ExpireStalled(stalled, now);
      if !ok { return; }
      AdvanceDeadline(now);
      if (stopRequested && !lifecycle.IsStopping()) || IdleStopDue(now) {
        ok := BeginStop(now);
      }
    }

    /** One turn of the event loop. It keeps the invariant, whatever event arrives. */
    method ServeTurn(turn: Turn) returns (ok: bool)
      requires Invariant(St()) && LoopProofs.AdmissibleTurn(St(), turn, env)
      modifies this
      ensures Out(St(), ok) == Coordinator.ServeTurn(old(St()), turn, env)
      ensures Safe(St()) && (ok ==> Invariant(St()))
    {
      hide Invariant, Safe, LoopProofs.AdmissibleTurn, Coordinator.Prologue, Coordinator.Dispatch,
           Coordinator.BeginStop;
      LoopProofs.TurnKeeps(St(), turn, env);
      ok := Prologue(turn.now, turn.stalled);
      if !ok || lifecycle.Stopped? || turn.event == None { return; }
      if IdleStopDue(turn.later) {
        ok := BeginStop(turn.later);
      } else {
        ok := Dispatch(turn.event.value, turn.later);
      }
    }

    /** The event loop: it goes on until the daemon has stopped or a handler fails, and keeps
        the invariant for as long as it goes on. */
    method Serve(turns: seq<Turn>) returns (ok: bool)
      requires Invariant(St()) && LoopProofs.AdmissibleTurns(St(), turns, env)
      modifies this
      ensures Out(St(), ok) == Coordinator.Serve(old(St()), turns, env)
      ensures Safe(St()) && (ok ==> Invariant(St()))
    {
      hide Invariant, Safe, LoopProofs.AdmissibleTurn, Coordinator.ServeTurn;
      LoopProofs.InvariantSafe(St());
      var i := 0;
      ok := true;
      while i < |turns| && !lifecycle.Stopped?
        invariant 0 <= i <= |turns| && ok
        invariant Invariant(St()) && Safe(St()) && LoopProofs.AdmissibleTurns(St(), turns[i..], env)
        invariant Coordinator.Serve(St(), turns[i..], env) == Coordinator.Serve(old(St()), turns, env)
      {
        assert turns[i..][0] == turns[i] && turns[i..][1..] == turns[i + 1..];
        ok := ServeTurn(turns[i]);
        if !ok { return; }
        i := i + 1;
      }
    }
  }
}
