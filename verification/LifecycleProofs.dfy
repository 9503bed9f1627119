/** The lifecycle of the server process keeps the invariant: starts, shutdowns, restarts, exits. */
module LifecycleProofs {
  import opened Json
  import opened Protocol
  import opened Streams
  import opened Coordinator
  import opened Invariants

  /** What one message adds to a server's stream. */
  lemma Written(log: seq<ToServer>, e: ToServer)
    ensures InitSent(log + [e]) == (InitSent(log) || e.InitializeRequest?)
    ensures InitializedSent(log + [e]) == (InitializedSent(log) || e.InitializedNotice?)
    ensures ForwardedAny(log + [e]) == (ForwardedAny(log) || e.Forwarded?)
    ensures FirstInit(log + [e])
         == if FirstInit(log) == None && e.InitializeRequest? then Some((e.id, e.params)) else FirstInit(log)
    ensures InitOrder(log + [e]) == (InitOrder(log) && MayFollow(log, e))
    ensures OpenAt(log + [e]) == OpenStep(OpenAt(log), e)
    ensures Answered(log + [e]) == AnsweredStep(Answered(log), e)
    ensures FirstInit(log).Some? <==> InitSent(log)
  {
    hide *;
    Init1(log, e);
    FirstInit1(log, e);
    InitOrder1(log, e);
    OpenAt1(log, e);
    Answered1(log, e);
    FirstInitSent(log);
  }

  lemma AskOk(c: Client, init: PendingInitialize)
    requires ClientOk(c)
    ensures ClientOk(RecordRequest(c.(wantsBackground := init.wantsBackground, phase := WaitingForInitialized(true)),
                                   IdKey(init.id)))
  {
    hide Delivered, IdKey;
  }

  lemma ForwardOk(up: Upstream, init: PendingInitialize, accepted: bool)
    requires InitOrder(up.log.sent) && !InitSent(up.log.sent) && up.result == None
    requires init.fingerprint == Fingerprint(init.normalized)
    ensures var up' := Send(up.(fingerprint := Some(init.fingerprint)), InitializeRequest(init.id, init.normalized),
                            accepted);
            && InitOrder(up'.log.sent)
            && (accepted ==>
                  && ServerOk(up') && InitSent(up'.log.sent)
                  && !InitializedSent(up'.log.sent) && !ForwardedAny(up'.log.sent))
  {
    hide InitOrder, InitSent, InitializedSent, ForwardedAny, FirstInit, OpenAt, Answered, Delivered, Fingerprint, IdKey;
    Written(up.log.sent, InitializeRequest(init.id, init.normalized));
    NothingBeforeInit(up.log.sent);
  }

  lemma ForwardInitializeKeeps(s: State, init: PendingInitialize, env: Env)
    requires Shape(s.lifecycle, s.process, s.upstream, s.generation, s.past)
    requires Connections(s.pending, ClientGeneration(s.client), s.generation)
    requires Recorded(s.upstream, s.past) && KeptOk(s.pendingInitialize)
    requires s.client.Some? && ClientOk(s.client.value) && s.upstream.Some? && !Restarting(s.lifecycle)
    requires var up := s.upstream.value;
             InitOrder(up.log.sent) && !InitSent(up.log.sent) && up.result == None
             && Settled(s.lifecycle, up.log, ClientDocuments(s.client), PendingKeys(s.client))
    requires init.fingerprint == Fingerprint(init.normalized)
    ensures var r := ForwardInitialize(s, init, env);
            Kept(r)
  {
    hide InitOrder, InitSent, InitializedSent, ForwardedAny, FirstInit, OpenAt, Answered, Delivered, Fingerprint, IdKey,
         ServerOk, ClientOk, Connections, Agreement;
    var up := s.upstream.value;
    Written(up.log.sent, InitializeRequest(init.id, init.normalized));
    ForwardOk(up, init, env.write(s.attempts));
    AskOk(s.client.value, init);
  }

  // ----- writing to the client

  lemma ReplyOk(c: Client, e: ToClient, accepted: bool)
    requires ClientOk(c) && !e.Routed?
    ensures ClientOk(Reply(c, e, accepted))
  {
    hide Delivered, IdKey;
    Delivered1(c.log.sent, e);
  }

  lemma EnqueueKeeps(s: State, e: ToClient, env: Env)
    requires Invariant(s) && !e.Routed?
    ensures Invariant(EnqueueClient(s, e, env).s)
  {
    hide ServerOk, ClientOk, Connections, Shape, Settled, Recorded, InitSent, InitializedSent, ForwardedAny,
         Fingerprint;
    if s.client.Some? { ReplyOk(s.client.value, e, env.write(s.attempts)); }
  }

  /** Which of its writes a client waits for is no concern of the invariant. */
  lemma MarkKeeps(s: State, stopAfter: Option<nat>, disconnectAfter: Option<nat>)
    requires Invariant(s) && s.client.Some?
    ensures Invariant(s.(client :=
                         Some(s.client.value.(stopAfterWrite := stopAfter, disconnectAfterWrite := disconnectAfter))))
  {
    hide ServerOk, Connections, Shape, Settled, Recorded, InitSent, InitializedSent, ForwardedAny, Fingerprint, Routing,
         IdKey;
  }

  lemma HandleStopKeeps(s: State, id: Value, env: Env)
    requires Invariant(s)
    ensures Invariant(HandleStop(s, id, env).s)
  {
    hide Invariant;
    EnqueueKeeps(s, Success(id), env);
    var r := EnqueueClient(s, Success(id), env);
    if r.ok && r.s.client.Some? {
      MarkKeeps(r.s, Some(r.s.client.value.nextWriteId), r.s.client.value.disconnectAfterWrite);
    }
  }

  // ----- the lifecycle

  /** A shutdown or exit message changes nothing that the invariant speaks of. */
  lemma ControlOk(up: Upstream, e: ToServer, accepted: bool)
    requires ServerOk(up) && (e.ShutdownRequest? || e.ExitNotice?)
    ensures var up' := Send(up, e, accepted);
            && ServerOk(up') && InitOrder(up'.log.sent)
            && InitSent(up'.log.sent) == InitSent(up.log.sent)
            && InitializedSent(up'.log.sent) == InitializedSent(up.log.sent)
            && ForwardedAny(up'.log.sent) == ForwardedAny(up.log.sent)
            && OpenAt(up'.log.sent) == OpenAt(up.log.sent)
            && Answered(up'.log.sent) == Answered(up.log.sent)
  {
    hide InitOrder, InitSent, InitializedSent, ForwardedAny, FirstInit, OpenAt, Answered, Fingerprint, IdKey;
    Written(up.log.sent, e);
  }

  lemma ArmOk(up: Upstream, stages: seq<ShutdownStage>)
    requires ServerOk(up)
    ensures ServerOk(up.(log := up.log.(stages := stages)))
  {
    hide InitOrder, FirstInit, Fingerprint, IdKey;
  }

  lemma ControlKeeps(s: State, e: ToServer, env: Env)
    requires Invariant(s) && (e.ShutdownRequest? || e.ExitNotice?)
    ensures Invariant(WriteUpstream(s, e, env).s)
  {
    hide InitOrder, InitSent, InitializedSent, ForwardedAny, OpenAt, Answered, Fingerprint, ServerOk, ClientOk,
         Connections;
    if s.upstream.Some? { ControlOk(s.upstream.value, e, env.write(s.attempts)); }
  }

  /** Entering or advancing a shutdown, with or without a new deadline. */
  lemma LeaveKeeps(s: State, lc: Lifecycle, arm: Option<ShutdownStage>)
    requires Invariant(s) && s.upstream.Some?
    requires lc.Leaving() && lc.generation == s.upstream.value.generation
    requires lc.Awaiting() ==> lc.after != NoServer && !s.lifecycle.Killing?
    requires Stage(lc, s.upstream.value.log.stages + if arm.Some? then [arm.value] else [])
    requires lc.after == Restart ==>
      || Restarting(s.lifecycle)
      || (&& (s.upstream.value.restartRequired || (s.pendingInitialize.Some? && s.upstream.value.fingerprint.Some?))
          && (HasLive(s.client) ==> s.pendingInitialize.Some?)
          && (s.client.Some? ==> s.client.value.phase != WaitingForInitialized(true)))
    ensures Invariant((if arm.Some? then Arm(s, arm.value) else s).(lifecycle := lc))
  {
    hide InitOrder, InitSent, InitializedSent, ForwardedAny, OpenAt, Answered, Fingerprint, ServerOk, ClientOk,
         Connections, Stage;
    var stages := s.upstream.value.log.stages;
    assert stages + [] == stages;
    StageBound(lc, stages + if arm.Some? then [arm.value] else []);
    if arm.Some? { ArmOk(s.upstream.value, stages + [arm.value]); }
  }

  lemma StageBound(lc: Lifecycle, stages: seq<ShutdownStage>)
    requires Stage(lc, stages)
    ensures stages <= SHUTDOWN_STAGES
  {
  }

  lemma BeginShutdownKeeps(s: State, after: AfterExit, now: nat, env: Env)
    requires Invariant(s) && s.lifecycle.Running? && after != NoServer
    requires after == Restart ==>
      && (s.upstream.value.restartRequired || (s.pendingInitialize.Some? && s.upstream.value.fingerprint.Some?))
      && (HasLive(s.client) ==> s.pendingInitialize.Some?)
      && (s.client.Some? ==> s.client.value.phase != WaitingForInitialized(true))
    ensures var r := BeginShutdown(s, after, now, env);
            r.ok && Invariant(r.s) && r.s.lifecycle.Leaving() && r.s.lifecycle.after == after
  {
    hide ServerOk, ClientOk, Connections, Recorded, KeptOk, InitSent, InitializedSent, ForwardedAny, Settled;
    var up := s.upstream.value;
    var w := WriteUpstream(s, ShutdownRequest, env);
    ControlKeeps(s, ShutdownRequest, env);
    if up.fingerprint == None { LeaveKeeps(s, Killing(up.generation, after), None); }
    else if !w.ok { LeaveKeeps(w.s, Killing(up.generation, after), None); }
    else {
      LeaveKeeps(w.s, AwaitingShutdownReply(up.generation, now + UPSTREAM_SHUTDOWN_TIMEOUT, after), Some(ForReply));
    }
  }

  lemma StartUpstreamKeeps(s: State, initial: bool, env: Env)
    requires s.upstream == None && !s.stopRequested && KeptOk(s.pendingInitialize)
    requires Connections(s.pending, ClientGeneration(s.client), s.generation) && Recorded(s.upstream, s.past)
    requires s.client.Some? ==> ClientOk(s.client.value) && s.client.value.phase != WaitingForInitialized(true)
    requires HasLive(s.client) || (s.client.Some? && s.client.value.phase == WaitingForUpstream) ==>
               s.pendingInitialize.Some?
    ensures var r := StartUpstream(s, initial, env);
            Kept(r) && (r.ok ==> r.s.lifecycle.Starting?)
  {
    hide ServerOk, ClientOk, InitOrder, Fingerprint, Untouched;
  }

  lemma BeginRestartKeeps(s: State, now: nat, env: Env)
    requires Invariant(s) && !s.lifecycle.Stopped?
    requires s.lifecycle.Absent? ==> !s.stopRequested
    requires s.lifecycle.Running? ==>
      s.upstream.value.restartRequired || (s.pendingInitialize.Some? && s.upstream.value.fingerprint.Some?)
    requires s.client.Some? ==> s.client.value.phase == WaitingForUpstream
    ensures var r := BeginRestart(s, now, env);
            Kept(r)
  {
    hide ServerOk, ClientOk, Connections, Fingerprint, Settled, InitSent, Recorded;
    if s.lifecycle.Running? { BeginShutdownKeeps(s, Restart, now, env); }
    if s.lifecycle.Absent? { StartUpstreamKeeps(s, false, env); }
  }

  lemma ShutdownReplyKeeps(s: State, now: nat, env: Env)
    requires Invariant(s)
    ensures Invariant(HandleShutdownReply(s, now, env))
  {
    hide ServerOk, ClientOk, Connections, Recorded, KeptOk, Linked;
    var lc := s.lifecycle;
    if lc.AwaitingShutdownReply? {
      var w := WriteUpstream(s, ExitNotice, env);
      ControlKeeps(s, ExitNotice, env);
      if !w.ok { LeaveKeeps(w.s, Killing(lc.generation, lc.after), None); }
      else {
        LeaveKeeps(w.s, AwaitingExitWrite(lc.generation, w.s.upstream.value.nextWriteId,
                                          now + UPSTREAM_SHUTDOWN_TIMEOUT, lc.after), Some(ForExitWrite));
      }
    }
  }

  lemma LifecycleWriteKeeps(s: State, generation: nat, id: nat, at: nat)
    requires Invariant(s)
    ensures Invariant(HandleLifecycleWrite(s, generation, id, at))
  {
    hide ServerOk, ClientOk, Connections, Recorded, KeptOk, Linked;
    var lc := s.lifecycle;
    if lc.AwaitingExitWrite? {
      LeaveKeeps(s, AwaitingExit(lc.generation, at + UPSTREAM_SHUTDOWN_TIMEOUT, lc.after), Some(ForExit));
    }
  }

  lemma ForceStopKeeps(s: State, after: AfterExit)
    requires Invariant(s) && s.upstream.Some?
    requires after == Restart ==> Restarting(s.lifecycle)
    ensures Invariant(ForceStop(s, s.upstream.value.generation, after))
  {
    hide ServerOk, ClientOk, Connections, Recorded, KeptOk, Linked, Agreement;
    LeaveKeeps(s, Killing(s.upstream.value.generation, after), None);
  }

  lemma AdvanceDeadlineKeeps(s: State, now: nat)
    requires Invariant(s)
    ensures Invariant(AdvanceDeadline(s, now))
  {
    hide ServerOk, ClientOk, Connections, Linked, Recorded, Fingerprint;
    if s.lifecycle.Awaiting() { ForceStopKeeps(s, s.lifecycle.after); }
  }

  lemma DropClientRecorded(s: State)
    requires Recorded(s.upstream, s.past) && (s.client.Some? ==> ClientOk(s.client.value))
    ensures Recorded(s.upstream, DropClient(s).past)
  {
    hide InitOrder, Delivered, IdKey;
  }

  /** Losing a server that is not being replaced or stopped ends the session. */
  lemma AbandonKeeps(s: State)
    requires Invariant(s) && s.upstream.Some?
    ensures Invariant(ForceStop(DropClient(s).(pendingInitialize := None), s.upstream.value.generation, NoServer))
  {
    hide InitOrder, InitSent, OpenAt, Answered, Fingerprint, ServerOk, ClientOk, Recorded, Untouched;
    DropClientRecorded(s);
  }

  lemma UpstreamFailedKeeps(s: State)
    requires Invariant(s)
    ensures Invariant(UpstreamFailed(s))
  {
    if s.upstream.Some? {
      hide Invariant, DropClient;
      if !s.lifecycle.Leaving() || s.lifecycle.after == NoServer { AbandonKeeps(s); }
      else { ForceStopKeeps(s, s.lifecycle.after); }
    }
  }

  // ----- the process

  lemma DropUpstreamRecorded(s: State)
    requires Recorded(s.upstream, s.past)
    ensures Recorded(DropUpstream(s).upstream, DropUpstream(s).past)
  {
    hide InitOrder, Delivered;
  }

  lemma ExitAbsentKeeps(s: State, now: nat)
    requires Invariant(s)
    ensures Invariant(DropClient(DropUpstream(s).(process := None, orphaned := {})).(
                        pendingInitialize := None, lifecycle := Absent, idleSince := now))
  {
    hide ServerOk, ClientOk, Recorded, Fingerprint, InitSent, Untouched;
    DropUpstreamRecorded(s);
    DropClientRecorded(DropUpstream(s).(process := None, orphaned := {}));
  }

  lemma ExitStoppedKeeps(s: State)
    requires Invariant(s)
    ensures Invariant(DropUpstream(s).(process := None, orphaned := {}, lifecycle := Stopped))
  {
    hide ServerOk, ClientOk, Recorded, KeptOk, InitSent, InitializedSent, ForwardedAny, Connections;
    DropUpstreamRecorded(s);
  }

  lemma ExitRestartKeeps(s: State, env: Env)
    requires Invariant(s) && Restarting(s.lifecycle) && !s.stopRequested
    ensures Kept(StartUpstream(DropUpstream(s).(process := None, orphaned := {}), false, env))
  {
    hide ServerOk, ClientOk, Recorded, KeptOk, InitSent, InitializedSent, ForwardedAny, Connections, StartUpstream,
         Settled;
    DropUpstreamRecorded(s);
    StartUpstreamKeeps(DropUpstream(s).(process := None, orphaned := {}), false, env);
  }

  lemma ProcessExitKeeps(s: State, generation: nat, now: nat, env: Env)
    requires Invariant(s) && (s.stopRequested ==> !Restarting(s.lifecycle))
    ensures Kept(HandleProcessExit(s, generation, now, env))
  {
    hide Shape, ServerOk, ClientOk, Recorded, KeptOk, Linked, Connections, StartUpstream, DropClient, DropUpstream;
    var lc := s.lifecycle;
    if lc.Running? || (lc.Leaving() && lc.generation == generation) {
      if lc.Running? || lc.after == NoServer { ExitAbsentKeeps(s, now); }
      else if lc.after == Restart { ExitRestartKeeps(s, env); }
      else { ExitStoppedKeeps(s); }
    }
  }

  lemma NewUpstreamOk(generation: nat, inherited: multiset<string>)
    ensures var up := NewUpstream(generation, inherited);
            ServerOk(up) && !InitSent(up.log.sent) && InitOrder(up.log.sent)
  {
  }

  lemma AttachKeeps(s: State, generation: nat, env: Env)
    requires Invariant(s) && s.lifecycle.Starting? && s.lifecycle.generation == generation
    ensures Kept(ResumePendingInitialize(AttachUpstream(s.(past := s.past.(announced := true)), generation), env))
  {
    hide ServerOk, ClientOk, InitSent, InitOrder, InitializedSent, ForwardedAny, Fingerprint, ForwardInitialize, IdKey,
         Connections;
    NewUpstreamOk(generation, PendingKeys(s.client));
    var s' := AttachUpstream(s.(past := s.past.(announced := true)), generation);
    if s'.pendingInitialize.Some? && s'.client.Some? {
      ForwardInitializeKeeps(s'.(pendingInitialize := None), s'.pendingInitialize.value, env);
    }
  }

  /** A client whose server cannot be started is told so and will be disconnected. */
  lemma FailPendingKeeps(s: State, env: Env)
    requires Recorded(s.upstream, s.past) && KeptOk(s.pendingInitialize)
    requires s.lifecycle.Absent? && s.process == None && s.upstream == None
    requires Connections(s.pending, ClientGeneration(s.client), s.generation)
    requires s.client.Some? ==> ClientOk(s.client.value) && s.client.value.phase != WaitingForInitialized(true)
    requires HasLive(s.client) || (s.client.Some? && s.client.value.phase == WaitingForUpstream) ==>
               s.pendingInitialize.Some?
    ensures Kept(FailPendingInitialize(s, env))
  {
    hide InitOrder, Fingerprint, Connections, IdKey, Delivered;
    if s.pendingInitialize.Some? && s.client.Some? {
      Delivered1(s.client.value.log.sent, Failure(s.pendingInitialize.value.id));
    }
  }

  /** The order in which a process worker reports: a start once, or a failed start and no more. */
  predicate Admissible(s: State, event: Event) {
    event.Process? && s.process == Some(event.generation) && !event.event.Exited? ==> !s.past.announced
  }

  lemma AnnounceKeeps(s: State)
    requires Invariant(s) && !s.lifecycle.Starting?
    ensures Invariant(s.(past := s.past.(announced := true)))
  {
    hide ServerOk, ClientOk, Linked, KeptOk, Connections, Agreement, InitOrder, Delivered;
  }

  lemma StartFailedKeeps(s: State, generation: nat, env: Env)
    requires Invariant(s) && s.process == Some(generation) && !s.past.announced
    ensures Kept(HandleProcessEvent(s, generation, StartFailed, 0, env))
  {
    hide ServerOk, ClientOk, Recorded, KeptOk, Settled, InitSent, InitializedSent, ForwardedAny, Connections,
         FailPendingInitialize;
    FailPendingKeeps(s.(process := None, lifecycle := Absent), env);
  }

  lemma ProcessEventKeeps(s: State, generation: nat, event: ProcessEvent, now: nat, env: Env)
    requires Invariant(s) && (s.stopRequested ==> !Restarting(s.lifecycle))
    requires Admissible(s, Process(generation, event))
    ensures Kept(HandleProcessEvent(s, generation, event, now, env))
  {
    hide ServerOk, ClientOk, InitOrder, Delivered, KeptOk, Linked, Connections, HandleProcessExit,
         ResumePendingInitialize, FailPendingInitialize;
    if s.process == Some(generation) {
      if event.Exited? { ProcessExitKeeps(s, generation, now, env); }
      else if event.StartFailed? { StartFailedKeeps(s, generation, env); }
      else if s.lifecycle.Starting? && s.lifecycle.generation == generation { AttachKeeps(s, generation, env); }
      else { AnnounceKeeps(s); }
    }
  }
}
