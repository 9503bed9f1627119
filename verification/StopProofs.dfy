/** Once a stop is requested it stays requested, a shutdown towards a stop does not turn into
    anything else, and no server process is started. */
module StopProofs {
  import opened Json
  import opened Protocol
  import opened Streams
  import opened Coordinator
  import opened Invariants
  import opened LifecycleProofs
  import opened DepartureProofs
  import opened LoopProofs

  /** Starts that happened before the stop was requested. */
  function EarlyStarts(s: State): int { s.past.starts - s.past.lateStarts }

  /** A step that does not go back on a stop. */
  predicate Firm(s: State, s': State) {
    && (s.stopRequested ==> s'.stopRequested && EarlyStarts(s') == EarlyStarts(s))
    && (s.lifecycle.IsStopping() ==> s'.lifecycle.IsStopping())
  }

  lemma FirmEnqueue(s: State, e: ToClient, env: Env)
    ensures Firm(s, EnqueueClient(s, e, env).s)
  {
  }

  lemma FirmStart(s: State, initial: bool, env: Env)
    requires !s.lifecycle.IsStopping()
    ensures Firm(s, StartUpstream(s, initial, env).s)
  {
  }

  lemma FirmShutdown(s: State, after: AfterExit, now: nat, env: Env)
    requires !s.lifecycle.IsStopping()
    ensures Firm(s, BeginShutdown(s, after, now, env).s)
  {
  }

  lemma FirmRestart(s: State, now: nat, env: Env)
    ensures Firm(s, BeginRestart(s, now, env).s)
  {
    hide StartUpstream, BeginShutdown;
    if s.lifecycle.Running? { FirmShutdown(s, Restart, now, env); }
    if s.lifecycle.Absent? { FirmStart(s, false, env); }
  }

  lemma FirmFailed(s: State)
    requires s.lifecycle.Stopped? ==> s.upstream == None
    ensures Firm(s, UpstreamFailed(s))
  {
  }

  lemma FirmForward(s: State, init: PendingInitialize, env: Env)
    ensures Firm(s, ForwardInitialize(s, init, env).s)
  {
    hide IdKey;
  }

  lemma FirmInitialize(s: State, m: Message, now: nat, env: Env)
    ensures Firm(s, HandleInitialize(s, m, now, env).s)
  {
    hide NormalizeInitialize, ForwardInitialize, BeginRestart, ShouldRestart, Fingerprint, WantsBackgroundWork;
    if m.RequestId().Some? && m.params.Some? && NormalizeInitialize(m.params.value, env.target).Ok? {
      var n := NormalizeInitialize(m.params.value, env.target).value;
      var init := PendingInitialize(m.id.value, n, Fingerprint(n), WantsBackgroundWork(n));
      FirmForward(s, init, env);
      FirmRestart(SetPhase(s.(pendingInitialize := Some(init)), WaitingForUpstream), now, env);
    }
  }

  lemma FirmSettled(s: State, s': State)
    requires OnlyWrote(s, s')
    ensures Firm(s, s')
  {
    hide OnwardOption;
  }

  lemma FirmDisconnect(s: State, now: nat, env: Env)
    requires Invariant(s)
    ensures Firm(s, Disconnect(s, now, env).s)
  {
    hide Shape, Linked, Recorded, ServerOk, ClientOk, Connections, KeptOk, OnlyWrote, Settle, BeginRestart, CanSpeak;
    if s.client.Some? {
      MaySettle(s);
      SettleEffect(DropClient(s), s.client.value, env);
      var r := Settle(DropClient(s), s.client.value, env);
      FirmSettled(DropClient(s), r.s);
      FirmRestart(r.s, now, env);
    }
  }

  lemma FirmStage(s: State, now: nat, env: Env)
    ensures Firm(s, StopStage(s, now, env).s)
  {
    hide BeginShutdown;
    if s.lifecycle.Running? { FirmShutdown(s, Stop, now, env); }
  }

  lemma FirmBeginStop(s: State, now: nat, env: Env)
    requires Invariant(s)
    ensures Firm(s, BeginStop(s, now, env).s) && BeginStop(s, now, env).s.stopRequested
  {
    hide Invariant, Disconnect, StopStage;
    StopFlagKeeps(s);
    var s0 := s.(stopRequested := true, accepting := false, pending := map[]);
    FirmDisconnect(s0, now, env);
    FirmStage(Disconnect(s0, now, env).s, now, env);
  }

  lemma FirmReady(s: State, m: Message, now: nat, env: Env)
    requires Invariant(s)
    ensures Firm(s, HandleReady(s, m, now, env).s)
  {
    hide Invariant, Disconnect, ForwardMessage;
    FirmDisconnect(s, now, env);
    FirmForwardMessage(s, m, env);
  }

  lemma FirmForwardMessage(s: State, m: Message, env: Env)
    ensures Firm(s, ForwardMessage(s, m, env).s)
  {
    hide IdKey;
  }

  lemma FirmBefore(s: State, m: Message, now: nat, forward: bool, env: Env)
    requires Invariant(s)
    ensures Firm(s, HandleBeforeInitialize(s, m, now, env).s)
    ensures Firm(s, HandleWaitingForUpstream(s, m, now, env).s)
    ensures Firm(s, HandleBeforeInitialized(s, m, forward, env).s)
  {
    hide Invariant, Disconnect, HandleInitialize;
    FirmDisconnect(s, now, env);
    FirmInitialize(s, m, now, env);
  }

  lemma FirmClientMessage(s: State, m: Message, now: nat, env: Env)
    requires Invariant(s)
    ensures Firm(s, HandleClientMessage(s, m, now, env).s)
  {
    hide Invariant, Disconnect, HandleReady, HandleBeforeInitialize, HandleWaitingForUpstream, HandleBeforeInitialized,
         IdKey;
    FirmDisconnect(s, now, env);
    FirmReady(s, m, now, env);
    FirmBefore(s, m, now, s.client.Some? && s.client.value.phase == WaitingForInitialized(true), env);
  }

  lemma FirmServerResponse(s: State, m: Message, key: string, env: Env)
    ensures Firm(s, HandleServerResponse(RecordReply(s, m, key), m, key, env).s)
  {
    hide RequestKeys;
  }

  lemma FirmServerRequest(s: State, m: Message, id: Value, key: string, env: Env)
    ensures Firm(s, HandleServerRequest(s, m, id, key, env).s)
  {
  }

  lemma FirmServerEvent(s: State, event: ReaderEvent, now: nat, env: Env)
    requires Invariant(s) && s.upstream.Some?
    ensures Firm(s, HandleServerEvent(s, event, now, env).s)
  {
    hide ServerOk, ClientOk, Recorded, KeptOk, Linked, Connections, HandleServerResponse, RecordReply,
         HandleServerRequest, UpstreamFailed, IdKey;
    FirmFailed(s);
    if event.Received? {
      var m := event.m;
      FirmEnqueue(s, Relayed(m), env);
      if m.ResponseId().Some? { FirmServerResponse(s, m, IdKey(m.ResponseId().value), env); }
      if m.RequestId().Some? { FirmServerRequest(s, m, m.RequestId().value, IdKey(m.RequestId().value), env); }
    }
  }

  lemma FirmPendingMessage(s: State, g: nat, event: ReaderEvent, now: nat, env: Env)
    requires Invariant(s)
    ensures Firm(s, HandlePendingMessage(s, g, event, now, env).s)
  {
    hide Invariant, HandleClientMessage, NormalizeInitialize;
    if g in s.pending && s.client == None && event.Received? {
      AdmitKeeps(s, g);
      FirmClientMessage(s.(pending := s.pending - {g}, client := Some(s.pending[g].client)), event.m, now, env);
    }
  }

  lemma FirmWriterEvent(s: State, source: Source, event: WriterEvent, now: nat, env: Env)
    requires Invariant(s)
    ensures Firm(s, HandleWriterEvent(s, source, event, now, env).s)
  {
    hide ServerOk, ClientOk, Recorded, KeptOk, Linked, Connections, Disconnect, UpstreamFailed;
    StopFlagKeeps(s);
    FirmDisconnect(s, now, env);
    FirmDisconnect(s.(stopRequested := true), now, env);
    FirmFailed(s);
  }

  /** Only the failed start of a process that was already being killed ends a shutdown early. */
  lemma FirmProcess(s: State, generation: nat, event: ProcessEvent, now: nat, env: Env)
    requires Invariant(s) && (s.stopRequested ==> !Restarting(s.lifecycle))
    ensures var s' := HandleProcessEvent(s, generation, event, now, env).s;
            && (s.stopRequested ==> s'.stopRequested && EarlyStarts(s') == EarlyStarts(s))
            && (s.lifecycle.IsStopping() ==> s'.lifecycle.IsStopping() || (s'.lifecycle.Absent? && event.StartFailed?))
  {
    hide ServerOk, ClientOk, Recorded, KeptOk, Linked, Connections, ForwardInitialize, HandleProcessExit;
    if event.Started? {
      var s1 := AttachUpstream(s.(past := s.past.(announced := true)), generation);
      if s.pendingInitialize.Some? { FirmForward(s1.(pendingInitialize := None), s.pendingInitialize.value, env); }
    } else if event.Exited? { FirmExit(s, generation, now, env); }
  }

  lemma FirmExit(s: State, generation: nat, now: nat, env: Env)
    requires Invariant(s) && (s.stopRequested ==> !Restarting(s.lifecycle))
    ensures Firm(s, HandleProcessExit(s, generation, now, env).s)
  {
    hide ServerOk, ClientOk, Recorded, KeptOk, Linked, Connections;
  }

  lemma FirmDispatch(s0: State, event: Event, now: nat, env: Env)
    requires Dispatching(s0)
    ensures var s' := Dispatch(s0, event, now, env).s;
            && (s0.stopRequested ==> s'.stopRequested && EarlyStarts(s') == EarlyStarts(s0))
            && (s0.lifecycle.IsStopping() ==>
                  s'.lifecycle.IsStopping() || (s'.lifecycle.Absent? && event.Process? && event.event.StartFailed?))
  {
    hide Invariant, ExpirePending, AcceptPending, HandlePendingMessage, HandleClientMessage, HandleServerEvent,
         HandleWriterEvent, HandleProcessEvent, Disconnect;
    var s := ExpirePending(s0, now);
    ExpirePendingKeeps(s0, now);
    ExpireSame(s0, now);
    match event
    case Accepted(at) => FirmAccept(s, at, now, env);
    case AcceptError =>
    case Reader(source, read) =>
      FirmPendingMessage(s, source.generation, read, now, env);
      FirmDisconnect(s, now, env);
      if read.Received? { FirmClientMessage(s, read.m, now, env); }
      if s.upstream.Some? { FirmServerEvent(s, read, now, env); }
    case Writer(source, written) => FirmWriterEvent(s, source, written, now, env);
    case Process(g, e) => FirmProcess(s, g, e, now, env);
  }

  lemma FirmAccept(s: State, acceptedAt: nat, now: nat, env: Env)
    ensures Firm(s, AcceptPending(s, acceptedAt, now, env).s)
  {
  }

  lemma FirmPrologue(s: State, now: nat, stalled: set<Source>, env: Env)
    requires Invariant(s)
    ensures Firm(s, Prologue(s, now, stalled, env).s)
  {
    hide Invariant, ExpirePending, Disconnect, UpstreamFailed, BeginStop;
    ExpirePendingKeeps(s, now);
    ExpireSame(s, now);
    var s1 := ExpirePending(s, now);
    ExpireStalledKeeps(s1, stalled, now, env);
    FirmStalled(s1, stalled, now, env);
    var r := ExpireStalled(s1, stalled, now, env);
    if r.ok {
      AdvanceDeadlineKeeps(r.s, now);
      FirmBeginStop(AdvanceDeadline(r.s, now), now, env);
    }
  }

  lemma FirmStalled(s: State, stalled: set<Source>, now: nat, env: Env)
    requires Invariant(s)
    ensures Firm(s, ExpireStalled(s, stalled, now, env).s)
  {
    hide Invariant, Disconnect, UpstreamFailed;
    var s1 := s.(pending := map g | g in s.pending && FromClient(g) !in stalled :: s.pending[g]);
    ShrinkKeeps(s, s1.pending);
    FirmDisconnect(s1, now, env);
    DisconnectKeeps(s1, now, env);
    var r := if s1.client.Some? && FromClient(s1.client.value.generation) in stalled then Disconnect(s1, now, env)
      else Out(s1, true);
    if r.ok { StoppedAlone(r.s); FirmFailed(r.s); }
  }

  lemma StoppedAlone(s: State)
    requires Invariant(s)
    ensures s.lifecycle.Stopped? ==> s.upstream == None
  {
    hide ServerOk, ClientOk, Recorded, KeptOk, Linked, Connections;
  }

  /** A requested stop is not withdrawn by a turn of the loop, starts no process, and is under
      way when the turn ends, unless the process that was being stopped had failed to start. */
  lemma StopStands(s: State, turn: Turn, env: Env)
    requires Invariant(s) && s.stopRequested && AdmissibleTurn(s, turn, env)
    ensures var r := ServeTurn(s, turn, env);
            && r.s.stopRequested
            && r.s.past.starts == s.past.starts
            && (r.ok ==>
              (r.s.lifecycle.IsStopping() || (r.s.lifecycle.Absent? && turn.event.Some? && turn.event.value.Process?
                                                && turn.event.value.event.StartFailed?)))
  {
    hide Prologue, Dispatch, BeginStop, Admissible, ServerOk, ClientOk, KeptOk, Linked, Connections, Agreement,
         InitOrder, Delivered, Stage;
    FirmPrologue(s, turn.now, turn.stalled, env);
    PrologueKeeps(s, turn.now, turn.stalled, env);
    TurnKeeps(s, turn, env);
    var r := Prologue(s, turn.now, turn.stalled, env);
    if r.ok && !r.s.lifecycle.Stopped? && turn.event.Some? {
      FirmBeginStop(r.s, turn.later, env);
      FirmDispatch(r.s, turn.event.value, turn.later, env);
    }
  }

  /** From a requested stop on, no run of the loop ever starts a server process. */
  lemma {:induction false} NoStartAfterStop(s: State, turns: seq<Turn>, env: Env)
    requires Invariant(s) && s.stopRequested && AdmissibleTurns(s, turns, env)
    ensures var r := Serve(s, turns, env);
            r.s.stopRequested && r.s.past.starts == s.past.starts
    decreases |turns|
  {
    hide Invariant, ServeTurn, AdmissibleTurn;
    if turns != [] && !s.lifecycle.Stopped? {
      StopStands(s, turns[0], env);
      TurnKeeps(s, turns[0], env);
      var r := ServeTurn(s, turns[0], env);
      if r.ok { NoStartAfterStop(r.s, turns[1..], env); }
    }
  }
}
