/** Every turn of the event loop keeps the invariant, and with it every run of the daemon. */
module LoopProofs {
  import opened Json
  import opened Protocol
  import opened Streams
  import opened Coordinator
  import opened Invariants
  import opened LifecycleProofs
  import opened DepartureProofs
  import opened ClientProofs
  import opened ServerProofs

  lemma {:induction false} SubsetSize<T>(a: set<T>, b: set<T>)
    requires a <= b
    ensures |a| <= |b|
    decreases |a|
  {
    if a != {} {
      var x :| x in a;
      SubsetSize(a - {x}, b - {x});
    }
  }

  /** Connections may go away. */
  lemma ShrinkKeeps(s: State, pending: map<nat, Pending>)
    requires Invariant(s) && pending.Keys <= s.pending.Keys && forall g | g in pending :: pending[g] == s.pending[g]
    ensures Invariant(s.(pending := pending))
  {
    hide Shape, ServerOk, ClientOk, Recorded, KeptOk, Linked, Untouched;
    SubsetSize(pending.Keys, s.pending.Keys);
  }

  lemma ExpirePendingKeeps(s: State, now: nat)
    requires Invariant(s)
    ensures Invariant(ExpirePending(s, now))
  {
    hide Invariant;
    ShrinkKeeps(s, ExpirePending(s, now).pending);
  }

  lemma NextConnection(pending: map<nat, Pending>, client: Option<nat>, generation: nat, p: Pending)
    requires Connections(pending, client, generation)
    requires p.client.generation == generation + 1 && Untouched(p.client)
    ensures Connections(pending, client, generation + 1)
    ensures |pending| < MAX_PENDING_CONNECTIONS ==> Connections(pending[generation + 1 := p], client, generation + 1)
  {
    hide Untouched;
    assert pending[generation + 1 := p].Keys == pending.Keys + {generation + 1};
  }

  lemma ReplaceConnection(pending: map<nat, Pending>, client: Option<nat>, generation: nat, g: nat, p: Pending)
    requires Connections(pending, client, generation) && g in pending && p.client.generation == g && Untouched(p.client)
    ensures Connections((pending - {g})[g := p], client, generation)
  {
    hide Untouched;
    assert (pending - {g})[g := p].Keys == pending.Keys;
  }

  lemma AcceptKeeps(s: State, acceptedAt: nat, now: nat, env: Env)
    requires Invariant(s)
    ensures Kept(AcceptPending(s, acceptedAt, now, env))
  {
    hide ServerOk, ClientOk, Recorded, KeptOk, Linked, Agreement, Stage, Connections;
    NextConnection(s.pending, ClientGeneration(s.client), s.generation,
                   Pending(NewClient(s.generation + 1), acceptedAt + HANDSHAKE_TIMEOUT, None, false));
  }

  lemma ReplyPendingKeeps(s: State, g: nat, p: Pending, stop: bool, env: Env)
    requires Invariant(s) && g in s.pending && p == s.pending[g]
    ensures Invariant(ReplyPending(s.(pending := s.pending - {g}), g, p, stop, env))
  {
    hide Shape, ServerOk, ClientOk, Recorded, KeptOk, Linked, Connections;
    ShrinkKeeps(s, s.pending - {g});
    PendingUntouched(s, g);
    var c := p.client.(nextWriteId := p.client.nextWriteId + 1);
    ReplaceConnection(s.pending, ClientGeneration(s.client), s.generation, g,
                      p.(client := c, closeAfterWrite := Some(c.nextWriteId),
                         stopAfterWrite := p.stopAfterWrite || stop));
  }

  lemma PendingUntouched(s: State, g: nat)
    requires Invariant(s) && g in s.pending
    ensures Untouched(s.pending[g].client) && s.pending[g].client.generation == g
  {
    hide Shape, ServerOk, ClientOk, Recorded, KeptOk, Linked;
  }

  lemma AdmitKeeps(s: State, g: nat)
    requires Invariant(s) && g in s.pending && s.client == None
    ensures Invariant(s.(pending := s.pending - {g}, client := Some(s.pending[g].client)))
  {
    hide Shape, ServerOk, Recorded, KeptOk, InitSent, InitializedSent, ForwardedAny;
    SubsetSize((s.pending - {g}).Keys, s.pending.Keys);
  }

  lemma PendingMessageKeeps(s: State, g: nat, event: ReaderEvent, now: nat, env: Env)
    requires Invariant(s) && !s.lifecycle.Stopped? && (s.stopRequested ==> !s.lifecycle.Absent?)
    ensures Kept(HandlePendingMessage(s, g, event, now, env))
  {
    hide Shape, ServerOk, ClientOk, Recorded, KeptOk, Linked, Connections, ReplyPending, HandleClientMessage,
         NormalizeInitialize;
    if g in s.pending {
      ShrinkKeeps(s, s.pending - {g});
      ReplyPendingKeeps(s, g, s.pending[g], true, env);
      ReplyPendingKeeps(s, g, s.pending[g], false, env);
      if event.Received? && s.client == None {
        AdmitKeeps(s, g);
        ClientMessageKeeps(s.(pending := s.pending - {g}, client := Some(s.pending[g].client)), event.m, now, env);
      }
    }
  }

  lemma ClientWrittenKeeps(s: State, g: nat, id: nat, now: nat, env: Env)
    requires Invariant(s)
    ensures Kept(HandleClientWritten(s, g, id, now, env))
  {
    hide Shape, ServerOk, ClientOk, Recorded, KeptOk, Linked, Connections, Disconnect;
    if g in s.pending {
      ShrinkKeeps(s, s.pending - {g});
      StopFlagKeeps(s.(pending := s.pending - {g}));
    } else if s.client.Some? && s.client.value.generation == g {
      StopFlagKeeps(s);
      DisconnectKeeps(if s.client.value.stopAfterWrite == Some(id) then s.(stopRequested := true) else s, now, env);
    }
  }

  lemma WriterEventKeeps(s: State, source: Source, event: WriterEvent, now: nat, env: Env)
    requires Invariant(s)
    ensures Kept(HandleWriterEvent(s, source, event, now, env))
  {
    hide Shape, ServerOk, ClientOk, Recorded, KeptOk, Linked, Connections, Disconnect, UpstreamFailed,
         HandleLifecycleWrite, HandleClientWritten;
    var g := source.generation;
    if source.FromClient? {
      if event.Completed? { ClientWrittenKeeps(s, g, event.id, now, env); }
      else if g in s.pending { ShrinkKeeps(s, s.pending - {g}); }
      else { DisconnectKeeps(s, now, env); }
    } else if event.Completed? { LifecycleWriteKeeps(s, g, event.id, event.at); }
    else { UpstreamFailedKeeps(s); }
  }

  lemma ServerEventKeeps(s: State, event: ReaderEvent, now: nat, env: Env)
    requires Invariant(s) && s.upstream.Some? && !s.lifecycle.Stopped?
    ensures Kept(HandleServerEvent(s, event, now, env))
  {
    hide Shape, ServerOk, ClientOk, Recorded, KeptOk, Linked, Connections, UpstreamFailed, HandleUpstreamMessage,
         HandleShutdownReply;
    if event.Received? {
      if IsShutdownReply(event.m) { ShutdownReplyKeeps(s, now, env); } else { UpstreamMessageKeeps(s, event.m, env); }
    } else { UpstreamFailedKeeps(s); }
  }

  lemma ClientEventKeeps(s: State, event: ReaderEvent, now: nat, env: Env)
    requires Invariant(s) && s.client.Some? && !s.lifecycle.Stopped? && (s.stopRequested ==> !s.lifecycle.Absent?)
    ensures Kept(HandleClientEvent(s, event, now, env))
  {
    hide Invariant, Safe, Disconnect, HandleClientMessage;
    if event.Received? { ClientMessageKeeps(s, event.m, now, env); } else { DisconnectKeeps(s, now, env); }
  }

  /** What the event loop guarantees whenever it dispatches an event. */
  predicate Dispatching(s: State) {
    Invariant(s) && !s.lifecycle.Stopped? && StopHonoured(s)
  }

  lemma DispatchKeeps(s0: State, event: Event, now: nat, env: Env)
    requires Dispatching(s0) && Admissible(s0, event)
    ensures Kept(Dispatch(s0, event, now, env))
  {
    hide Invariant, Safe, ExpirePending, AcceptPending, HandlePendingMessage, HandleClientEvent, HandleServerEvent,
         HandleWriterEvent, HandleProcessEvent;
    var s := ExpirePending(s0, now);
    ExpirePendingKeeps(s0, now);
    ExpireSame(s0, now);
    InvariantSafe(s);
    match event
    case Accepted(at) => AcceptKeeps(s, at, now, env);
    case AcceptError =>
    case Reader(source, read) =>
      if source.FromClient? {
        if source.generation in s.pending { PendingMessageKeeps(s, source.generation, read, now, env); }
        else if s.client.Some? { ClientEventKeeps(s, read, now, env); }
      } else if s.upstream.Some? { ServerEventKeeps(s, read, now, env); }
    case Writer(source, written) => WriterEventKeeps(s, source, written, now, env);
    case Process(g, e) => ProcessEventKeeps(s, g, e, now, env);
  }

  lemma ExpireSame(s: State, now: nat)
    ensures ExpirePending(s, now) == s.(pending := ExpirePending(s, now).pending)
  {
  }

  lemma ExpireStalledKeeps(s: State, stalled: set<Source>, now: nat, env: Env)
    requires Invariant(s)
    ensures Kept(ExpireStalled(s, stalled, now, env))
  {
    hide Shape, ServerOk, ClientOk, Recorded, KeptOk, Linked, Connections, UpstreamFailed, Disconnect;
    var s1 := s.(pending := map g | g in s.pending && FromClient(g) !in stalled :: s.pending[g]);
    ShrinkKeeps(s, s1.pending);
    DisconnectKeeps(s1, now, env);
    UpstreamFailedKeeps(s1);
    if Disconnect(s1, now, env).ok { UpstreamFailedKeeps(Disconnect(s1, now, env).s); }
  }

  /** Before it waits for an event the loop makes sure that a requested stop has begun. */
  lemma PrologueKeeps(s: State, now: nat, stalled: set<Source>, env: Env)
    requires Invariant(s)
    ensures var r := Prologue(s, now, stalled, env);
            Kept(r) && (r.ok ==> StopHonoured(r.s))
  {
    hide Invariant, Safe, ExpirePending, ExpireStalled, AdvanceDeadline, BeginStop;
    ExpirePendingKeeps(s, now);
    ExpireStalledKeeps(ExpirePending(s, now), stalled, now, env);
    var r := ExpireStalled(ExpirePending(s, now), stalled, now, env);
    if r.ok {
      AdvanceDeadlineKeeps(r.s, now);
      BeginStopKeeps(AdvanceDeadline(r.s, now), now, env);
      InvariantSafe(AdvanceDeadline(r.s, now));
    }
  }

  lemma InvariantSafe(s: State)
    requires Invariant(s)
    ensures Safe(s)
  {
    hide Shape, ServerOk, ClientOk, Recorded, KeptOk, Linked, Connections;
  }

  /** Process events respect the order in which a process worker reports. */
  predicate AdmissibleTurn(s: State, turn: Turn, env: Env) {
    var r := Prologue(s, turn.now, turn.stalled, env);
    r.ok && turn.event.Some? ==> Admissible(r.s, turn.event.value)
  }

  lemma TurnKeeps(s: State, turn: Turn, env: Env)
    requires Invariant(s) && AdmissibleTurn(s, turn, env)
    ensures Kept(ServeTurn(s, turn, env))
  {
    hide Invariant, Safe, Prologue, Dispatch, BeginStop, Admissible;
    PrologueKeeps(s, turn.now, turn.stalled, env);
    var r := Prologue(s, turn.now, turn.stalled, env);
    if r.ok {
      InvariantSafe(r.s);
      if !r.s.lifecycle.Stopped? && turn.event.Some? {
        BeginStopKeeps(r.s, turn.later, env);
        DispatchKeeps(r.s, turn.event.value, turn.later, env);
      }
    }
  }

  // ----- runs

  predicate AdmissibleReports(s: State, reports: seq<Report>, env: Env)
    decreases |reports|
  {
    s.lifecycle.Running? || reports == [] ||
      (var event := Process(reports[0].generation, reports[0].event);
       var r := Dispatch(s, event, reports[0].now, env);
       Admissible(s, event) && (r.ok ==> AdmissibleReports(r.s, reports[1..], env)))
  }

  predicate AdmissibleTurns(s: State, turns: seq<Turn>, env: Env)
    decreases |turns|
  {
    turns == [] || s.lifecycle.Stopped? ||
      (var r := ServeTurn(s, turns[0], env);
       AdmissibleTurn(s, turns[0], env) && (r.ok ==> AdmissibleTurns(r.s, turns[1..], env)))
  }

  /** The environment of a run: every process worker reports in its order. */
  predicate AdmissibleRun(now: nat, reports: seq<Report>, turns: seq<Turn>, env: Env) {
    var s0 := StartUpstream(NewDaemon(now), true, env);
    s0.ok ==>
      && AdmissibleReports(s0.s, reports, env)
      && var s1 := Boot(now, reports, env);
         s1.ok ==> AdmissibleTurns(s1.s, turns, env)
  }

  lemma {:induction false} TurnsKeep(s: State, turns: seq<Turn>, env: Env)
    requires Invariant(s) && AdmissibleTurns(s, turns, env)
    ensures Kept(Serve(s, turns, env))
    decreases |turns|
  {
    hide Invariant, Safe, ServeTurn, AdmissibleTurn;
    InvariantSafe(s);
    if turns != [] && !s.lifecycle.Stopped? {
      TurnKeeps(s, turns[0], env);
      if ServeTurn(s, turns[0], env).ok { TurnsKeep(ServeTurn(s, turns[0], env).s, turns[1..], env); }
    }
  }

  /** While the first server is starting nothing but its start, or an error, ends the wait. */
  lemma BootStep(s: State, report: Report, env: Env)
    requires s.lifecycle.Starting? && s.lifecycle.initial && s.process == Some(s.lifecycle.generation)
    ensures var r := Dispatch(s, Process(report.generation, report.event), report.now, env);
            r.s.stopRequested == s.stopRequested && (r.ok ==> r.s.lifecycle.Running? || r.s.lifecycle == s.lifecycle)
  {
    hide ForwardInitialize, FailPendingInitialize, HandleProcessExit;
    var s1 := ExpirePending(s, report.now);
    if report.event.Started? && s.process == Some(report.generation) {
      var s2 := AttachUpstream(s1.(past := s1.past.(announced := true)), report.generation);
      if s2.pendingInitialize.Some? { ForwardSame(s2.(pendingInitialize := None), s2.pendingInitialize.value, env); }
    } else if report.event.Exited? { ExitIgnored(s1, report.generation, report.now, env); }
  }

  lemma ForwardSame(s: State, init: PendingInitialize, env: Env)
    ensures var r := ForwardInitialize(s, init, env);
            r.s.stopRequested == s.stopRequested && r.s.lifecycle == s.lifecycle
  {
    hide Fingerprint;
  }

  lemma ExitIgnored(s: State, generation: nat, now: nat, env: Env)
    requires s.lifecycle.Starting?
    ensures HandleProcessExit(s, generation, now, env) == Out(s, true)
  {
  }

  lemma {:induction false} ReportsKeep(s: State, reports: seq<Report>, env: Env)
    requires Invariant(s) && !s.stopRequested && AdmissibleReports(s, reports, env)
    requires s.lifecycle.Running? || (s.lifecycle.Starting? && s.lifecycle.initial)
    ensures var r := AwaitInitial(s, reports, env);
            Kept(r) && (r.ok ==> !r.s.stopRequested)
    decreases |reports|
  {
    hide Shape, ServerOk, ClientOk, Recorded, KeptOk, Linked, Connections, Dispatch, Admissible;
    if reports != [] && !s.lifecycle.Running? {
      var event := Process(reports[0].generation, reports[0].event);
      StartingProcess(s);
      DispatchKeeps(s, event, reports[0].now, env);
      BootStep(s, reports[0], env);
      var r := Dispatch(s, event, reports[0].now, env);
      if r.ok { ReportsKeep(r.s, reports[1..], env); }
    }
  }

  lemma StartingProcess(s: State)
    requires Invariant(s) && s.lifecycle.Starting?
    ensures s.process == Some(s.lifecycle.generation)
  {
    hide ServerOk, ClientOk, Recorded, KeptOk, Linked, Connections;
  }

  lemma AcceptingKeeps(s: State)
    requires Invariant(s)
    ensures Invariant(s.(accepting := true))
  {
    hide Shape, ServerOk, ClientOk, Recorded, KeptOk, Linked, Connections;
  }

  lemma NewDaemonStarts(now: nat, env: Env)
    ensures var r := StartUpstream(NewDaemon(now), true, env);
            Kept(r) && (r.ok ==> !r.s.stopRequested && r.s.lifecycle.Starting? && r.s.lifecycle.initial)
  {
    StartUpstreamKeeps(NewDaemon(now), true, env);
  }

  lemma BootKeeps(now: nat, reports: seq<Report>, env: Env)
    requires var s0 := StartUpstream(NewDaemon(now), true, env); s0.ok ==> AdmissibleReports(s0.s, reports, env)
    ensures Kept(Boot(now, reports, env))
  {
    hide Invariant, Safe, StartUpstream, AwaitInitial, AdmissibleReports;
    NewDaemonStarts(now, env);
    var s0 := StartUpstream(NewDaemon(now), true, env);
    if s0.ok {
      ReportsKeep(s0.s, reports, env);
      var s1 := AwaitInitial(s0.s, reports, env);
      if s1.ok { AcceptingKeeps(s1.s); InvariantSafe(s1.s.(accepting := true)); }
    }
  }

  /** Every state that a run of the daemon reaches satisfies the invariant; a run that fails
      still leaves streams of messages that are in order. */
  lemma RunKeeps(now: nat, reports: seq<Report>, turns: seq<Turn>, env: Env)
    requires AdmissibleRun(now, reports, turns, env)
    ensures Kept(Run(now, reports, turns, env))
  {
    hide Invariant, Safe, StartUpstream, Boot, Serve, AdmissibleReports, AdmissibleTurns;
    NewDaemonStarts(now, env);
    BootFails(now, reports, env);
    if StartUpstream(NewDaemon(now), true, env).ok {
      BootKeeps(now, reports, env);
      var s1 := Boot(now, reports, env);
      if s1.ok { TurnsKeep(s1.s, turns, env); InvariantSafe(s1.s); }
    }
  }

  lemma BootFails(now: nat, reports: seq<Report>, env: Env)
    ensures var s0 := StartUpstream(NewDaemon(now), true, env);
            !s0.ok ==> Boot(now, reports, env) == s0
  {
    hide StartUpstream, AwaitInitial;
  }
}
