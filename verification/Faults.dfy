/** What the daemon does not survive: exactly the events, turns and runs that end it with an error. */
module Faults {
  import opened Json
  import LifecycleProofs
  import Shutdowns
  import opened Protocol
  import opened Streams
  import opened Coordinator
  import opened Invariants
  import opened Effects
  import opened Frames
  import opened Turns
  import opened LoopProofs
  import opened Theorems

  // ----- one event

  /** What is owed is what would be written if the output workers accepted everything. */
  function Willing(env: Env): Env { env.(write := (n: nat) => true) }

  /** A message is owed, and its output worker refuses it. */
  predicate Undelivered(s: State, owed: Effect, env: Env) {
    (owed.toServer != [] || owed.toClient != []) && !env.write(s.attempts)
  }

  /** A client leaves by an exit notification, except in the middle of the handshake. */
  predicate Leaves(phase: Phase, m: Message) { m.name == ExitMethod && !phase.WaitingForInitialized? }

  /** An initialize for another workspace or to a server that has not answered its first one, or a stop that
      is not a request. */
  predicate Unusable(s: State, m: Message, env: Env)
    requires s.client.Some?
  {
    match s.client.value.phase
    case WaitingForInitialize =>
      && m.name == Initialize && m.id.Some?
      && (!Initializes(m, env) || Asked(s.upstream, Normal(m, env)))
    case Ready => m.name == StopMethod && m.id == None
    case _ => false
  }

  /** An initialize that needs another server, when there is none to end first and none can be started. */
  predicate Unstartable(s: State, m: Message, env: Env)
    requires s.client.Some?
  {
    && s.client.value.phase.WaitingForInitialize? && Initializes(m, env)
    && !Fresh(s.upstream) && !Knows(s.upstream, Normal(m, env)) && !Asked(s.upstream, Normal(m, env))
    && s.lifecycle.Absent? && !env.spawn(s.generation + 1)
  }

  /** Which messages of the active client end the daemon. */
  predicate SayingEnds(s: State, m: Message, env: Env)
    requires s.client.Some?
  {
    || Undelivered(s, Said(s, m, Willing(env)), env)
    || (s.upstream == None && Passed(s, m, env) != [])
    || Unusable(s, m, env)
    || Unstartable(s, m, env)
    || (Leaves(s.client.value.phase, m) && !CanLeave(s.client.value, env))
  }

  /** And which messages of the server do. */
  predicate TellingEnds(s: State, m: Message, env: Env)
    requires s.upstream.Some?
  {
    || Undelivered(s, Told(s, m, Willing(env)), env)
    || (!IsShutdownReply(m) && (!m.decodable || (m.name == NotAString && m.id.Some?)))
  }

  predicate IsClient(s: State, g: nat) { g !in s.pending && s.client.Some? && s.client.value.generation == g }

  /** Which reports of a process do. */
  predicate ReportEnds(s: State, g: nat, report: ProcessEvent, env: Env) {
    var lc := s.lifecycle;
    || Undelivered(s, Reported(s, g, report, Willing(env)), env)
    || (s.process == Some(g) && lc.Starting? && lc.generation == g && report.Started? && !env.attach(g))
    || (s.process == Some(g) && lc.Starting? && lc.generation == g && report.StartFailed? && lc.initial)
    || (s.process == Some(g) && lc.Leaving() && lc.generation == g && lc.after == Restart && report.Exited?
        && !env.spawn(s.generation + 1))
  }

  /** Which events end the daemon, in a state in which all waiting connections are in time. */
  predicate Ends(s: State, event: Event, now: nat, env: Env) {
    match event
    case AcceptError => true
    case Accepted(at) =>
      now < at + HANDSHAKE_TIMEOUT && |s.pending| < MAX_PENDING_CONNECTIONS && !env.spawn(s.generation + 1)
    case Reader(FromClient(g), read) =>
      if g in s.pending then Admits(s, g, read, env) && SayingEnds(Admitted(s, g), read.m, env)
      else
        && IsClient(s, g)
        && (match read
            case Received(m) => SayingEnds(s, m, env)
            case EndOfStream => !CanLeave(s.client.value, env)
            case ReadError => true)
    case Reader(FromServer(g), read) =>
      && Generation(s.upstream) == Some(g)
      && (match read
          case Received(m) => TellingEnds(s, m, env)
          case EndOfStream => false
          case ReadError => true)
    case Writer(FromClient(g), written) =>
      && IsClient(s, g) && (written.Completed? ==> s.client.value.disconnectAfterWrite == Some(written.id))
      && !CanLeave(s.client.value, env)
    case Writer(FromServer(_), _) => false
    case Process(g, report) => ReportEnds(s, g, report, env)
  }

  // ----- the messages of a client

  predicate Served(s: State) { s.lifecycle.Running? ==> s.upstream.Some? }

  lemma InitializeEnds(s: State, m: Message, now: nat, env: Env)
    requires s.client.Some? && s.client.value.phase.WaitingForInitialize? && Served(s)
    requires m.name == Initialize && m.id.Some?
    ensures HandleInitialize(s, m, now, env).ok <==> !SayingEnds(s, m, env)
  {
    hide NormalizeInitialize, Fingerprint, WantsBackgroundWork, IdKey, CanLeave;
  }

  lemma EarlyEnds(s: State, m: Message, now: nat, env: Env)
    requires Invariant(s) && Served(s) && s.client.Some? && s.client.value.phase.WaitingForInitialize?
    requires !(m.name == Missing && m.id.Some?)
    ensures HandleBeforeInitialize(s, m, now, env).ok <==> !SayingEnds(s, m, env)
  {
    hide Invariant, Disconnect, HandleInitialize, CanLeave, NormalizeInitialize, Fingerprint;
    if m.name == Initialize && m.id.Some? {
      InitializeEnds(s, m, now, env);
    } else {
      DepartureSucceeds(s, now, env);
    }
  }

  lemma WaitingEnds(s: State, m: Message, now: nat, env: Env)
    requires Invariant(s) && s.client.Some? && s.client.value.phase.WaitingForUpstream?
    requires !(m.name == Missing && m.id.Some?)
    ensures HandleWaitingForUpstream(s, m, now, env).ok <==> !SayingEnds(s, m, env)
  {
    hide Invariant, Disconnect, CanLeave, Initializes;
    DepartureSucceeds(s, now, env);
  }

  lemma HandshakeEnds(s: State, m: Message, forward: bool, env: Env)
    requires s.client.Some? && s.client.value.phase == WaitingForInitialized(forward)
    requires !(m.name == Missing && m.id.Some?)
    ensures HandleBeforeInitialized(s, m, forward, env).ok <==> !SayingEnds(s, m, env)
  {
    hide CanLeave, Initializes;
  }

  lemma ReadyEnds(s: State, m: Message, now: nat, env: Env)
    requires Invariant(s) && s.client.Some? && s.client.value.phase.Ready?
    requires !(m.name == Missing && m.id.Some?)
    ensures HandleReady(s, m, now, env).ok <==> !SayingEnds(s, m, env)
  {
    hide Invariant, Disconnect, CanLeave, Initializes, IdKey;
    DepartureSucceeds(s, now, env);
  }

  lemma ResponseEnds(s: State, m: Message, env: Env)
    requires s.client.Some? && m.name == Missing && m.id.Some?
    ensures HandleClientResponse(s, m, IdKey(m.id.value), env).ok <==> !SayingEnds(s, m, env)
  {
    hide CanLeave, IdKey;
  }

  lemma MessageEnds(s: State, m: Message, now: nat, env: Env)
    requires Invariant(s) && Served(s) && s.client.Some?
    ensures HandleClientMessage(s, m, now, env).ok <==> !SayingEnds(s, m, env)
  {
    hide Invariant, HandleBeforeInitialize, HandleWaitingForUpstream, HandleBeforeInitialized, HandleReady, Disconnect,
         HandleClientResponse, SayingEnds, Served;
    if m.name == Missing && m.id.Some? {
      ResponseEnds(s, m, env);
    } else {
      match s.client.value.phase
      case WaitingForInitialize => EarlyEnds(s, m, now, env);
      case WaitingForUpstream => WaitingEnds(s, m, now, env);
      case WaitingForInitialized(forward) => HandshakeEnds(s, m, forward, env);
      case WaitingForExit => ExitingEnds(s, m, now, env);
      case Ready => ReadyEnds(s, m, now, env);
    }
  }

  lemma ExitingEnds(s: State, m: Message, now: nat, env: Env)
    requires Invariant(s) && s.client.Some? && s.client.value.phase.WaitingForExit?
    requires !(m.name == Missing && m.id.Some?)
    ensures (m.name == ExitMethod ==> Disconnect(s, now, env).ok) <==> !SayingEnds(s, m, env)
  {
    hide Invariant, Disconnect, CanLeave, Initializes;
    DepartureSucceeds(s, now, env);
  }

  lemma ConnectionEnds(s: State, g: nat, read: ReaderEvent, now: nat, env: Env)
    requires Steady(s) && Served(s) && g in s.pending
    ensures HandlePendingMessage(s, g, read, now, env).ok
       <==> !(Admits(s, g, read, env) && SayingEnds(Admitted(s, g), read.m, env))
  {
    hide SayingEnds, HandleInitialize;
    if Admits(s, g, read, env) { InitializeEnds(Admitted(s, g), read.m, now, env); }
  }

  lemma ClientEnds(s: State, g: nat, read: ReaderEvent, now: nat, env: Env)
    requires Invariant(s) && Served(s) && IsClient(s, g)
    ensures HandleClientEvent(s, read, now, env).ok <==> !Ends(s, Reader(FromClient(g), read), now, env)
  {
    hide Invariant, Served, HandleClientMessage, Disconnect, SayingEnds, CanLeave;
    DepartureSucceeds(s, now, env);
    if read.Received? { MessageEnds(s, read.m, now, env); }
  }

  // ----- the server, the outputs and the processes

  lemma ServerEnds(s: State, g: nat, read: ReaderEvent, now: nat, env: Env)
    requires Generation(s.upstream) == Some(g)
    ensures HandleServerEvent(s, read, now, env).ok <==> !Ends(s, Reader(FromServer(g), read), now, env)
  {
    hide IdKey, RequestKeys, HandleShutdownReply, UpstreamFailed;
  }

  lemma OutputEnds(s: State, source: Source, written: WriterEvent, now: nat, env: Env)
    requires Invariant(s)
    ensures HandleWriterEvent(s, source, written, now, env).ok <==> !Ends(s, Writer(source, written), now, env)
  {
    hide Disconnect, CanLeave, UpstreamFailed, HandleLifecycleWrite, ServerOk, ClientOk, Recorded, KeptOk, Linked,
         Connections, Stage, Shape;
    if s.client.Some? {
      DepartureSucceeds(s, now, env);
      DepartureSucceeds(s.(stopRequested := true), now, env);
    }
  }

  lemma ProcessEnds(s: State, g: nat, report: ProcessEvent, env: Env, now: nat)
    requires Invariant(s)
    ensures HandleProcessEvent(s, g, report, now, env).ok <==> !ReportEnds(s, g, report, env)
  {
    hide ServerOk, ClientOk, Recorded, KeptOk, Linked, Connections, Stage, IdKey;
  }

  /** An event ends the daemon exactly if the table says so. */
  lemma DispatchEnds(s: State, event: Event, now: nat, env: Env)
    requires Invariant(s)
    ensures Dispatch(s, event, now, env).ok <==> !Ends(ExpirePending(s, now), event, now, env)
  {
    hide Invariant, ExpirePending, SayingEnds, TellingEnds, ReportEnds, CanLeave, HandlePendingMessage,
         HandleClientEvent, HandleServerEvent, HandleWriterEvent, HandleProcessEvent, Served, Ends;
    ExpirePendingKeeps(s, now);
    var e := ExpirePending(s, now);
    SteadyState(e);
    ServedState(e);
    match event
    case Accepted(_) => AcceptanceEnds(e, event, now, env);
    case AcceptError => AcceptanceEnds(e, event, now, env);
    case Reader(FromClient(g), read) =>
      ReadEnds(e, g, read, now, env);
    case Reader(FromServer(g), read) =>
      if Generation(e.upstream) == Some(g) {
        ServerEnds(e, g, read, now, env);
      } else {
        StrangerEnds(e, g, read, now, env);
      }
    case Writer(source, written) => OutputEnds(e, source, written, now, env);
    case Process(g, report) =>
      ProcessEnds(e, g, report, env, now);
      ReportedEnds(e, g, report, env, now);
  }

  lemma ReportedEnds(s: State, g: nat, report: ProcessEvent, env: Env, now: nat)
    ensures Ends(s, Process(g, report), now, env) == ReportEnds(s, g, report, env)
  {
  }

  lemma ServedState(s: State)
    requires Invariant(s)
    ensures Served(s)
  {
    hide ServerOk, ClientOk, Linked, Recorded, KeptOk, Stage, Connections;
  }

  lemma AcceptanceEnds(s: State, event: Event, now: nat, env: Env)
    requires event.Accepted? || event.AcceptError?
    ensures (event.AcceptError? || !AcceptPending(s, event.acceptedAt, now, env).ok) <==> Ends(s, event, now, env)
  {
  }

  lemma StrangerEnds(s: State, g: nat, read: ReaderEvent, now: nat, env: Env)
    requires Generation(s.upstream) != Some(g)
    ensures !Ends(s, Reader(FromServer(g), read), now, env)
  {
  }

  lemma ReadEnds(s: State, g: nat, read: ReaderEvent, now: nat, env: Env)
    requires Invariant(s) && Served(s) && Steady(s)
    ensures Ends(s, Reader(FromClient(g), read), now, env)
       <==> if g in s.pending then !HandlePendingMessage(s, g, read, now, env).ok
            else s.client.Some? && s.client.value.generation == g && !HandleClientEvent(s, read, now, env).ok
  {
    hide Invariant, Served, Steady, SayingEnds, CanLeave, HandlePendingMessage, HandleClientEvent, Admits;
    if g in s.pending {
      ConnectionEnds(s, g, read, now, env);
    } else if IsClient(s, g) {
      ClientEnds(s, g, read, now, env);
    }
  }

  // ----- turns and runs

  /** The server stalls, and takes the client with it. */
  predicate TakesClient(s: State, stalled: set<Source>) {
    && s.upstream.Some? && FromServer(s.upstream.value.generation) in stalled
    && (s.lifecycle.Leaving() ==> s.lifecycle.after == NoServer)
  }

  /** A client that cannot leave is to be dropped, because its output has stalled or a stop begins. */
  predicate DroppingEnds(s: State, stalled: set<Source>, env: Env) {
    && s.client.Some? && !CanLeave(s.client.value, env)
    && (FromClient(s.client.value.generation) in stalled
        || (s.stopRequested && !s.lifecycle.IsStopping() && !TakesClient(s, stalled)))
  }

  /** Which turns end the daemon. */
  predicate TurnEnds(s: State, turn: Turn, env: Env) {
    || DroppingEnds(s, turn.stalled, env)
    || (Handles(s, turn, env) && Ends(Before(s, turn, env), turn.event.value, turn.later, env))
  }

  lemma StopEnds(s: State, now: nat, env: Env)
    requires Invariant(s)
    ensures BeginStop(s, now, env).ok <==> (s.client.Some? ==> CanLeave(s.client.value, env))
  {
    hide ServerOk, ClientOk, Recorded, KeptOk, Linked, Stage, Disconnect, CanLeave, Shape;
    var s0 := s.(stopRequested := true, accepting := false, pending := map[]);
    ShrinkKeeps(s, map[]);
    RequestedKeeps(s.(pending := map[]));
    if s.client.Some? { DepartureSucceeds(s0, now, env); } else { NobodyLeaves(s0, now, env); }
  }

  lemma NobodyLeaves(s: State, now: nat, env: Env)
    requires s.client == None
    ensures Disconnect(s, now, env) == Out(s, true)
  {
  }

  lemma RequestedKeeps(s: State)
    requires Invariant(s)
    ensures Invariant(s.(stopRequested := true, accepting := false))
  {
    hide ServerOk, ClientOk, Recorded, KeptOk, Linked, Stage, Shape, Connections;
  }

  lemma PrologueEnds(s: State, now: nat, stalled: set<Source>, env: Env)
    requires Invariant(s)
    ensures Prologue(s, now, stalled, env).ok <==> !DroppingEnds(s, stalled, env)
  {
    hide Invariant, ExpirePending, ExpireStalled, BeginStop, CanLeave, Safe;
    ExpirePendingKeeps(s, now);
    ExpireIs(s, now);
    var s0 := ExpirePending(s, now);
    StallEnds(s0, stalled, now, env);
    ExpireStalledKeeps(s0, stalled, now, env);
    var s1 := ExpireStalled(s0, stalled, now, env);
    if s1.ok {
      LifecycleProofs.AdvanceDeadlineKeeps(s1.s, now);
      StopEnds(AdvanceDeadline(s1.s, now), now, env);
    }
  }

  lemma StallEnds(s: State, stalled: set<Source>, now: nat, env: Env)
    requires Invariant(s)
    ensures var r := ExpireStalled(s, stalled, now, env);
            && (r.ok <==> !(s.client.Some? && !CanLeave(s.client.value, env)
                            && FromClient(s.client.value.generation) in stalled))
            && (r.s.client.Some? ==> r.s.client == s.client)
            && (r.ok && s.client.Some? && !CanLeave(s.client.value, env) ==>
                  && (TakesClient(s, stalled) ==> r.s.client == None)
                  && (!TakesClient(s, stalled) ==> r.s.client == s.client && r.s.stopRequested == s.stopRequested)
                  && (!TakesClient(s, stalled) ==> r.s.lifecycle.IsStopping() == s.lifecycle.IsStopping()))
  {
    hide ServerOk, ClientOk, Recorded, KeptOk, Linked, Connections, Stage, Disconnect, CanLeave, Shape;
    var s1 := s.(pending := map g | g in s.pending && FromClient(g) !in stalled :: s.pending[g]);
    ShrinkKeeps(s, s1.pending);
    Shutdowns.Leaves(s1, now, env);
    if s.client.Some? { DepartureSucceeds(s1, now, env); }
  }

  lemma TurnFails(s: State, turn: Turn, env: Env)
    requires Invariant(s)
    ensures ServeTurn(s, turn, env).ok <==> !TurnEnds(s, turn, env)
  {
    hide Invariant, Prologue, BeginStop, Dispatch, CanLeave, ExpirePending, Safe, Ends, DroppingEnds;
    PrologueKeeps(s, turn.now, turn.stalled, env);
    PrologueEnds(s, turn.now, turn.stalled, env);
    var p := Prologue(s, turn.now, turn.stalled, env);
    if p.ok {
      StopEnds(p.s, turn.later, env);
      if turn.event.Some? { DispatchEnds(p.s, turn.event.value, turn.later, env); }
    }
  }

  /** One of the turns ends the daemon, before it has stopped by itself. */
  predicate SomeTurnEnds(s: State, turns: seq<Turn>, env: Env) {
    exists k | 0 <= k < |turns| :: Reaches(s, turns[..k], env) && TurnEnds(Serve(s, turns[..k], env).s, turns[k], env)
  }

  predicate Reaches(s: State, turns: seq<Turn>, env: Env) {
    Serve(s, turns, env).ok && !Serve(s, turns, env).s.lifecycle.Stopped?
  }

  /** So a run fails exactly if it reaches a turn that ends the daemon. */
  lemma {:induction false} ServeFails(s: State, turns: seq<Turn>, env: Env)
    requires Invariant(s) && AdmissibleTurns(s, turns, env)
    ensures Serve(s, turns, env).ok <==> !SomeTurnEnds(s, turns, env)
    decreases |turns|
  {
    hide Invariant, ServeTurn, AdmissibleTurn, Safe, TurnEnds;
    if s.lifecycle.Stopped? {
      forall k | 0 <= k < |turns| ensures !Reaches(s, turns[..k], env) {}
    } else if turns != [] {
      var r := ServeTurn(s, turns[0], env);
      TurnFails(s, turns[0], env);
      TurnKeeps(s, turns[0], env);
      assert Reaches(s, turns[..0], env) && Serve(s, turns[..0], env).s == s;
      forall k | 0 < k < |turns|
        ensures var rest := turns[1..][..k - 1];
                && (Reaches(s, turns[..k], env) <==> r.ok && Reaches(r.s, rest, env))
                && (r.ok ==> Serve(s, turns[..k], env).s == Serve(r.s, rest, env).s)
      {
        assert turns[..k][0] == turns[0] && turns[..k][1..] == turns[1..][..k - 1];
      }
      if r.ok {
        ServeFails(r.s, turns[1..], env);
        Shifted(s, r.s, turns, env);
      }
    }
  }

  lemma Shifted(s: State, s1: State, turns: seq<Turn>, env: Env)
    requires turns != [] && !TurnEnds(s, turns[0], env) && Serve(s, turns[..0], env).s == s
    requires forall k | 0 < k < |turns| ::
               var rest := turns[1..][..k - 1];
               && (Reaches(s, turns[..k], env) <==> Reaches(s1, rest, env))
               && Serve(s, turns[..k], env).s == Serve(s1, rest, env).s
    ensures SomeTurnEnds(s, turns, env) <==> SomeTurnEnds(s1, turns[1..], env)
  {
    hide Reaches, TurnEnds, Serve;
    if SomeTurnEnds(s1, turns[1..], env) {
      var j :| 0 <= j < |turns[1..]| && Reaches(s1, turns[1..][..j], env)
               && TurnEnds(Serve(s1, turns[1..][..j], env).s, turns[1..][j], env);
      assert Reaches(s, turns[..j + 1], env) && TurnEnds(Serve(s, turns[..j + 1], env).s, turns[j + 1], env);
    }
    if SomeTurnEnds(s, turns, env) {
      var k :| 0 <= k < |turns| && Reaches(s, turns[..k], env) && TurnEnds(Serve(s, turns[..k], env).s, turns[k], env);
      assert k > 0;
      assert turns[1..][k - 1] == turns[k];
    }
  }

  /** From the start of the daemon, once its first server runs. */
  lemma RunFails(now: nat, reports: seq<Report>, turns: seq<Turn>, env: Env)
    requires AdmissibleRun(now, reports, turns, env)
    requires Boot(now, reports, env).ok && Boot(now, reports, env).s.lifecycle.Running?
    ensures Run(now, reports, turns, env).ok <==> !SomeTurnEnds(Boot(now, reports, env).s, turns, env)
  {
    hide Boot, Serve, SomeTurnEnds, AdmissibleReports, AdmissibleTurns, Invariant, Safe, StartUpstream;
    BootFails(now, reports, env);
    BootKeeps(now, reports, env);
    ServeFails(Boot(now, reports, env).s, turns, env);
  }
}
