/** When a server has to be restarted for the next session, and when it need not be. */
module Restarts {
  import opened Json
  import opened Protocol
  import opened Streams
  import opened Coordinator
  import opened Invariants
  import opened Effects
  import opened Frames
  import opened Sessions
  import opened Turns
  import opened LoopProofs
  import opened Theorems
  import opened Transcripts

  // ----- which servers are no longer like fresh ones

  /** The current server registers a capability, or fails the initialize that the active client waits
      for. */
  predicate Spoils(s: State, event: Event) {
    && event.Reader? && event.source.FromServer? && Generation(s.upstream) == Some(event.source.generation)
    && event.read.Received? && event.read.m.decodable && event.read.m.id.Some?
    && var m := event.read.m;
       if m.name == Missing then
         && m.error && m.id != Some(SHUTDOWN_ID)
         && s.client.Some? && s.client.value.phase == WaitingForInitialized(true)
         && IdKey(m.id.value) in s.client.value.forwarded && IdKey(m.id.value) !in s.orphaned
       else m.name == Registration
  }

  lemma SpoilsIs(s: State, event: Event, env: Env)
    ensures EffectOf(s, event, env).taint <==> Spoils(s, event)
  {
    hide Passed, Replies, IdKey, Admits;
  }

  /** The generations of the servers that the turns spoil. */
  function Spoilt(s: State, turns: seq<Turn>, env: Env): set<nat>
    decreases |turns|
  {
    if turns == [] || s.lifecycle.Stopped? then {}
    else
      var r := ServeTurn(s, turns[0], env);
      TurnSpoils(s, turns[0], env) + if r.ok then Spoilt(r.s, turns[1..], env) else {}
  }

  function TurnSpoils(s: State, turn: Turn, env: Env): set<nat> {
    if Handles(s, turn, env) && Spoils(Before(s, turn, env), turn.event.value)
    then {turn.event.value.source.generation} else {}
  }

  function RunSpoilt(now: nat, reports: seq<Report>, turns: seq<Turn>, env: Env): set<nat> {
    var b := Boot(now, reports, env);
    if b.ok && b.s.lifecycle.Running? then Spoilt(b.s, turns, env) else {}
  }

  /** The coordinator remembers exactly the servers that were spoilt. */
  predicate Remembers(s: State, spoilt: set<nat>) {
    && (s.upstream.Some? ==> (Tainted(s.upstream) <==> s.upstream.value.generation in spoilt))
    && (forall g | g in spoilt :: Generation(s.upstream) == Some(g) || Over(s, g))
  }

  lemma StepRemembers(s: State, s': State, e: Effect, spoilt: set<nat>)
    requires Remembers(s, spoilt) && Step(s, s', e) && (e.taint ==> s.upstream.Some?)
    requires s.upstream.Some? ==> s.upstream.value.generation <= s.generation && !s.lifecycle.Starting?
    ensures Remembers(s', spoilt + if e.taint then {s.upstream.value.generation} else {})
  {
    hide Read, Traffic, Stages;
    StillOver(s, s', e);
    if Dropped(s, s', e) { assert Over(s', s.upstream.value.generation); }
    if Attached(s, s', e) {
      var g := s'.upstream.value.generation;
      assert !Over(s, g);
    }
  }

  lemma QuietRemembers(s: State, s': State, spoilt: set<nat>)
    requires Remembers(s, spoilt) && Quiet(s, s', NONE)
    requires s.upstream.Some? ==> s.upstream.value.generation <= s.generation && !s.lifecycle.Starting?
    ensures Remembers(s', spoilt)
  {
    hide Remembers, Quiet, Step, Conversed;
    QuietStep(s, s', NONE);
    StepRemembers(s, s', NONE, spoilt);
    assert spoilt + {} == spoilt;
  }

  lemma TurnRemembers(s: State, turn: Turn, env: Env, spoilt: set<nat>)
    requires Invariant(s) && Remembers(s, spoilt)
    ensures Remembers(ServeTurn(s, turn, env).s, spoilt + TurnSpoils(s, turn, env))
  {
    hide Invariant, Remembers, Prologue, Dispatch, BeginStop, EffectOf, Quiet, Step, Conversed, Steady, Safe, Spoils;
    var p := Prologue(s, turn.now, turn.stalled, env);
    SteadyState(s);
    PrologueKeeps(s, turn.now, turn.stalled, env);
    PrologueQuiet(s, turn.now, turn.stalled, env);
    QuietRemembers(s, p.s, spoilt);
    assert spoilt + {} == spoilt;
    if p.ok { SteadyState(p.s); }
    if Handles(s, turn, env) {
      var b, event := Before(s, turn, env), turn.event.value;
      DispatchStep(p.s, event, turn.later, env);
      SpoilsIs(b, event, env);
      ExpireIs(p.s, turn.later);
      if Spoils(b, event) { SpoilsCurrent(b, event); }
      StepRemembers(p.s, ServeTurn(s, turn, env).s, EffectOf(b, event, env), spoilt);
    } else if p.ok {
      StopQuiet(p.s, turn.later, env);
      QuietRemembers(p.s, BeginStop(p.s, turn.later, env).s, spoilt);
    }
  }

  lemma SpoilsCurrent(s: State, event: Event)
    requires Spoils(s, event)
    ensures event.Reader? && s.upstream.Some? && s.upstream.value.generation == event.source.generation
  {
  }

  lemma {:induction false} ServeRemembers(s: State, turns: seq<Turn>, env: Env, spoilt: set<nat>)
    requires Invariant(s) && AdmissibleTurns(s, turns, env) && Remembers(s, spoilt)
    ensures Remembers(Serve(s, turns, env).s, spoilt + Spoilt(s, turns, env))
    decreases |turns|
  {
    hide Invariant, Remembers, ServeTurn, AdmissibleTurn, TurnSpoils, Safe;
    if turns == [] || s.lifecycle.Stopped? {
      assert spoilt + {} == spoilt;
    } else {
      var r, d := ServeTurn(s, turns[0], env), TurnSpoils(s, turns[0], env);
      TurnRemembers(s, turns[0], env, spoilt);
      TurnKeeps(s, turns[0], env);
      if r.ok {
        ServeRemembers(r.s, turns[1..], env, spoilt + d);
        assert spoilt + d + Spoilt(r.s, turns[1..], env) == spoilt + (d + Spoilt(r.s, turns[1..], env));
      } else {
        assert spoilt + (d + {}) == spoilt + d;
      }
    }
  }

  lemma UnspokenRemembers(s: State)
    requires Unspoken(s)
    ensures Remembers(s, {})
  {
  }

  /** In every run the current server is marked for a restart exactly if a turn has spoilt it. */
  lemma RunRemembers(now: nat, reports: seq<Report>, turns: seq<Turn>, env: Env)
    requires AdmissibleRun(now, reports, turns, env)
    ensures Remembers(Run(now, reports, turns, env).s, RunSpoilt(now, reports, turns, env))
  {
    hide Unspoken, Boot, Serve, Spoilt, AdmissibleReports, AdmissibleTurns, Invariant, Safe, StartUpstream, Remembers;
    var b := Boot(now, reports, env);
    BootedUnspoken(now, reports, env);
    UnspokenRemembers(b.s);
    if b.ok && b.s.lifecycle.Running? {
      BootFails(now, reports, env);
      BootKeeps(now, reports, env);
      ServeRemembers(b.s, turns, env, {});
      assert {} + Spoilt(b.s, turns, env) == Spoilt(b.s, turns, env);
    }
  }

  // ----- a spoilt server serves nobody else

  /** While a spoilt server goes on running, and no stop is requested, the active client is the one it
      was: nobody has left, and nobody has come. */
  predicate Holds(s: State, r: Out) {
    r.ok && Tainted(s.upstream) && Generation(r.s.upstream) == Generation(s.upstream)
    && r.s.lifecycle.Running? && !r.s.stopRequested ==>
      ClientGeneration(r.s.client) == ClientGeneration(s.client)
  }

  lemma ShutdownLeaves(s: State, after: AfterExit, now: nat, env: Env)
    requires s.upstream.Some? && BeginShutdown(s, after, now, env).ok
    ensures !BeginShutdown(s, after, now, env).s.lifecycle.Running?
  {
  }

  lemma RestartLeaves(s: State, now: nat, env: Env)
    requires s.upstream.Some? && BeginRestart(s, now, env).ok
    ensures !BeginRestart(s, now, env).s.lifecycle.Running?
  {
    hide BeginShutdown;
    if s.lifecycle.Running? { ShutdownLeaves(s, Restart, now, env); }
  }

  lemma DisconnectHolds(s: State, now: nat, env: Env)
    ensures Holds(s, Disconnect(s, now, env))
  {
    hide Settle, BeginRestart, DropClient, Same;
    if s.client.Some? {
      var s1 := Settle(DropClient(s), s.client.value, env).s;
      SettleSame(DropClient(s), s.client.value, env);
      KeptServer(s);
      SettledSame(DropClient(s), s1);
      if BeginRestart(s1, now, env).ok && s1.upstream.Some? { RestartLeaves(s1, now, env); }
    }
  }

  lemma SettledSame(s: State, s': State)
    requires Same(s, s', NONE)
    ensures Tainted(s'.upstream) == Tainted(s.upstream) && s'.lifecycle == s.lifecycle
    ensures s'.upstream.Some? == s.upstream.Some? && s'.stopRequested == s.stopRequested
  {
  }

  /** A step that keeps the client keeps it. */
  lemma SameHolds(s: State, s': State, ok: bool)
    requires ClientGeneration(s'.client) == ClientGeneration(s.client)
    ensures Holds(s, Out(s', ok))
  {
  }

  lemma ServeHolds(s: State, init: PendingInitialize, now: nat, env: Env)
    ensures Tainted(s.upstream) && ServeInitialize(s, init, now, env).ok ==>
              !ServeInitialize(s, init, now, env).s.lifecycle.Running?
    ensures !Tainted(s.upstream) ==>
              Holds(s, ServeInitialize(s, init, now, env))
  {
    hide BeginRestart, ForwardInitialize, EnqueueClient, SetPhase;
    var s1 := SetPhase(s.(pendingInitialize := Some(init)), WaitingForUpstream);
    PhaseKeeps(s.(pendingInitialize := Some(init)), WaitingForUpstream);
    if BeginRestart(s1, now, env).ok && s1.upstream.Some? { RestartLeaves(s1, now, env); }
  }

  lemma PhaseKeeps(s: State, phase: Phase)
    ensures SetPhase(s, phase).upstream == s.upstream
    ensures ClientGeneration(SetPhase(s, phase).client) == ClientGeneration(s.client)
  {
  }

  lemma InitializeHolds(s: State, m: Message, now: nat, env: Env)
    requires m.id.Some? && m.name == Initialize
    ensures Tainted(s.upstream) && HandleInitialize(s, m, now, env).ok ==>
              !HandleInitialize(s, m, now, env).s.lifecycle.Running?
  {
    hide ServeInitialize, Fingerprint, NormalizeInitialize, WantsBackgroundWork;
    if Initializes(m, env) {
      var normal := Normal(m, env);
      var init := PendingInitialize(m.id.value, normal, Fingerprint(normal), WantsBackgroundWork(normal));
      ServeHolds(s, init, now, env);
    }
  }

  lemma TellKeeps(s: State, e: ToClient, env: Env)
    ensures ClientGeneration(EnqueueClient(s, e, env).s.client) == ClientGeneration(s.client)
  {
  }

  lemma WriteKeeps(s: State, e: ToServer, env: Env)
    ensures WriteUpstream(s, e, env).s.client == s.client
  {
  }

  lemma StopRequestKeeps(s: State, id: Value, env: Env)
    ensures ClientGeneration(HandleStop(s, id, env).s.client) == ClientGeneration(s.client)
  {
  }

  lemma ForwardKeeps(s: State, m: Message, env: Env)
    ensures ClientGeneration(ForwardMessage(s, m, env).s.client) == ClientGeneration(s.client)
  {
    hide IdKey, WriteUpstream;
    var s1 := TrackDocument(s, m);
    WriteKeeps(s1, Forwarded(m), env);
    if m.RequestId().Some? && s1.client.Some? {
      WriteKeeps(s1.(client := Some(RecordRequest(s1.client.value, IdKey(m.RequestId().value)))), Forwarded(m), env);
    }
  }

  lemma ResponseKeeps(s: State, m: Message, key: string, env: Env)
    ensures ClientGeneration(HandleClientResponse(s, m, key, env).s.client) == ClientGeneration(s.client)
  {
    hide WriteUpstream;
    if s.client.Some? {
      var c := s.client.value;
      WriteKeeps(s.(client := Some(c.(serverRequests := c.serverRequests - {key}))), Answer(m), env);
    }
  }

  lemma EarlyHolds(s: State, m: Message, now: nat, env: Env)
    requires s.client.Some?
    ensures Holds(s, HandleBeforeInitialize(s, m, now, env)) && Holds(s, HandleWaitingForUpstream(s, m, now, env))
  {
    hide HandleInitialize, Disconnect, HandleStop, EnqueueClient, Quiet;
    DisconnectHolds(s, now, env);
    if m.id.Some? {
      if m.name == Initialize { InitializeHolds(s, m, now, env); }
      StopRequestKeeps(s, m.id.value, env);
      TellKeeps(s, Failure(m.id.value), env);
    }
  }

  lemma LateHolds(s: State, m: Message, forward: bool, now: nat, env: Env)
    requires s.client.Some?
    ensures Holds(s, HandleBeforeInitialized(s, m, forward, env)) && Holds(s, HandleReady(s, m, now, env))
  {
    hide WriteUpstream, Disconnect, HandleStop, EnqueueClient, SetPhase, ForwardMessage;
    DisconnectHolds(s, now, env);
    WriteKeeps(s, InitializedNotice(m), env);
    var s1 := if forward then WriteUpstream(s, InitializedNotice(m), env).s else s;
    PhaseKeeps(s1, Ready);
    TellKeeps(SetPhase(s1, Ready), BackgroundReady, env);
    ForwardKeeps(s, m, env);
    PhaseKeeps(s, WaitingForExit);
    if m.id.Some? {
      StopRequestKeeps(s, m.id.value, env);
      TellKeeps(s, Failure(m.id.value), env);
      TellKeeps(SetPhase(s, WaitingForExit), Success(m.id.value), env);
    }
  }

  lemma MessageHolds(s: State, m: Message, now: nat, env: Env)
    requires s.client.Some?
    ensures Holds(s, HandleClientMessage(s, m, now, env))
  {
    hide HandleClientResponse, HandleBeforeInitialize, HandleWaitingForUpstream, HandleBeforeInitialized, HandleReady,
         Disconnect, IdKey, Holds;
    DisconnectHolds(s, now, env);
    SameHolds(s, s, true);
    if m.ResponseId().Some? {
      var key := IdKey(m.ResponseId().value);
      var r := HandleClientResponse(s, m, key, env);
      ResponseKeeps(s, m, key, env);
      SameHolds(s, r.s, r.ok);
    }
    EarlyHolds(s, m, now, env);
    LateHolds(s, m, true, now, env);
    LateHolds(s, m, false, now, env);
  }

  lemma AdmittedHolds(s: State, g: nat, read: ReaderEvent, now: nat, env: Env)
    requires Admits(s, g, read, env) && s.pending[g].client.phase == WaitingForInitialize
    ensures Holds(s, HandlePendingMessage(s, g, read, now, env))
  {
    hide HandleInitialize, NormalizeInitialize;
    InitializeHolds(Admitted(s, g), read.m, now, env);
  }

  lemma PendingHolds(s: State, g: nat, read: ReaderEvent, now: nat, env: Env)
    requires Steady(s) && g in s.pending
    ensures Holds(s, HandlePendingMessage(s, g, read, now, env))
  {
    hide HandleClientMessage, NormalizeInitialize;
    if Admits(s, g, read, env) { AdmittedHolds(s, g, read, now, env); }
  }

  lemma ServerHolds(s: State, read: ReaderEvent, now: nat, env: Env)
    requires s.upstream.Some?
    ensures Holds(s, HandleServerEvent(s, read, now, env))
  {
    hide HandleShutdownReply, HandleUpstreamMessage, UpstreamFailed, Same, Quiet;
    FailedLeaves(s);
    if read.Received? {
      ReplyLeaves(s, now, env);
      if !IsShutdownReply(read.m) {
        UpstreamMessageSame(s, read.m, env);
        SameClient(s, HandleUpstreamMessage(s, read.m, env).s, Told(s, read.m, env));
      }
    }
  }

  lemma SameClient(s: State, s': State, e: Effect)
    requires Same(s, s', e)
    ensures ClientGeneration(s'.client) == ClientGeneration(s.client)
  {
  }

  lemma FailedLeaves(s: State)
    ensures s.upstream.Some? ==> !UpstreamFailed(s).lifecycle.Running?
  {
  }

  lemma ReplyLeaves(s: State, now: nat, env: Env)
    ensures HandleShutdownReply(s, now, env) == s || !HandleShutdownReply(s, now, env).lifecycle.Running?
  {
  }

  lemma WriterHolds(s: State, source: Source, event: WriterEvent, now: nat, env: Env)
    ensures Holds(s, HandleWriterEvent(s, source, event, now, env))
  {
    hide Disconnect, UpstreamFailed, Arm;
    DisconnectHolds(s, now, env);
    DisconnectHolds(s.(stopRequested := true), now, env);
    FailedLeaves(s);
    ArmKeeps(s, ForExit);
  }

  lemma ArmKeeps(s: State, stage: ShutdownStage)
    ensures Arm(s, stage).client == s.client
  {
  }

  lemma ProcessHolds(s: State, g: nat, event: ProcessEvent, now: nat, env: Env)
    requires Steady(s)
    ensures Holds(s, HandleProcessEvent(s, g, event, now, env))
  {
    hide ResumePendingInitialize, AttachUpstream, HandleProcessExit;
    if event.Exited? { ExitHolds(s, g, now, env); }
  }

  lemma ExitHolds(s: State, g: nat, now: nat, env: Env)
    ensures Holds(s, HandleProcessExit(s, g, now, env))
  {
    hide DropUpstream, StartUpstream;
    DropUpstreamIs(s);
    StartIs(DropUpstream(s).(process := None, orphaned := {}), env);
  }

  lemma DispatchHolds(s: State, event: Event, now: nat, env: Env)
    requires Steady(s)
    ensures Holds(s, Dispatch(s, event, now, env))
  {
    hide HandlePendingMessage, HandleWriterEvent, HandleClientEvent, HandleServerEvent, HandleProcessEvent,
         AcceptPending, ExpirePending, Steady;
    var s1 := ExpirePending(s, now);
    ExpireIs(s, now);
    match event
    case Accepted(at) => AcceptKeepsClient(s1, at, now, env);
    case Reader(source, read) =>
      if source.generation in s1.pending { PendingHolds(s1, source.generation, read, now, env); }
      if s1.client.Some? { ClientEventHolds(s1, read, now, env); }
      if s1.upstream.Some? { ServerHolds(s1, read, now, env); }
    case Writer(source, written) => WriterHolds(s1, source, written, now, env);
    case Process(g, e) => ProcessHolds(s1, g, e, now, env);
    case _ =>
  }

  lemma AcceptKeepsClient(s: State, at: nat, now: nat, env: Env)
    ensures AcceptPending(s, at, now, env).s.client == s.client
  {
  }

  lemma ClientEventHolds(s: State, event: ReaderEvent, now: nat, env: Env)
    requires s.client.Some?
    ensures Holds(s, HandleClientEvent(s, event, now, env))
  {
    hide Disconnect, HandleClientMessage;
    DisconnectHolds(s, now, env);
    if event.Received? { MessageHolds(s, event.m, now, env); }
  }

  lemma PrologueHolds(s: State, now: nat, stalled: set<Source>, env: Env)
    ensures Holds(s, Prologue(s, now, stalled, env))
  {
    hide Disconnect, UpstreamFailed, BeginStop, Quiet;
    var s0 := ExpirePending(s, now);
    var s1 := s0.(pending := map g | g in s0.pending && FromClient(g) !in stalled :: s0.pending[g]);
    DisconnectHolds(s1, now, env);
    DisconnectQuiet(s1, now, env);
    QuietMeans(s1, Disconnect(s1, now, env).s, NONE);
    FailedLeaves(s1);
    FailedLeaves(Disconnect(s1, now, env).s);
    var s2 := ExpireStalled(s0, stalled, now, env);
    if s2.ok { StopStops(AdvanceDeadline(s2.s, now), now, env); }
  }

  lemma StopStops(s: State, now: nat, env: Env)
    ensures BeginStop(s, now, env).s.stopRequested
  {
    hide Disconnect, StopStage, Quiet;
    var s0 := s.(stopRequested := true, accepting := false, pending := map[]);
    DisconnectQuiet(s0, now, env);
    QuietMeans(s0, Disconnect(s0, now, env).s, NONE);
    StageQuiet(Disconnect(s0, now, env).s, now, env);
    QuietMeans(Disconnect(s0, now, env).s, StopStage(Disconnect(s0, now, env).s, now, env).s, NONE);
  }

  lemma TurnBarred(s: State, turn: Turn, env: Env)
    requires Invariant(s) && AdmissibleTurn(s, turn, env)
    ensures var s' := ServeTurn(s, turn, env).s;
            s.upstream.Some? && Generation(s'.upstream) == Generation(s.upstream) ==>
              Barred(s, s') && Excludes(s, s')
  {
    hide Invariant, Prologue, Dispatch, BeginStop, Steady, Safe, Calm, Still, Talked, Doomed, Barred, Shut, Quiet;
    var p, s' := Prologue(s, turn.now, turn.stalled, env), ServeTurn(s, turn, env).s;
    PrologueKeeps(s, turn.now, turn.stalled, env);
    PrologueQuiet(s, turn.now, turn.stalled, env);
    QuietMeans(s, p.s, NONE);
    TalkedShut(s, p.s, NONE);
    QuietExcludes(s, p.s);
    NothingQuiet(p.s);
    QuietMeans(p.s, p.s, NONE);
    TalkedShut(p.s, p.s, NONE);
    if p.ok {
      StopQuiet(p.s, turn.later, env);
      var b := BeginStop(p.s, turn.later, env).s;
      QuietMeans(p.s, b, NONE);
      TalkedShut(p.s, b, NONE);
      if turn.event.Some? {
        SteadyState(p.s);
        Announced(p.s);
        DispatchBarred(p.s, turn.event.value, turn.later, env);
        DispatchStep(p.s, turn.event.value, turn.later, env);
        ConversedSame(p.s, Dispatch(p.s, turn.event.value, turn.later, env).s,
                      EffectOf(ExpirePending(p.s, turn.later), turn.event.value, env));
      }
      TalkedSame(p.s, b, NONE);
      BarredAfter(s, p.s, s');
    }
  }

  /** A spoilt server has the live session it had, or none. */
  predicate Excludes(s: State, s': State) {
    Tainted(s.upstream) && s'.client.Some? && Live(s'.client.value.phase) ==>
      && ClientGeneration(s'.client) == ClientGeneration(s.client)
      && s.client.Some? && Live(s.client.value.phase)
  }

  lemma QuietExcludes(s: State, s': State)
    requires Quiet(s, s', NONE)
    ensures Excludes(s, s') && SameTaint(s, s')
  {
  }

  predicate SameTaint(s: State, s': State) {
    Tainted(s'.upstream) == Tainted(s.upstream) && Generation(s'.upstream) == Generation(s.upstream)
    && (s'.client.Some? ==> s.client.Some? && ClientGeneration(s'.client) == ClientGeneration(s.client))
  }

  /** Whoever is the client after a step was it before, or came from the waiting connections to take the
      place of nobody. */
  lemma ConversedSame(s: State, s': State, e: Effect)
    requires Conversed(s, s', e)
    ensures s.client.Some? && s'.client.Some? ==> ClientGeneration(s'.client) == ClientGeneration(s.client)
  {
  }

  lemma TalkedSame(s: State, s': State, e: Effect)
    requires Talked(s, s', e)
    ensures s.client.Some? && s'.client.Some? ==> ClientGeneration(s'.client) == ClientGeneration(s.client)
  {
  }

  lemma BarredAfter(s: State, p: State, s': State)
    requires s.upstream.Some? && Generation(s'.upstream) == Generation(s.upstream) ==> Barred(p, s') && Shut(p, s')
    requires p.client.Some? && s'.client.Some? ==> ClientGeneration(s'.client) == ClientGeneration(p.client)
    requires Barred(s, p) && Excludes(s, p) && SameTaint(s, p)
    ensures s.upstream.Some? && Generation(s'.upstream) == Generation(s.upstream) ==> Barred(s, s') && Excludes(s, s')
  {
  }

  lemma TurnHolds(s: State, turn: Turn, env: Env)
    requires Invariant(s) && AdmissibleTurn(s, turn, env)
    ensures Holds(s, ServeTurn(s, turn, env))
  {
    hide Invariant, Prologue, Dispatch, BeginStop, Steady, Safe, Calm, Still, Talked, Doomed, Barred, Quiet;
    var p, r := Prologue(s, turn.now, turn.stalled, env), ServeTurn(s, turn, env);
    PrologueKeeps(s, turn.now, turn.stalled, env);
    PrologueQuiet(s, turn.now, turn.stalled, env);
    QuietMeans(s, p.s, NONE);
    QuietExcludes(s, p.s);
    PrologueHolds(s, turn.now, turn.stalled, env);
    if p.ok && turn.event.Some? {
      SteadyState(p.s);
      Announced(p.s);
      StopStops(p.s, turn.later, env);
      DispatchHolds(p.s, turn.event.value, turn.later, env);
      DispatchBarred(p.s, turn.event.value, turn.later, env);
      if p.s.upstream.Some? && Generation(r.s.upstream) == Generation(p.s.upstream) && Barred(p.s, r.s) {
        RunningBefore(p.s, r.s);
      }
    }
  }

  lemma RunningBefore(s: State, s': State)
    requires Barred(s, s') && s.upstream.Some?
    ensures s'.lifecycle.Running? ==> s.lifecycle.Running?
    ensures s.stopRequested ==> s'.stopRequested
  {
  }

  // ----- over the rest of a run

  /** What a spoilt server is to the sessions after state `s`, at which it was spoilt already. */
  predicate Reserved(s: State, r: Out) {
    && Excludes(s, r.s) && Holds(s, r) && Tainted(r.s.upstream)
    && (r.s.lifecycle.Running? ==> s.lifecycle.Running?) && (s.stopRequested ==> r.s.stopRequested)
  }

  lemma TurnReserved(s: State, turn: Turn, env: Env)
    requires Invariant(s) && AdmissibleTurn(s, turn, env) && Tainted(s.upstream)
    ensures var r := ServeTurn(s, turn, env);
            Over(r.s, s.upstream.value.generation)
            || (Generation(r.s.upstream) == Generation(s.upstream) && Reserved(s, r))
  {
    hide Invariant, ServeTurn, Prologue, TurnEffect, Over, Holds, Excludes, Barred, Steady, Safe, Onward, Step,
         AdmissibleTurn;
    var r := ServeTurn(s, turn, env);
    TurnOnward(s, turn, env);
    TurnHolds(s, turn, env);
    TurnBarred(s, turn, env);
    if !Over(r.s, s.upstream.value.generation) {
      StillThere(s, r.s);
      RunningBefore(s, r.s);
      StaysTainted(s, turn, env);
    }
  }

  lemma StaysTainted(s: State, turn: Turn, env: Env)
    requires Invariant(s) && Tainted(s.upstream)
    requires Generation(ServeTurn(s, turn, env).s.upstream) == Generation(s.upstream)
    ensures Tainted(ServeTurn(s, turn, env).s.upstream)
  {
    hide Invariant, ServeTurn, Prologue, TurnEffect, Steady, Safe, Aged;
    PrologueKeeps(s, turn.now, turn.stalled, env);
    var p := Prologue(s, turn.now, turn.stalled, env);
    if p.ok { SteadyState(p.s); }
    TurnStep(s, turn, env);
  }

  lemma ReservedThrough(a: State, b: Out, c: Out)
    requires b.ok && Reserved(a, b) && Reserved(b.s, c)
    requires Generation(b.s.upstream) == Generation(a.upstream) && Generation(c.s.upstream) == Generation(b.s.upstream)
    ensures Reserved(a, c)
  {
  }

  lemma NothingReserved(s: State)
    requires Tainted(s.upstream)
    ensures Reserved(s, Out(s, true))
  {
  }

  lemma {:induction false} ServeReserved(s: State, turns: seq<Turn>, env: Env)
    requires Invariant(s) && AdmissibleTurns(s, turns, env) && Tainted(s.upstream)
    ensures var r := Serve(s, turns, env);
            Over(r.s, s.upstream.value.generation)
            || (Generation(r.s.upstream) == Generation(s.upstream) && Reserved(s, r))
    decreases |turns|
  {
    hide Invariant, ServeTurn, AdmissibleTurn, Over, Reserved, Safe;
    if turns == [] || s.lifecycle.Stopped? {
      NothingReserved(s);
    } else {
      var r := ServeTurn(s, turns[0], env);
      TurnKeeps(s, turns[0], env);
      TurnReserved(s, turns[0], env);
      if r.ok {
        if Over(r.s, s.upstream.value.generation) {
          OverForGood(r.s, turns[1..], s.upstream.value.generation, env);
        } else {
          ReservedTainted(s, r);
          ServeReserved(r.s, turns[1..], env);
          if Generation(Serve(r.s, turns[1..], env).s.upstream) == Generation(r.s.upstream)
            && Reserved(r.s, Serve(r.s, turns[1..], env))
          {
            ReservedThrough(s, r, Serve(r.s, turns[1..], env));
          }
        }
      }
    }
  }

  lemma ReservedTainted(s: State, r: Out)
    requires Reserved(s, r)
    ensures Tainted(r.s.upstream)
  {
  }

  /** Once a turn has spoilt a server, that server serves no other session. However the run goes on, as long
      as it is the current server: the only session that can be live is the one that was live then; as
      soon as the client has changed, the server no longer runs, unless a stop is requested; and when
      nobody was there, it no longer runs once somebody is. */
  lemma SpoiltServesNobodyElse(now: nat, reports: seq<Report>, before: seq<Turn>, after: seq<Turn>, env: Env)
    requires AdmissibleRun(now, reports, before, env) && Run(now, reports, before, env).ok
    requires AdmissibleTurns(Run(now, reports, before, env).s, after, env)
    requires var s := Run(now, reports, before, env).s;
             s.upstream.Some? && s.upstream.value.generation in RunSpoilt(now, reports, before, env)
    ensures var s, r := Run(now, reports, before, env).s, Serve(Run(now, reports, before, env).s, after, env);
            Generation(r.s.upstream) == Generation(s.upstream) ==>
              && (r.s.client.Some? && Live(r.s.client.value.phase) ==>
                    s.client.Some? && Live(s.client.value.phase)
                      && r.s.client.value.generation == s.client.value.generation)
              && (r.ok && ClientGeneration(r.s.client) != ClientGeneration(s.client) && !r.s.stopRequested ==>
                    !r.s.lifecycle.Running?)
  {
    hide Run, Serve, AdmissibleRun, AdmissibleTurns, RunSpoilt, Invariant, Safe, Over;
    var s, r := Run(now, reports, before, env).s, Serve(Run(now, reports, before, env).s, after, env);
    RunKeeps(now, reports, before, env);
    RunRemembers(now, reports, before, env);
    ServeReserved(s, after, env);
    if Generation(r.s.upstream) == Generation(s.upstream) { NotOver(r.s, s.upstream.value.generation); }
  }

  lemma NotOver(s: State, g: nat)
    requires Generation(s.upstream) == Some(g)
    ensures !Over(s, g)
  {
  }

  // ----- what a spoilt server is not asked, and what a fresh one answers

  /** The servers whose answer the turns pass on to a later session, or that they ask an initialize. */
  function Used(s: State, turns: seq<Turn>, env: Env): set<nat>
    decreases |turns|
  {
    if turns == [] || s.lifecycle.Stopped? then {}
    else
      var r := ServeTurn(s, turns[0], env);
      TurnUses(s, turns[0], env) + if r.ok then Used(r.s, turns[1..], env) else {}
  }

  function TurnUses(s: State, turn: Turn, env: Env): set<nat> {
    if Handles(s, turn, env) && Uses(TurnEffect(s, turn, env)) then {Audience(Before(s, turn, env), turn.event.value)}
      else {}
  }

  predicate Uses(e: Effect) {
    (exists x | x in e.toServer :: x.InitializeRequest?) || exists x | x in e.toClient :: x.CachedInitialize?
  }

  lemma SaidUses(s: State, m: Message, env: Env)
    requires s.client.Some? && Tainted(s.upstream)
    ensures !Uses(Said(s, m, env))
  {
    hide NormalizeInitialize, IdKey;
  }

  lemma ToldUses(s: State, m: Message, env: Env)
    requires s.upstream.Some?
    ensures !Uses(Told(s, m, env))
  {
    hide IdKey;
  }

  lemma EventUses(s: State, event: Event, env: Env)
    requires Tainted(s.upstream) && Steady(s)
    ensures !Uses(EffectOf(s, event, env))
  {
    hide Said, Told, Admits, Uses, Steady;
    NothingUsed();
    if event.Reader? && event.read.Received? {
      if event.source.FromClient? && s.client.Some? { SaidUses(s, event.read.m, env); }
      if event.source.FromClient? && event.source.generation in s.pending {
        SaidUses(Admitted(s, event.source.generation), event.read.m, env);
      }
      if s.upstream.Some? { ToldUses(s, event.read.m, env); }
    }
    if event.Process? { ReportUses(s, event.generation, event.event, env); }
    if event.Reader? && event.source.FromClient? && Admits(s, event.source.generation, event.read, env) {
      AdmitsNobody(s, event.source.generation, event.read, env);
    }
  }

  lemma NothingUsed()
    ensures !Uses(NONE)
  {
  }

  lemma ReportUses(s: State, g: nat, event: ProcessEvent, env: Env)
    requires Tainted(s.upstream) && Steady(s)
    ensures !Uses(Reported(s, g, event, env))
  {
  }

  lemma TurnNotUsed(s: State, turn: Turn, env: Env)
    requires Invariant(s) && Tainted(s.upstream)
    ensures s.upstream.value.generation !in TurnUses(s, turn, env)
  {
    hide Invariant, Prologue, EffectOf, Steady, Safe, Uses, Quiet;
    PrologueKeeps(s, turn.now, turn.stalled, env);
    PrologueQuiet(s, turn.now, turn.stalled, env);
    var p := Prologue(s, turn.now, turn.stalled, env).s;
    QuietExcludes(s, p);
    if Handles(s, turn, env) {
      SteadyState(p);
      ExpireIs(p, turn.later);
      EventUses(Before(s, turn, env), turn.event.value, env);
    }
  }

  lemma TurnNotOver(s: State, turn: Turn, g: nat, env: Env)
    requires Invariant(s) && Over(s, g)
    ensures g !in TurnUses(s, turn, env)
  {
    hide Invariant, Prologue, EffectOf, Steady, Safe, Uses, Over, Quiet;
    PrologueKeeps(s, turn.now, turn.stalled, env);
    PrologueQuiet(s, turn.now, turn.stalled, env);
    var p := Prologue(s, turn.now, turn.stalled, env).s;
    QuietStep(s, p, NONE);
    StaysOver(s, p, g, NONE);
    if Handles(s, turn, env) {
      ExpireOver(p, turn.later, g);
      OverUnused(Before(s, turn, env), turn.event.value, g, env);
    }
  }

  lemma ExpireOver(s: State, now: nat, g: nat)
    requires Over(s, g)
    ensures Over(ExpirePending(s, now), g)
  {
  }

  lemma OverUnused(s: State, event: Event, g: nat, env: Env)
    requires Over(s, g)
    ensures Uses(EffectOf(s, event, env)) ==> Audience(s, event) != g
  {
    hide Said, Told, Admits, Uses, Reported;
    NothingUsed();
    if s.upstream == None {
      if event.Reader? && event.source.FromClient? && event.read.Received? {
        if s.client.Some? { SaidAlone(s, event.read.m, env); }
        if event.source.generation in s.pending { SaidAlone(Admitted(s, event.source.generation), event.read.m, env); }
        if Admits(s, event.source.generation, event.read, env) {
          AdmitsNobody(s, event.source.generation, event.read, env);
        }
      } else if event.Process? {
        ReportAlone(s, event.generation, event.event, env);
      } else if event.Reader? && event.source.FromClient? && Admits(s, event.source.generation, event.read, env) {
        AdmitsNobody(s, event.source.generation, event.read, env);
      }
    }
  }

  lemma ReportAlone(s: State, g: nat, event: ProcessEvent, env: Env)
    ensures Uses(Reported(s, g, event, env)) ==> s.lifecycle.Starting? && s.process == Some(g)
  {
  }

  lemma SaidAlone(s: State, m: Message, env: Env)
    requires s.client.Some? && s.upstream == None
    ensures !Uses(Said(s, m, env))
  {
    hide NormalizeInitialize, IdKey;
  }

  lemma {:induction false} OverNotUsed(s: State, turns: seq<Turn>, g: nat, env: Env)
    requires Invariant(s) && AdmissibleTurns(s, turns, env) && Over(s, g)
    ensures g !in Used(s, turns, env)
    decreases |turns|
  {
    hide Invariant, ServeTurn, AdmissibleTurn, Over, TurnUses, Safe;
    if turns != [] && !s.lifecycle.Stopped? {
      var r := ServeTurn(s, turns[0], env);
      TurnKeeps(s, turns[0], env);
      TurnNotOver(s, turns[0], g, env);
      TurnOver(s, turns[0], g, env);
      if r.ok { OverNotUsed(r.s, turns[1..], g, env); }
    }
  }

  lemma {:induction false} ServeNotUsed(s: State, turns: seq<Turn>, env: Env)
    requires Invariant(s) && AdmissibleTurns(s, turns, env) && Tainted(s.upstream)
    ensures s.upstream.value.generation !in Used(s, turns, env)
    decreases |turns|
  {
    hide Invariant, ServeTurn, AdmissibleTurn, Over, TurnUses, Reserved, Safe;
    if turns != [] && !s.lifecycle.Stopped? {
      var r, g := ServeTurn(s, turns[0], env), s.upstream.value.generation;
      TurnKeeps(s, turns[0], env);
      TurnNotUsed(s, turns[0], env);
      TurnReserved(s, turns[0], env);
      if r.ok {
        if Over(r.s, g) {
          OverNotUsed(r.s, turns[1..], g, env);
        } else {
          ReservedTainted(s, r);
          ServeNotUsed(r.s, turns[1..], env);
        }
      }
    }
  }

  /** And in no later turn is that server sent an initialize, or is a session answered with what it
      answered to an earlier one. */
  lemma SpoiltIsNotUsed(now: nat, reports: seq<Report>, before: seq<Turn>, after: seq<Turn>, env: Env)
    requires AdmissibleRun(now, reports, before, env) && Run(now, reports, before, env).ok
    requires AdmissibleTurns(Run(now, reports, before, env).s, after, env)
    requires var s := Run(now, reports, before, env).s;
             s.upstream.Some? && s.upstream.value.generation in RunSpoilt(now, reports, before, env)
    ensures var s := Run(now, reports, before, env).s;
            s.upstream.value.generation !in Used(s, after, env)
  {
    hide Run, AdmissibleRun, AdmissibleTurns, RunSpoilt, Used, Invariant, Safe, Over;
    RunKeeps(now, reports, before, env);
    RunRemembers(now, reports, before, env);
    ServeNotUsed(Run(now, reports, before, env).s, after, env);
  }

  /** Conversely: as long as no turn has spoilt it, a server that was sent an initialize with the same
      parameters, and whose result is recorded, need not be asked again. A connection that waits is
      answered with that result. */
  lemma UnspoiltAnswers(now: nat, reports: seq<Report>, before: seq<Turn>, g: nat, m: Message, env: Env)
    requires AdmissibleRun(now, reports, before, env) && Run(now, reports, before, env).ok
    requires var s := Run(now, reports, before, env).s;
             && s.upstream.Some? && s.upstream.value.generation !in RunSpoilt(now, reports, before, env)
             && s.upstream.value.result.Some?
             && Initializes(m, env) && FirstInit(s.upstream.value.log.sent).Some?
             && FirstInit(s.upstream.value.log.sent).value.1 == Normal(m, env)
             && s.client == None && g in s.pending && env.write(s.attempts)
    ensures var s := Run(now, reports, before, env).s;
            EffectOf(s, Reader(FromClient(g), Received(m)), env)
            == Effect([], [CachedInitialize(m.id.value, s.upstream.value.result.value)], false,
                      [Wants(WantsBackgroundWork(Normal(m, env))), Enters(WaitingForInitialized(false))])
  {
    hide Run, AdmissibleRun, RunSpoilt, Over, Fingerprint, NormalizeInitialize, FirstInit, InitOrder, Shape, ClientOk,
         Linked, Recorded, KeptOk;
    var s := Run(now, reports, before, env).s;
    RunKeeps(now, reports, before, env);
    RunRemembers(now, reports, before, env);
    assert s.pending[g].client.phase == WaitingForInitialize;
  }

  /** The result of an initialize is recorded when its answer comes. */
  lemma ResultRecorded(s: State, m: Message, now: nat, env: Env)
    requires s.upstream.Some? && m.decodable && m.name == Missing && m.id.Some? && m.id != Some(SHUTDOWN_ID) && !m.error
    requires s.client.Some? && s.client.value.phase == WaitingForInitialized(true) && Awaits(s, IdKey(m.id.value))
    ensures var s' := Dispatch(s, Reader(FromServer(s.upstream.value.generation), Received(m)), now, env).s;
            s'.upstream.Some? && s'.upstream.value.result == m.result
  {
    hide IdKey, EnqueueClient, RequestKeys;
    var s0 := ExpirePending(s, now);
    var key := IdKey(m.id.value);
    var s1 := RecordReply(s0, m, key);
    var s2 := s1.(client := Some(s1.client.value.(forwarded := s1.client.value.forwarded - {key})));
    TellKeepsServer(CacheInitialize(s2, m), Routed(key), env);
  }

  lemma TellKeepsServer(s: State, e: ToClient, env: Env)
    ensures EnqueueClient(s, e, env).s.upstream == s.upstream
  {
  }
}
