/** How servers and the daemon come to an end: what each event does to a shutdown, what a server is told,
    and what requests a stop. */
module Shutdowns {
  import opened Json
  import DepartureProofs
  import LifecycleProofs
  import Order
  import opened Protocol
  import opened Streams
  import opened Coordinator
  import opened Invariants
  import opened Effects
  import opened Frames
  import opened Sessions
  import opened Turns
  import opened LoopProofs
  import opened Theorems
  import opened Transcripts

  // ----- what a server is told

  /** Every server, the current one and those that have ended, has been told to shut down as far as its
      shutdown has come. */
  predicate AllParted(s: State) {
    Parted(s.upstream) && forall up | up in s.past.servers :: Parted(Some(up))
  }

  lemma StepParted(s: State, s': State, e: Effect)
    requires AllParted(s) && Step(s, s', e)
    ensures AllParted(s')
  {
    hide Traffic, Letters, Farewell, Aged;
    if Dropped(s, s', e) {
      var n := |s.past.servers|;
      forall up | up in s'.past.servers ensures Parted(Some(up)) {
        var k :| 0 <= k < |s'.past.servers| && s'.past.servers[k] == up;
        if k < n { assert up == s'.past.servers[..n][k]; }
      }
    }
  }

  lemma TurnParted(s: State, turn: Turn, env: Env)
    requires Invariant(s) && AllParted(s)
    ensures AllParted(ServeTurn(s, turn, env).s)
  {
    hide Invariant, Prologue, ServeTurn, TurnEffect, Steady, Step, Safe, AllParted;
    PrologueKeeps(s, turn.now, turn.stalled, env);
    var p := Prologue(s, turn.now, turn.stalled, env);
    if p.ok { SteadyState(p.s); }
    TurnStep(s, turn, env);
    StepParted(s, ServeTurn(s, turn, env).s, TurnEffect(s, turn, env));
  }

  lemma {:induction false} ServeParted(s: State, turns: seq<Turn>, env: Env)
    requires Invariant(s) && AdmissibleTurns(s, turns, env) && AllParted(s)
    ensures AllParted(Serve(s, turns, env).s)
    decreases |turns|
  {
    hide Invariant, AllParted, ServeTurn, AdmissibleTurn, Safe;
    if turns != [] && !s.lifecycle.Stopped? {
      var r := ServeTurn(s, turns[0], env);
      TurnParted(s, turns[0], env);
      TurnKeeps(s, turns[0], env);
      if r.ok { ServeParted(r.s, turns[1..], env); }
    }
  }

  lemma UnspokenParted(s: State)
    requires Unspoken(s) && (s.upstream.Some? ==> s.upstream.value.log.stages == [])
    ensures AllParted(s)
  {
  }

  /** In every run, failed ones included, a server reads one shutdown request when the first deadline of
      its shutdown is set, one exit notification after it when the second is, and neither
      otherwise. */
  lemma ServersParted(now: nat, reports: seq<Report>, turns: seq<Turn>, env: Env)
    requires AdmissibleRun(now, reports, turns, env)
    ensures var s := Run(now, reports, turns, env).s;
            && (s.upstream.Some? ==> ToldToEnd(s.upstream.value))
            && forall up | up in s.past.servers :: ToldToEnd(up)
  {
    hide Unspoken, Boot, Serve, AdmissibleReports, AdmissibleTurns, Invariant, Safe, StartUpstream, AllParted,
         ToldToEnd;
    var b := Boot(now, reports, env);
    BootedUnspoken(now, reports, env);
    BootedEarly(now, reports, env);
    UnspokenParted(b.s);
    if b.ok && b.s.lifecycle.Running? {
      BootFails(now, reports, env);
      BootKeeps(now, reports, env);
      ServeParted(b.s, turns, env);
    }
    EndTold(now, reports, turns, env);
  }

  lemma EndTold(now: nat, reports: seq<Report>, turns: seq<Turn>, env: Env)
    requires AdmissibleRun(now, reports, turns, env) && AllParted(Run(now, reports, turns, env).s)
    ensures var s := Run(now, reports, turns, env).s;
            && (s.upstream.Some? ==> ToldToEnd(s.upstream.value))
            && forall up | up in s.past.servers :: ToldToEnd(up)
  {
    hide Run, AdmissibleRun, Invariant, Delivered, InitOrder, Letters;
    var s := Run(now, reports, turns, env).s;
    RunKeeps(now, reports, turns, env);
    if s.upstream.Some? { Ending(s.upstream.value); }
    forall up | up in s.past.servers ensures ToldToEnd(up) { Ending(up); }
  }

  predicate ToldToEnd(up: Upstream) {
    Letters(up.log.sent) == [ShutdownRequest, ExitNotice][..if |up.log.stages| < 2 then |up.log.stages| else 2]
  }

  lemma Ending(up: Upstream)
    requires Parted(Some(up)) && up.log.stages <= SHUTDOWN_STAGES
    ensures ToldToEnd(up)
  {
    hide Letters;
    var stages := up.log.stages;
    if |stages| == 1 { assert stages == [ForReply]; }
    if |stages| == 2 { assert stages == [ForReply, ForExitWrite]; }
    if |stages| == 3 { assert stages == [ForReply, ForExitWrite, ForExit]; }
    Endings();
  }

  lemma Endings()
    ensures Farewell([]) == [] && Farewell([ForReply]) == [ShutdownRequest]
    ensures Farewell([ForReply, ForExitWrite]) == [ShutdownRequest, ExitNotice]
    ensures Farewell([ForReply, ForExitWrite, ForExit]) == [ShutdownRequest, ExitNotice]
  {
    hide Farewell;
    Nothing();
    Farewell1([], ForReply);
    Farewell1([ForReply], ForExitWrite);
    Farewell1([ForReply, ForExitWrite], ForExit);
    assert [] + [ForReply] == [ForReply] && [ForReply] + [ForExitWrite] == [ForReply, ForExitWrite];
    assert [ForReply, ForExitWrite] + [ForExit] == [ForReply, ForExitWrite, ForExit];
  }

  lemma Nothing()
    ensures Farewell([]) == []
  {
  }

  /** A server is attached without any stage. */
  predicate Early(s: State) { s.upstream.Some? ==> s.upstream.value.log.stages == [] }

  lemma BootEarly(s: State, report: Report, env: Env)
    requires Unspoken(s) && Booting(s) && Early(s)
    ensures var r := Dispatch(s, Process(report.generation, report.event), report.now, env); Early(r.s)
  {
    hide HandleProcessEvent;
    assert ExpirePending(s, report.now) == s;
    ReportEarly(s, report.generation, report.event, report.now, env);
  }

  lemma ReportEarly(s: State, g: nat, event: ProcessEvent, now: nat, env: Env)
    requires Unspoken(s) && Booting(s) && Early(s)
    ensures Early(HandleProcessEvent(s, g, event, now, env).s)
  {
  }

  lemma {:induction false} AwaitEarly(s: State, reports: seq<Report>, env: Env)
    requires Unspoken(s) && Booting(s) && Early(s)
    ensures Early(AwaitInitial(s, reports, env).s)
    decreases |reports|
  {
    hide Unspoken, Booting, Early, Dispatch;
    if reports != [] {
      BootUnspoken(s, reports[0], env);
      BootEarly(s, reports[0], env);
      var r := Dispatch(s, Process(reports[0].generation, reports[0].event), reports[0].now, env);
      if r.ok && !r.s.lifecycle.Running? { AwaitEarly(r.s, reports[1..], env); }
    }
  }

  lemma BootedEarly(now: nat, reports: seq<Report>, env: Env)
    ensures Early(Boot(now, reports, env).s)
  {
    hide AwaitInitial;
    var s0 := StartUpstream(NewDaemon(now), true, env);
    if s0.ok { AwaitEarly(s0.s, reports, env); }
  }

  // ----- how a shutdown goes on

  /** The reply to the shutdown request is answered with an exit notification, and the end of that write
      is awaited with a new deadline; if the notification cannot be written, the server is killed. */
  lemma ReplyAdvances(s: State, m: Message, now: nat, env: Env)
    requires Invariant(s) && s.lifecycle.AwaitingShutdownReply? && m.name == Missing && m.id == Some(SHUTDOWN_ID)
    ensures var lc, r := s.lifecycle, Dispatch(s, Reader(FromServer(s.lifecycle.generation), Received(m)), now, env);
            && r.ok && r.s.upstream.Some?
            && r.s.lifecycle
               == (if env.write(s.attempts)
                   then AwaitingExitWrite(lc.generation, r.s.upstream.value.nextWriteId, now + 2000, lc.after)
                   else Killing(lc.generation, lc.after))
            && r.s.upstream.value.log.sent
               == s.upstream.value.log.sent + if env.write(s.attempts) then [ExitNotice] else []
  {
    hide ServerOk, ClientOk, Recorded, KeptOk, Linked, Connections, ExpirePending, Stage, HandleShutdownReply;
    ExpireIs(s, now);
    ReplyAnswered(ExpirePending(s, now), now, env);
  }

  lemma ReplyAnswered(s: State, now: nat, env: Env)
    requires s.lifecycle.AwaitingShutdownReply? && s.upstream.Some?
    ensures var lc, s' := s.lifecycle, HandleShutdownReply(s, now, env);
            && s'.upstream.Some?
            && s'.lifecycle
               == (if env.write(s.attempts)
                   then AwaitingExitWrite(lc.generation, s'.upstream.value.nextWriteId, now + 2000, lc.after)
                   else Killing(lc.generation, lc.after))
            && s'.upstream.value.log.sent
               == s.upstream.value.log.sent + if env.write(s.attempts) then [ExitNotice] else []
  {
  }

  /** When that write is done, the end of the process is awaited, with the last deadline. */
  lemma WriteAdvances(s: State, at: nat, now: nat, env: Env)
    requires s.lifecycle.AwaitingExitWrite?
    ensures var lc := s.lifecycle;
            var r := Dispatch(s, Writer(FromServer(lc.generation), Completed(lc.writeId, at)), now, env);
            r.ok && r.s.lifecycle == AwaitingExit(lc.generation, at + 2000, lc.after)
  {
    hide ServerOk, ClientOk, Recorded, KeptOk, Linked, Connections, ExpirePending, Stage;
    ExpireIs(s, now);
  }

  /** When the process ends, the aim of the shutdown is met: another server is started, the daemon has
      stopped, or there is neither a server nor a client. */
  lemma ExitAdvances(s: State, now: nat, env: Env)
    requires Invariant(s) && s.lifecycle.Leaving()
    ensures var lc, r := s.lifecycle, Dispatch(s, Process(s.lifecycle.generation, Exited), now, env);
            && r.s.upstream == None && r.s.orphaned == {}
            && match lc.after
               case Restart =>
                 && r.ok == env.spawn(s.generation + 1) && r.s.client == s.client
                 && r.s.pendingInitialize == s.pendingInitialize
                 && (r.ok ==>
                       && r.s.lifecycle == Starting(s.generation + 1, false)
                       && r.s.process == Some(s.generation + 1))
               case Stop => r.ok && r.s.lifecycle == Stopped && r.s.process == None
               case NoServer =>
                 r.ok && r.s.lifecycle == Absent && r.s.process == None && r.s.client == None
                 && r.s.pendingInitialize == None && r.s.idleSince == now
  {
    hide ServerOk, ClientOk, Recorded, KeptOk, Linked, Connections, ExpirePending, Stage, HandleProcessExit;
    ExpireIs(s, now);
    ExpireKeepsRest(s, now);
    ExitEnds(ExpirePending(s, now), now, env);
  }

  lemma ExitEnds(s: State, now: nat, env: Env)
    requires s.lifecycle.Leaving()
    ensures var lc, r := s.lifecycle, HandleProcessExit(s, s.lifecycle.generation, now, env);
            && r.s.upstream == None && r.s.orphaned == {}
            && match lc.after
               case Restart =>
                 && r.ok == env.spawn(s.generation + 1) && r.s.client == s.client
                 && r.s.pendingInitialize == s.pendingInitialize
                 && (r.ok ==>
                       && r.s.lifecycle == Starting(s.generation + 1, false)
                       && r.s.process == Some(s.generation + 1))
               case Stop => r.ok && r.s.lifecycle == Stopped && r.s.process == None
               case NoServer =>
                 r.ok && r.s.lifecycle == Absent && r.s.process == None && r.s.client == None
                 && r.s.pendingInitialize == None && r.s.idleSince == now
  {
  }

  lemma ExpireKeepsRest(s: State, now: nat)
    ensures var s' := ExpirePending(s, now);
            s'.pendingInitialize == s.pendingInitialize && s'.idleSince == s.idleSince && s'.orphaned == s.orphaned
  {
  }

  /** The end of a server that was not being shut down leaves neither server nor client. */
  lemma CrashAdvances(s: State, now: nat, env: Env)
    requires Invariant(s) && s.lifecycle.Running?
    ensures var r := Dispatch(s, Process(s.process.value, Exited), now, env);
            r.ok && r.s.upstream == None && r.s.lifecycle == Absent && r.s.process == None && r.s.client == None
  {
    hide ServerOk, ClientOk, Recorded, KeptOk, Linked, Connections, ExpirePending, Stage;
    ExpireIs(s, now);
  }

  /** The stream of the current server ends or cannot be read, or its output fails. */
  predicate Loses(s: State, event: Event) {
    && s.upstream.Some?
    && var from := FromServer(s.upstream.value.generation);
       || event == Reader(from, EndOfStream) || event == Reader(from, ReadError)
       || (event.Writer? && event.source == from && event.written.Refused?)
  }

  /** A server that is lost is killed. If it was being shut down, the aim stays, and so does a client that
      waits for the next server; otherwise the client goes with it. */
  lemma LostKills(s: State, event: Event, now: nat, env: Env)
    requires Loses(s, event)
    ensures var lc, s' := s.lifecycle, Dispatch(s, event, now, env).s;
            var kept := lc.Leaving() && lc.after != NoServer;
            && s'.lifecycle == Killing(s.upstream.value.generation, if kept then lc.after else NoServer)
            && s'.client == (if kept then s.client else None)
            && s'.pendingInitialize == (if kept then s.pendingInitialize else None)
            && s'.upstream == s.upstream
  {
    hide ExpirePending, UpstreamFailed;
    ExpireIs(s, now);
    ExpireKeepsRest(s, now);
    FailureIs(ExpirePending(s, now));
  }

  lemma FailureIs(s: State)
    requires s.upstream.Some?
    ensures var lc, s' := s.lifecycle, UpstreamFailed(s);
            var kept := lc.Leaving() && lc.after != NoServer;
            && s'.lifecycle == Killing(s.upstream.value.generation, if kept then lc.after else NoServer)
            && s'.client == (if kept then s.client else None)
            && s'.pendingInitialize == (if kept then s.pendingInitialize else None)
            && s'.upstream == s.upstream
  {
  }

  /** A shutdown whose deadline has passed goes on by force in every turn that begins. */
  lemma DeadlineKills(s: State, now: nat, stalled: set<Source>, env: Env)
    requires Invariant(s) && s.lifecycle.Awaiting() && now >= s.lifecycle.deadline
    ensures var p := Prologue(s, now, stalled, env);
            p.ok ==> p.s.lifecycle.Killing? && p.s.lifecycle.generation == s.lifecycle.generation
  {
    hide ServerOk, ClientOk, Recorded, KeptOk, Linked, Connections, Stage, ExpirePending, ExpireStalled, BeginStop;
    ExpireIs(s, now);
    var s1 := ExpireStalled(ExpirePending(s, now), stalled, now, env);
    if s1.ok {
      StalledAwaits(ExpirePending(s, now), stalled, now, env);
      StopKills(AdvanceDeadline(s1.s, now), now, env);
    }
  }

  /** Dropping stalled outputs may kill a server that is being shut down, but leaves its deadline alone. */
  lemma StalledAwaits(s: State, stalled: set<Source>, now: nat, env: Env)
    requires s.lifecycle.Awaiting() && (s.upstream.Some? ==> s.upstream.value.generation == s.lifecycle.generation)
    ensures var lc := ExpireStalled(s, stalled, now, env).s.lifecycle;
            lc == s.lifecycle || (lc.Killing? && lc.generation == s.lifecycle.generation)
  {
    hide Disconnect, DropClient, Quiet;
    var s1 := s.(pending := map g | g in s.pending && FromClient(g) !in stalled :: s.pending[g]);
    DisconnectAwaits(s1, now, env);
    DisconnectQuiet(s1, now, env);
    QuietMeans(s1, Disconnect(s1, now, env).s, NONE);
  }

  lemma DisconnectAwaits(s: State, now: nat, env: Env)
    requires s.lifecycle.Awaiting() || s.lifecycle.Killing?
    ensures Disconnect(s, now, env).s.lifecycle == s.lifecycle
  {
    hide Settle, DropClient, Same;
    if s.client.Some? {
      SettleSame(DropClient(s), s.client.value, env);
      KeptServer(s);
      SettledLifecycle(DropClient(s), Settle(DropClient(s), s.client.value, env).s);
    }
  }

  lemma SettledLifecycle(s: State, s': State)
    requires Same(s, s', NONE)
    ensures s'.lifecycle == s.lifecycle
  {
  }

  lemma StopKills(s: State, now: nat, env: Env)
    requires s.lifecycle.Killing?
    ensures var lc := BeginStop(s, now, env).s.lifecycle; lc.Killing? && lc.generation == s.lifecycle.generation
  {
    hide Disconnect;
    DisconnectAwaits(s.(stopRequested := true, accepting := false, pending := map[]), now, env);
  }

  // ----- what requests a stop

  /** A stop that is granted to the active client takes effect when the grant has been written. */
  lemma GrantStops(s: State, m: Message, now: nat, at: nat, later: nat, env: Env)
    requires Invariant(s) && s.client.Some? && m.name == StopMethod && m.id.Some? && env.write(s.attempts)
    requires s.client.value.phase in {WaitingForInitialize, WaitingForUpstream, Ready}
    ensures var g := s.client.value.generation;
            var r := Dispatch(s, Reader(FromClient(g), Received(m)), now, env);
            && r.ok && r.s.client.Some?
            && r.s.client.value.log.sent == s.client.value.log.sent + [Success(m.id.value)]
            && Dispatch(r.s, Writer(FromClient(g), Completed(r.s.client.value.nextWriteId, at)), later,
                        env).s.stopRequested
  {
    hide ServerOk, ClientOk, Recorded, KeptOk, Linked, Shape, ExpirePending, Dispatch, HandleStop;
    ExpireIs(s, now);
    var b := ExpirePending(s, now);
    Grants(s, m, now, env);
    StopGranted(b, m.id.value, env);
    var r := HandleStop(b, m.id.value, env).s;
    ExpireIs(r, later);
    GrantWritten(r, at, later, env);
  }

  lemma Grants(s: State, m: Message, now: nat, env: Env)
    requires s.client.Some? && s.client.value.generation !in s.pending && m.name == StopMethod && m.id.Some?
    requires s.client.value.phase in {WaitingForInitialize, WaitingForUpstream, Ready}
    ensures Dispatch(s, Reader(FromClient(s.client.value.generation), Received(m)), now, env)
         == HandleStop(ExpirePending(s, now), m.id.value, env)
  {
    hide ExpirePending, HandleStop, HandleInitialize, Disconnect, HandleBeforeInitialized, HandleClientResponse;
    ExpireIs(s, now);
  }

  lemma StopGranted(s: State, id: Value, env: Env)
    requires s.client.Some? && env.write(s.attempts)
    ensures var r := HandleStop(s, id, env);
            && r.ok && r.s.pending == s.pending && r.s.client.Some?
            && r.s.client.value.generation == s.client.value.generation
            && r.s.client.value.log.sent == s.client.value.log.sent + [Success(id)]
            && r.s.client.value.stopAfterWrite == Some(r.s.client.value.nextWriteId)
  {
  }

  lemma GrantWritten(s: State, at: nat, now: nat, env: Env)
    requires s.client.Some? && s.client.value.generation !in s.pending
    requires s.client.value.stopAfterWrite == Some(s.client.value.nextWriteId)
    ensures var c := s.client.value;
            Dispatch(s, Writer(FromClient(c.generation), Completed(c.nextWriteId, at)), now, env).s.stopRequested
  {
    hide ExpirePending, Disconnect, Quiet;
    ExpireIs(s, now);
    var a := ExpirePending(s, now).(stopRequested := true);
    DisconnectQuiet(a, now, env);
    QuietMeans(a, Disconnect(a, now, env).s, NONE);
    StopStays(a, Disconnect(a, now, env).s);
  }

  lemma StopStays(s: State, s': State)
    requires Barred(s, s') && s.stopRequested
    ensures s'.stopRequested
  {
  }

  /** A waiting connection that asks for a stop is granted it, and when that has been written the stop is
      requested and the connection closed; any other first message but an initialize for an absent
      client is refused, and its connection closed likewise. */
  lemma WaitingStops(s: State, g: nat, m: Message, now: nat, at: nat, later: nat, env: Env)
    requires g in s.pending && g in ExpirePending(s, now).pending && m.id.Some? && env.write(s.attempts)
    requires m.name == StopMethod || (m.name != Missing && s.client.Some?)
    ensures var r := Dispatch(s, Reader(FromClient(g), Received(m)), now, env);
            && r.ok && g in r.s.pending && r.s.pending[g].closeAfterWrite.Some?
            && var d := Dispatch(r.s, Writer(FromClient(g), Completed(r.s.pending[g].closeAfterWrite.value, at)), later,
                                 env);
               d.ok && g !in d.s.pending
               && (d.s.stopRequested <==> s.stopRequested || m.name == StopMethod || s.pending[g].stopAfterWrite)
  {
    hide ServerOk, ClientOk, Recorded, KeptOk, Linked, Shape, Disconnect, NormalizeInitialize;
  }

  /** A client that was told that there is no server is disconnected when that has been written. */
  lemma RefusedLeaves(s: State, id: nat, at: nat, now: nat, env: Env)
    requires Invariant(s) && s.client.Some? && s.client.value.disconnectAfterWrite == Some(id)
    ensures var d := Dispatch(s, Writer(FromClient(s.client.value.generation), Completed(id, at)), now, env);
            d.ok ==> d.s.client == None
  {
    hide ServerOk, ClientOk, Recorded, KeptOk, Linked, Shape, ExpirePending, Settle, BeginRestart, DropClient;
    ExpireIs(s, now);
    var b := ExpirePending(s, now);
    Leaves(b, now, env);
    Leaves(b.(stopRequested := true), now, env);
  }

  /** A client that waits for a server is told when that cannot be started, and disconnected when it has
      been told. */
  lemma FailureLeaves(s: State, now: nat, at: nat, later: nat, env: Env)
    requires Invariant(s) && s.lifecycle.Starting? && !s.lifecycle.initial
    requires s.pendingInitialize.Some? && s.client.Some? && env.write(s.attempts)
    ensures var r := Dispatch(s, Process(s.lifecycle.generation, StartFailed), now, env);
            && r.ok && r.s.lifecycle == Absent && r.s.process == None && r.s.pendingInitialize == None
            && r.s.client.Some? && r.s.client.value.phase == WaitingForExit
            && r.s.client.value.log.sent == s.client.value.log.sent + [Failure(s.pendingInitialize.value.id)]
            && var d := Dispatch(r.s, Writer(FromClient(s.client.value.generation),
                                             Completed(r.s.client.value.nextWriteId, at)), later, env);
               d.ok ==> d.s.client == None
  {
    hide ServerOk, ClientOk, Recorded, KeptOk, Linked, Stage, Disconnect, ExpirePending;
    ExpireIs(s, now);
    ExpireKeepsRest(s, now);
    var r := Dispatch(s, Process(s.lifecycle.generation, StartFailed), now, env);
    ExpireIs(r.s, later);
    Leaves(ExpirePending(r.s, later), later, env);
    Leaves(ExpirePending(r.s, later).(stopRequested := true), later, env);
  }

  lemma Leaves(s: State, now: nat, env: Env)
    ensures Disconnect(s, now, env).s.client == None
  {
    hide Quiet, Settle, BeginRestart;
    if s.client.Some? {
      var s0 := DropClient(s);
      var s1 := Settle(s0, s.client.value, env).s;
      SettleSame(s0, s.client.value, env);
      SameQuiet(s0, s1, NONE);
      QuietMeans(s0, s1, NONE);
      RestartQuiet(s1, now, env);
      QuietMeans(s1, BeginRestart(s1, now, env).s, NONE);
    }
  }

  /** Once a stop is requested, or nobody has been there for long enough, every turn that gets as far as to
      wait for an event is one of a daemon that is stopping. */
  lemma StopsWhenDue(s: State, now: nat, stalled: set<Source>, env: Env)
    requires Invariant(s)
    requires s.stopRequested || (s.client == None && now >= s.idleSince + env.idleTimeout)
    ensures var p := Prologue(s, now, stalled, env);
            p.ok ==> p.s.lifecycle.IsStopping()
  {
    hide Invariant, ExpirePending, ExpireStalled, BeginStop, Safe, Quiet;
    ExpirePendingKeeps(s, now);
    var s0 := ExpirePending(s, now);
    ExpireIs(s, now);
    ExpireKeepsRest(s, now);
    var s1 := ExpireStalled(s0, stalled, now, env);
    ExpireStalledKeeps(s0, stalled, now, env);
    ExpireQuiet(s0, stalled, now, env);
    QuietMeans(s0, s1.s, NONE);
    if s1.ok {
      var s2 := AdvanceDeadline(s1.s, now);
      LifecycleProofs.AdvanceDeadlineKeeps(s1.s, now);
      Staying(s0, stalled, now, env);
      if BeginStop(s2, now, env).ok { Stopping(s2, now, env); }
    }
  }

  lemma Staying(s: State, stalled: set<Source>, now: nat, env: Env)
    ensures var s' := ExpireStalled(s, stalled, now, env).s;
            && (s.client == None ==> s'.client == None && s'.idleSince == s.idleSince)
            && (s.stopRequested ==> s'.stopRequested)
  {
    hide Disconnect, Quiet;
    var s1 := s.(pending := map g | g in s.pending && FromClient(g) !in stalled :: s.pending[g]);
    DisconnectQuiet(s1, now, env);
    QuietMeans(s1, Disconnect(s1, now, env).s, NONE);
  }

  lemma Stopping(s: State, now: nat, env: Env)
    requires Invariant(s) && BeginStop(s, now, env).ok
    ensures BeginStop(s, now, env).s.lifecycle.IsStopping()
  {
    hide Invariant, BeginStop, Safe;
    DepartureProofs.BeginStopKeeps(s, now, env);
  }
}
