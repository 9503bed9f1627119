/** What each event and each turn of the loop brings. */
module Turns {
  import opened Json
  import Protocol
  import opened Coordinator
  import opened Streams
  import opened Invariants
  import opened Effects
  import opened Frames
  import opened Sessions

  // ----- waiting connections

  /** A connection that is not admitted has not been initialized and is not the client, and a server
      that starts has no predecessor. */
  predicate Steady(s: State) {
    && (forall g | g in s.pending ::
        s.pending[g].client.phase == WaitingForInitialize && s.pending[g].client.generation == g)
    && (s.client.Some? ==> s.client.value.generation !in s.pending)
    && (s.lifecycle.Starting? ==> s.upstream == None)
  }

  lemma ReplyQuiet(s: State, g: nat, stop: bool, env: Env)
    requires g in s.pending
    ensures Quiet(s, ReplyPending(s.(pending := s.pending - {g}), g, s.pending[g], stop, env), NONE)
  {
    hide Read, Stages, Letters, Farewell;
  }

  /** A waiting connection has become the client, and been told something. */
  predicate Joined(s: State, s': State, e: Effect) {
    s.client == None && exists g | g in s.pending :: JoinedAs(s, g, s', e)
  }

  predicate JoinedAs(s: State, g: nat, s': State, e: Effect) {
    g in s.pending && Talked(Admitted(s, g), s', e) && (g in s'.pending ==> g > s.generation)
  }

  predicate Conversed(s: State, s': State, e: Effect) { Talked(s, s', e) || Joined(s, s', e) }

  /** A step on a state into which a waiting connection was admitted is a step from the state before, as
      far as servers and processes go. */
  lemma PromoteStill(s: State, g: nat, s': State, e: Effect)
    requires g in s.pending && s.client == None && Quiet(Admitted(s, g), s', e)
    ensures Calm(s, s') && Doomed(s, s') && Barred(s, s')
    ensures s'.client.Some? && Tainted(s.upstream) && Live(s'.client.value.phase) ==> Live(s.pending[g].client.phase)
    ensures s.pending[g].client.generation == g ==>
              Still(s, s', e) && JoinedAs(s, g, s', e) && Joined(s, s', e)
  {
    hide Carried, Talked;
    if s.pending[g].client.generation == g { assert JoinedAs(s, g, s', e); }
  }

  /** A server that is no longer like a fresh one gets no new live session. */
  predicate Shut(s: State, s': State) {
    Tainted(s.upstream) && s.client == None && s'.client.Some? ==> !Live(s'.client.value.phase)
  }

  lemma PendingStep(s: State, g: nat, event: ReaderEvent, now: nat, env: Env)
    ensures var s' := HandlePendingMessage(s, g, event, now, env).s;
            var e := if Admits(s, g, event, env) then Said(Admitted(s, g), event.m, env) else NONE;
            && Calm(s, s') && Doomed(s, s') && Barred(s, s')
            && (Steady(s) ==> Shut(s, s'))
            && (Steady(s) ==> Still(s, s', e) && Conversed(s, s', e))
            && (Steady(s) && Admits(s, g, event, env) ==> JoinedAs(s, g, s', e))
            && (!Admits(s, g, event, env) ==> Quiet(s, s', NONE))
  {
    hide HandleClientMessage, ReplyPending, Protocol.NormalizeInitialize, Quiet, Calm, Doomed, Still, Talked, Joined,
         JoinedAs, Barred;
    NothingQuiet(s);
    if g in s.pending {
      var s0 := s.(pending := s.pending - {g});
      MinorQuiet(s, s0);
      ReplyQuiet(s, g, true, env);
      ReplyQuiet(s, g, false, env);
      if Admits(s, g, event, env) {
        ClientQuiet(Admitted(s, g), event.m, now, env);
        PromoteStill(s, g, HandleClientMessage(Admitted(s, g), event.m, now, env).s,
                     Said(Admitted(s, g), event.m, env));
      }
    }
    if !Admits(s, g, event, env) {
      QuietMeans(s, HandlePendingMessage(s, g, event, now, env).s, NONE);
      TalkedShut(s, HandlePendingMessage(s, g, event, now, env).s, NONE);
    }
  }

  lemma QuietMeans(s: State, s': State, e: Effect)
    requires Quiet(s, s', e)
    ensures Calm(s, s') && Still(s, s', e) && Talked(s, s', e) && Doomed(s, s') && Barred(s, s')
    ensures Generation(s'.upstream) == Generation(s.upstream)
  {
  }

  lemma TalkedShut(s: State, s': State, e: Effect)
    requires Talked(s, s', e)
    ensures Shut(s, s')
  {
  }

  // ----- outputs

  lemma ExitWrittenQuiet(s: State, g: nat, id: nat, at: nat)
    ensures Quiet(s, HandleLifecycleWrite(s, g, id, at), NONE)
  {
    hide Arm, Quiet, Same;
    NothingQuiet(s);
    ArmSame(s);
    SameQuiet(s, Arm(s, ForExit), NONE);
    var lc := HandleLifecycleWrite(s, g, id, at).lifecycle;
    if lc.AwaitingExit? {
      LifecycleQuiet(Arm(s, ForExit), lc);
      QuietThrough(s, Arm(s, ForExit), Arm(s, ForExit).(lifecycle := lc), NONE);
    }
  }

  lemma WrittenQuiet(s: State, g: nat, id: nat, now: nat, env: Env)
    ensures Quiet(s, HandleClientWritten(s, g, id, now, env).s, NONE)
  {
    hide Disconnect, Quiet;
    NothingQuiet(s);
    var s1 := s.(stopRequested := true);
    MinorQuiet(s, s1);
    DisconnectQuiet(s, now, env);
    DisconnectQuiet(s1, now, env);
    QuietThrough(s, s1, Disconnect(s1, now, env).s, NONE);
    if g in s.pending {
      MinorQuiet(s, s.(pending := s.pending - {g}, stopRequested := s.stopRequested || s.pending[g].stopAfterWrite));
    }
  }

  lemma WriterQuiet(s: State, source: Source, event: WriterEvent, now: nat, env: Env)
    ensures Quiet(s, HandleWriterEvent(s, source, event, now, env).s, NONE)
  {
    hide Disconnect, UpstreamFailed, HandleLifecycleWrite, HandleClientWritten, Quiet;
    NothingQuiet(s);
    DisconnectQuiet(s, now, env);
    FailedQuiet(s);
    if event.Completed? {
      WrittenQuiet(s, source.generation, event.id, now, env);
      ExitWrittenQuiet(s, source.generation, event.id, event.at);
    }
    if source.generation in s.pending { MinorQuiet(s, s.(pending := s.pending - {source.generation})); }
  }

  lemma ClientEventQuiet(s: State, event: ReaderEvent, now: nat, env: Env)
    requires s.client.Some?
    ensures Quiet(s, HandleClientEvent(s, event, now, env).s, if event.Received? then Said(s, event.m, env) else NONE)
  {
    hide Disconnect, HandleClientMessage, Quiet;
    DisconnectQuiet(s, now, env);
    if event.Received? { ClientQuiet(s, event.m, now, env); }
  }

  // ----- the end and the beginning of a server

  /** The server is gone, and what it has read is history. */
  predicate Dropped(s: State, s': State, e: Effect) {
    && Aged(s, s') && s.upstream.Some? && s'.upstream == None && e.toServer == [] && !e.taint
    && var n := |s.past.servers|;
       && |s'.past.servers| == n + 1 && s'.past.servers[..n] == s.past.servers
       && Carried(s.upstream, Some(s'.past.servers[n]), NONE)
  }

  /** A server without any history takes the place of none. */
  predicate Attached(s: State, s': State, e: Effect) {
    && Aged(s, s') && s.upstream == None && s'.upstream.Some? && Read(s'.upstream) == e.toServer && !e.taint
    && !Tainted(s'.upstream) && Parted(s'.upstream)
    && ((s.lifecycle.Starting? && Generation(s'.upstream) == s.process) || s'.upstream.value.generation > s.generation)
    && s'.past.servers == s.past.servers
  }

  /** What one step can do to the servers. */
  predicate Step(s: State, s': State, e: Effect) { Still(s, s', e) || Dropped(s, s', e) || Attached(s, s', e) }

  lemma DropUpstreamIs(s: State)
    ensures var s' := DropUpstream(s);
            && s'.upstream == None && s'.process == s.process && s'.generation == s.generation
            && s'.pending == s.pending && s'.past.sessions == s.past.sessions
            && s'.client == s.client && s'.lifecycle == s.lifecycle && s'.past.announced == s.past.announced
            && s'.past.servers == if s.upstream.Some? then s.past.servers + [s.upstream.value] else s.past.servers
  {
  }

  lemma StartIs(s: State, env: Env)
    ensures var s' := StartUpstream(s, false, env).s;
            && s'.upstream == s.upstream && s'.past.servers == s.past.servers && s'.past.sessions == s.past.sessions
            && s'.pending == s.pending && s'.client == s.client && s'.generation >= s.generation
            && (s'.process == s.process
                || (s'.process == Some(s'.generation) && s'.generation > s.generation && !s'.past.announced))
            && (s'.lifecycle == s.lifecycle || (s'.process == Some(s'.generation) && s'.generation > s.generation))
  {
  }

  lemma ExitStep(s: State, g: nat, now: nat, env: Env)
    ensures var s' := HandleProcessExit(s, g, now, env).s;
            Calm(s, s') && Step(s, s', NONE) && Talked(s, s', NONE) && (s'.upstream.Some? ==> Doomed(s, s'))
  {
    hide HandleProcessExit, Step;
    ExitTalks(s, g, now, env);
    ExitServers(s, g, now, env);
  }

  lemma ExitTalks(s: State, g: nat, now: nat, env: Env)
    ensures var s' := HandleProcessExit(s, g, now, env).s;
            Calm(s, s') && Talked(s, s', NONE) && (s'.upstream.Some? ==> Doomed(s, s'))
  {
    hide DropUpstream, StartUpstream;
    DropUpstreamIs(s);
    StartIs(DropUpstream(s).(process := None, orphaned := {}), env);
  }

  lemma ExitServers(s: State, g: nat, now: nat, env: Env)
    ensures Step(s, HandleProcessExit(s, g, now, env).s, NONE)
  {
    hide HandleProcessExit, Still, Dropped, Attached;
    ExitAges(s, g, now, env);
    var s' := HandleProcessExit(s, g, now, env).s;
    if s'.upstream == s.upstream {
      NothingCarried(s, s');
    } else {
      EndedDropped(s, s');
    }
  }

  lemma ExitAges(s: State, g: nat, now: nat, env: Env)
    ensures var s' := HandleProcessExit(s, g, now, env).s;
            && Aged(s, s')
            && (s'.upstream == s.upstream ==> s'.past.servers == s.past.servers)
            && (s'.upstream != s.upstream ==>
                  s.upstream.Some? && s'.upstream == None && s'.past.servers == s.past.servers + [s.upstream.value])
  {
    hide DropUpstream, StartUpstream;
    DropUpstreamIs(s);
    StartIs(DropUpstream(s).(process := None, orphaned := {}), env);
  }

  lemma NothingCarried(s: State, s': State)
    requires Aged(s, s') && s'.upstream == s.upstream && s'.past.servers == s.past.servers
    ensures Still(s, s', NONE)
  {
  }

  lemma EndedDropped(s: State, s': State)
    requires Aged(s, s') && s.upstream.Some? && s'.upstream == None
    requires s'.past.servers == s.past.servers + [s.upstream.value]
    ensures Dropped(s, s', NONE)
  {
    hide Aged;
  }

  lemma AttachIs(s: State, g: nat)
    ensures var s' := AttachUpstream(s, g);
            && s'.upstream.Some? && s'.upstream.value.generation == g && Read(s'.upstream) == []
            && !Tainted(s'.upstream) && Parted(s'.upstream)
            && s'.process == s.process && s'.generation == s.generation && s'.pending == s.pending
            && s'.client == s.client && s'.lifecycle == Running && s'.past == s.past && s'.attempts == s.attempts
            && s'.pendingInitialize == s.pendingInitialize
  {
  }

  /** What is sent to a server when it is attached: the initialize that was kept for it. */
  function Resumed(s: State, env: Env): Effect {
    if s.pendingInitialize == None || s.client == None then NONE
    else Sent(s, s.pendingInitialize.value, env)
  }

  lemma ResumeQuiet(s: State, env: Env)
    requires !Tainted(s.upstream)
    ensures Quiet(s, ResumePendingInitialize(s, env).s, Resumed(s, env))
    ensures ResumePendingInitialize(s, env).s.process == s.process
  {
    hide ForwardInitialize, Quiet, Same;
    NothingQuiet(s);
    if s.pendingInitialize.Some? {
      var init, s1 := s.pendingInitialize.value, s.(pendingInitialize := None);
      MinorQuiet(s, s1);
      if s.client.Some? {
        var s2 := ForwardInitialize(s1, init, env).s;
        ForwardInitializeSame(s1, init, env);
        SameQuiet(s1, s2, Resumed(s, env));
        SameProcess(s1, s2, Resumed(s, env));
        QuietThrough(s, s1, s2, Resumed(s, env));
      }
    }
  }

  lemma SameProcess(s: State, s': State, e: Effect)
    requires Same(s, s', e)
    ensures s'.process == s.process
  {
  }

  lemma ResumedStep(s: State, g: nat, env: Env)
    requires s.lifecycle.Starting? && s.upstream == None && s.process == Some(g)
    ensures var a := AttachUpstream(s, g);
            var s' := ResumePendingInitialize(a, env).s;
            && Attached(s, s', Resumed(a, env)) && Talked(s, s', Resumed(a, env)) && s'.process == s.process
  {
    hide Traffic, Letters, Farewell, AttachUpstream, ResumePendingInitialize, Read, Continues, Resumed;
    AttachIs(s, g);
    ResumeQuiet(AttachUpstream(s, g), env);
    assert [] + Resumed(AttachUpstream(s, g), env).toServer == Resumed(AttachUpstream(s, g), env).toServer;
    ResumedClean(AttachUpstream(s, g), env);
  }

  lemma ResumedClean(s: State, env: Env)
    ensures !Resumed(s, env).taint
  {
  }

  /** What a client that waits is told when its server cannot be started. */
  function Failed(s: State, env: Env): Effect {
    if s.pendingInitialize == None || s.client == None || !env.write(s.attempts) then NONE
    else Effect([], [Failure(s.pendingInitialize.value.id)], false, [Enters(WaitingForExit)])
  }

  lemma StartFailedStep(s: State, env: Env)
    ensures var s0 := s.(process := None, lifecycle := Absent);
            var s' := FailPendingInitialize(s0, env).s;
            && Calm(s, s') && Still(s, s', Failed(s, env)) && Talked(s, s', Failed(s, env))
            && Calm(s, s0) && Still(s, s0, NONE) && Talked(s, s0, NONE)
  {
    hide Read, Stages, Letters, Farewell, Changed;
    if s.client.Some? { OneChange(SessionOf(s.client.value), Enters(WaitingForExit)); }
  }

  lemma ProcessStep(s: State, g: nat, event: ProcessEvent, now: nat, env: Env)
    requires Steady(s)
    ensures var s', e := HandleProcessEvent(s, g, event, now, env).s, Reported(s, g, event, env);
            Step(s, s', e) && Talked(s, s', e)
  {
    hide ResumePendingInitialize, FailPendingInitialize, HandleProcessExit, AttachUpstream, Still, Dropped, Attached,
         Talked;
    NothingQuiet(s);
    QuietMeans(s, s, NONE);
    var s1 := s.(past := s.past.(announced := true));
    AnnouncedStill(s);
    if s.process == Some(g) && s.lifecycle.Starting? {
      ResumedStep(s1, g, env);
      AttachIs(s1, g);
      FromAnnounced(s, ResumePendingInitialize(AttachUpstream(s1, g), env).s, Resumed(AttachUpstream(s1, g), env));
    }
    StartFailedStep(s, env);
    ExitStep(s, g, now, env);
  }

  lemma AnnouncedStill(s: State)
    ensures var s1 := s.(past := s.past.(announced := true));
            Still(s, s1, NONE) && Talked(s, s1, NONE)
  {
    hide Read, Stages, Letters, Farewell;
  }

  lemma FromAnnounced(s: State, s': State, e: Effect)
    requires var s1 := s.(past := s.past.(announced := true)); Attached(s1, s', e) && Talked(s1, s', e)
    ensures Attached(s, s', e) && Talked(s, s', e)
  {
    hide Read, Stages, Letters, Farewell;
  }

  /** After a process event, an announced process is the one it was, or the one that reported. */
  lemma ProcessCalm(s: State, g: nat, event: ProcessEvent, now: nat, env: Env)
    ensures var s' := HandleProcessEvent(s, g, event, now, env).s;
            Calm(s, s') || s'.process == Some(g)
  {
    hide ResumePendingInitialize, FailPendingInitialize, HandleProcessExit, AttachUpstream, Quiet;
    var s1 := s.(past := s.past.(announced := true));
    AttachIs(s1, g);
    ResumeQuiet(AttachUpstream(s1, g), env);
    StartFailedStep(s, env);
    ExitStep(s, g, now, env);
  }

  // ----- events

  lemma ExpireIs(s: State, now: nat)
    ensures var s' := ExpirePending(s, now);
            && (Steady(s) ==> Steady(s')) && s'.client == s.client && s'.upstream == s.upstream
            && s'.attempts == s.attempts
            && s'.process == s.process && s'.generation == s.generation && s'.past == s.past
            && s'.lifecycle == s.lifecycle && s'.stopRequested == s.stopRequested
            && (forall g | g in s'.pending :: g in s.pending && s'.pending[g] == s.pending[g])
  {
  }

  lemma QuietStep(s: State, s': State, e: Effect)
    ensures Quiet(s, s', e) ==> Step(s, s', e) && Conversed(s, s', e)
  {
  }

  lemma AfterExpiry(s: State, now: nat, s': State, e: Effect)
    requires Step(ExpirePending(s, now), s', e) && Conversed(ExpirePending(s, now), s', e)
    ensures Step(s, s', e) && Conversed(s, s', e)
  {
    hide ExpirePending, Read, Stages, Letters, Farewell;
    ExpireIs(s, now);
  }

  lemma AcceptQuiet(s: State, at: nat, now: nat, env: Env)
    ensures Quiet(s, AcceptPending(s, at, now, env).s, NONE)
  {
    hide Read, Stages, Letters, Farewell;
  }

  lemma ReaderStep(s: State, source: Source, read: ReaderEvent, now: nat, env: Env)
    requires Steady(s) && ExpirePending(s, now) == s
    ensures var s', e := Dispatch(s, Reader(source, read), now, env).s, EffectOf(s, Reader(source, read), env);
            Step(s, s', e) && Conversed(s, s', e)
  {
    hide HandlePendingMessage, HandleClientEvent, HandleServerEvent, ExpirePending, Said, Told, Steady, Admits,
         Admitted, Quiet, Step, Conversed;
    var s' := Dispatch(s, Reader(source, read), now, env).s;
    NothingQuiet(s);
    QuietStep(s, s, NONE);
    if source.FromClient? {
      var g := source.generation;
      if g in s.pending {
        PendingStep(s, g, read, now, env);
        StillStep(s, s', EffectOf(s, Reader(source, read), env));
      } else if s.client.Some? {
        ClientEventQuiet(s, read, now, env);
        QuietStep(s, HandleClientEvent(s, read, now, env).s, if read.Received? then Said(s, read.m, env) else NONE);
      }
    } else if s.upstream.Some? {
      ServerQuiet(s, read, now, env);
      QuietStep(s, HandleServerEvent(s, read, now, env).s, if read.Received? then Told(s, read.m, env) else NONE);
    }
  }

  lemma StillStep(s: State, s': State, e: Effect)
    requires Still(s, s', e)
    ensures Step(s, s', e)
  {
  }

  /** Every event brings exactly what the table of effects says. */
  lemma DispatchStep(s: State, event: Event, now: nat, env: Env)
    requires Steady(s)
    ensures var s', e := Dispatch(s, event, now, env).s, EffectOf(ExpirePending(s, now), event, env);
            Step(s, s', e) && Conversed(s, s', e)
  {
    hide HandlePendingMessage, HandleWriterEvent, HandleClientEvent, HandleServerEvent, HandleProcessEvent,
         AcceptPending, ExpirePending, Steady, Step, Quiet, Conversed, Said, Told, Reported, Admits, Admitted;
    var s1, s' := ExpirePending(s, now), Dispatch(s, event, now, env).s;
    var e := EffectOf(s1, event, env);
    ExpireIs(s, now);
    ExpireOnce(s, now);
    NothingQuiet(s1);
    match event {
      case Accepted(at) => AcceptQuiet(s1, at, now, env);
      case Reader(source, read) => ReaderStep(s1, source, read, now, env);
      case Writer(source, written) => WriterQuiet(s1, source, written, now, env);
      case Process(g, report) => ProcessStep(s1, g, report, now, env);
      case _ =>
    }
    QuietStep(s1, s', e);
    TalkedConversed(s1, s', e);
    AfterExpiry(s, now, s', e);
  }

  lemma TalkedConversed(s: State, s': State, e: Effect)
    ensures Talked(s, s', e) ==> Conversed(s, s', e)
  {
  }

  lemma ExpireOnce(s: State, now: nat)
    ensures ExpirePending(ExpirePending(s, now), now) == ExpirePending(s, now)
  {
  }

  lemma DispatchCalm(s: State, event: Event, now: nat, env: Env)
    ensures var s' := Dispatch(s, event, now, env).s;
            Calm(s, s') || (event.Process? && s'.process == Some(event.generation))
  {
    hide HandlePendingMessage, HandleWriterEvent, HandleClientEvent, HandleServerEvent, HandleProcessEvent,
         AcceptPending, Still, Talked, Barred, Doomed;
    var s1 := ExpirePending(s, now);
    match event
    case Accepted(at) => AcceptQuiet(s1, at, now, env);
    case Reader(source, read) =>
      PendingStep(s1, source.generation, read, now, env);
      if s1.client.Some? { ClientEventQuiet(s1, read, now, env); }
      if s1.upstream.Some? { ServerQuiet(s1, read, now, env); }
    case Writer(source, written) => WriterQuiet(s1, source, written, now, env);
    case Process(g, e) => ProcessCalm(s1, g, e, now, env);
    case _ =>
  }

  /** No event spares a server that is being killed, unless its process reports that it never started. */
  lemma DispatchDoomed(s: State, event: Event, now: nat, env: Env)
    requires event.Process? && event.event.StartFailed? && s.process == Some(event.generation) ==> s.upstream == None
    ensures var s' := Dispatch(s, event, now, env).s;
            s'.upstream.Some? ==> Doomed(s, s')
  {
    hide HandlePendingMessage, HandleWriterEvent, HandleClientEvent, HandleServerEvent, HandleProcessEvent,
         AcceptPending, ExpirePending, Calm, Still, Talked, Barred;
    var s1 := ExpirePending(s, now);
    ExpireIs(s, now);
    match event
    case Accepted(at) => AcceptQuiet(s1, at, now, env);
    case Reader(source, read) =>
      PendingStep(s1, source.generation, read, now, env);
      if s1.client.Some? { ClientEventQuiet(s1, read, now, env); }
      if s1.upstream.Some? { ServerQuiet(s1, read, now, env); }
    case Writer(source, written) => WriterQuiet(s1, source, written, now, env);
    case Process(g, e) => ProcessDoomed(s1, g, e, now, env);
    case _ =>
  }

  lemma ProcessDoomed(s: State, g: nat, event: ProcessEvent, now: nat, env: Env)
    requires event.StartFailed? && s.process == Some(g) ==> s.upstream == None
    ensures var s' := HandleProcessEvent(s, g, event, now, env).s;
            s'.upstream.Some? ==> Doomed(s, s')
  {
    hide ResumePendingInitialize, FailPendingInitialize, HandleProcessExit, AttachUpstream, Calm, Step, Talked;
    if event.Exited? { ExitStep(s, g, now, env); }
  }

  /** Nor does any event give a server that is no longer like a fresh one to a session. */
  lemma DispatchBarred(s: State, event: Event, now: nat, env: Env)
    requires Steady(s)
    requires event.Process? && event.event.StartFailed? && s.process == Some(event.generation) ==> s.upstream == None
    ensures var s' := Dispatch(s, event, now, env).s;
            s.upstream.Some? && s'.upstream.Some? ==> Barred(s, s') && Shut(s, s')
  {
    hide HandlePendingMessage, HandleWriterEvent, HandleClientEvent, HandleServerEvent, HandleProcessEvent,
         AcceptPending, ExpirePending, Calm, Still, Talked, Barred, Steady, Quiet, Conversed;
    var s1, s' := ExpirePending(s, now), Dispatch(s, event, now, env).s;
    ExpireIs(s, now);
    NothingQuiet(s1);
    QuietMeans(s1, s1, NONE);
    TalkedShut(s1, s1, NONE);
    match event {
      case Accepted(at) =>
        AcceptQuiet(s1, at, now, env);
        QuietMeans(s1, s', NONE);
        TalkedShut(s1, s', NONE);
      case Reader(source, read) => ReaderBarred(s1, source, read, now, env);
      case Writer(source, written) =>
        WriterQuiet(s1, source, written, now, env);
        QuietMeans(s1, s', NONE);
        TalkedShut(s1, s', NONE);
      case Process(g, e) => ProcessBarred(s1, g, e, now, env);
      case _ =>
    }
    BarredExpired(s, s1, s');
  }

  lemma BarredExpired(s: State, s1: State, s': State)
    requires s1.upstream == s.upstream && s1.client == s.client && s1.lifecycle == s.lifecycle
    requires s1.stopRequested == s.stopRequested
    ensures Barred(s1, s') ==> Barred(s, s')
  {
  }

  lemma ReaderBarred(s: State, source: Source, read: ReaderEvent, now: nat, env: Env)
    requires Steady(s)
    ensures var s' := HandlePendingMessage(s, source.generation, read, now, env).s; Barred(s, s') && Shut(s, s')
    ensures s.client.Some? ==> var s' := HandleClientEvent(s, read, now, env).s; Barred(s, s') && Shut(s, s')
    ensures s.upstream.Some? ==> var s' := HandleServerEvent(s, read, now, env).s; Barred(s, s') && Shut(s, s')
  {
    hide HandlePendingMessage, HandleClientEvent, HandleServerEvent, Said, Told, Steady, Admits, Admitted, Quiet, Calm,
         Still, Talked, Barred, Conversed;
    PendingStep(s, source.generation, read, now, env);
    if s.client.Some? {
      var e := if read.Received? then Said(s, read.m, env) else NONE;
      ClientEventQuiet(s, read, now, env);
      QuietMeans(s, HandleClientEvent(s, read, now, env).s, e);
    }
    if s.upstream.Some? {
      var e := if read.Received? then Told(s, read.m, env) else NONE;
      ServerQuiet(s, read, now, env);
      QuietMeans(s, HandleServerEvent(s, read, now, env).s, e);
      TalkedShut(s, HandleServerEvent(s, read, now, env).s, e);
    }
  }

  lemma ProcessBarred(s: State, g: nat, event: ProcessEvent, now: nat, env: Env)
    requires Steady(s) && (event.StartFailed? && s.process == Some(g) ==> s.upstream == None)
    ensures var s' := HandleProcessEvent(s, g, event, now, env).s;
            s.upstream.Some? && s'.upstream.Some? ==> Barred(s, s') && Shut(s, s')
  {
    hide ResumePendingInitialize, FailPendingInitialize, HandleProcessExit, AttachUpstream;
    if event.Exited? { ExitDrops(s, g, now, env); }
  }

  lemma ExitDrops(s: State, g: nat, now: nat, env: Env)
    ensures var s' := HandleProcessExit(s, g, now, env).s;
            s' == s || s'.upstream == None
  {
  }

  /** A server is attached by the report of its own process. */
  lemma DispatchAttaches(s: State, event: Event, now: nat, env: Env)
    requires Steady(s)
    ensures var s' := Dispatch(s, event, now, env).s;
            && (!event.Process? ==> Generation(s'.upstream) == Generation(s.upstream))
            && (event.Process? && s'.upstream.Some? && s.upstream == None ==>
                  Generation(s'.upstream) == Some(event.generation) == s.process)
  {
    hide HandlePendingMessage, HandleWriterEvent, HandleClientEvent, HandleServerEvent, HandleProcessEvent,
         AcceptPending, ExpirePending, Quiet, Aged, Carried, Steady;
    var s1, s' := ExpirePending(s, now), Dispatch(s, event, now, env).s;
    ExpireIs(s, now);
    NothingQuiet(s1);
    match event {
      case Accepted(at) =>
        AcceptQuiet(s1, at, now, env);
        QuietMeans(s1, s', NONE);
      case Reader(source, read) => ReaderKeeps(s1, source, read, now, env);
      case Writer(source, written) =>
        WriterQuiet(s1, source, written, now, env);
        QuietMeans(s1, s', NONE);
      case Process(g, e) => ProcessAttaches(s1, g, e, now, env);
      case _ =>
    }
  }

  lemma ReaderKeeps(s: State, source: Source, read: ReaderEvent, now: nat, env: Env)
    requires Steady(s)
    ensures Generation(HandlePendingMessage(s, source.generation, read, now, env).s.upstream) == Generation(s.upstream)
    ensures s.client.Some? ==> Generation(HandleClientEvent(s, read, now, env).s.upstream) == Generation(s.upstream)
    ensures s.upstream.Some? ==> Generation(HandleServerEvent(s, read, now, env).s.upstream) == Generation(s.upstream)
  {
    hide HandlePendingMessage, HandleClientEvent, HandleServerEvent, Said, Told, Steady, Admits, Admitted, Quiet, Aged;
    PendingStep(s, source.generation, read, now, env);
    if s.client.Some? {
      ClientEventQuiet(s, read, now, env);
      QuietMeans(s, HandleClientEvent(s, read, now, env).s, if read.Received? then Said(s, read.m, env) else NONE);
    }
    if s.upstream.Some? {
      ServerQuiet(s, read, now, env);
      QuietMeans(s, HandleServerEvent(s, read, now, env).s, if read.Received? then Told(s, read.m, env) else NONE);
    }
  }

  lemma ProcessAttaches(s: State, g: nat, event: ProcessEvent, now: nat, env: Env)
    ensures var s' := HandleProcessEvent(s, g, event, now, env).s;
            s'.upstream.Some? && s.upstream == None ==> Generation(s'.upstream) == Some(g) == s.process
  {
    hide ResumePendingInitialize, FailPendingInitialize, HandleProcessExit, AttachUpstream, Quiet, Aged;
    var s1 := s.(past := s.past.(announced := true));
    AttachIs(s1, g);
    var a := AttachUpstream(s1, g);
    ResumeQuiet(a, env);
    QuietMeans(a, ResumePendingInitialize(a, env).s, Resumed(a, env));
    StartFailedStep(s, env);
    ExitLeaves(s, g, now, env);
  }

  lemma ExitLeaves(s: State, g: nat, now: nat, env: Env)
    ensures s.upstream == None ==> HandleProcessExit(s, g, now, env).s.upstream == None
  {
  }

  // ----- a turn of the loop

  lemma ExpireQuiet(s: State, stalled: set<Source>, now: nat, env: Env)
    ensures Quiet(s, ExpireStalled(s, stalled, now, env).s, NONE)
  {
    hide Disconnect, UpstreamFailed, Quiet;
    var s1 := s.(pending := map g | g in s.pending && FromClient(g) !in stalled :: s.pending[g]);
    MinorQuiet(s, s1);
    var s2 := Disconnect(s1, now, env).s;
    DisconnectQuiet(s1, now, env);
    QuietThrough(s, s1, s2, NONE);
    FailedQuiet(s1);
    QuietThrough(s, s1, UpstreamFailed(s1), NONE);
    FailedQuiet(s2);
    QuietThrough(s, s2, UpstreamFailed(s2), NONE);
  }

  lemma PrologueQuiet(s: State, now: nat, stalled: set<Source>, env: Env)
    ensures Quiet(s, Prologue(s, now, stalled, env).s, NONE)
  {
    hide BeginStop, ExpireStalled, Quiet;
    var s0 := ExpirePending(s, now);
    MinorQuiet(s, s0);
    var s1 := ExpireStalled(s0, stalled, now, env);
    ExpireQuiet(s0, stalled, now, env);
    QuietThrough(s, s0, s1.s, NONE);
    if s1.ok {
      var s2 := AdvanceDeadline(s1.s, now);
      NothingQuiet(s1.s);
      if s2 != s1.s { LifecycleQuiet(s1.s, s2.lifecycle); }
      QuietThrough(s, s1.s, s2, NONE);
      StopQuiet(s2, now, env);
      QuietThrough(s, s2, BeginStop(s2, now, env).s, NONE);
    }
  }

  /** The event of a turn is handled, and not left aside because the daemon has stopped or has been idle
      for too long. */
  predicate Handles(s: State, turn: Turn, env: Env) {
    var p := Prologue(s, turn.now, turn.stalled, env);
    p.ok && turn.event.Some? && !p.s.lifecycle.Stopped? && !IdleStopDue(p.s, turn.later, env)
  }

  /** The state in which it is. */
  function Before(s: State, turn: Turn, env: Env): State {
    ExpirePending(Prologue(s, turn.now, turn.stalled, env).s, turn.later)
  }

  /** What a turn brings. */
  function TurnEffect(s: State, turn: Turn, env: Env): Effect {
    if Handles(s, turn, env) then EffectOf(Before(s, turn, env), turn.event.value, env) else NONE
  }

  /** A turn: what comes before the event brings nothing, and the event brings what the table says. */
  lemma TurnParts(s: State, turn: Turn, env: Env)
    requires var p := Prologue(s, turn.now, turn.stalled, env); p.ok ==> Steady(p.s)
    ensures var p, s' := Prologue(s, turn.now, turn.stalled, env).s, ServeTurn(s, turn, env).s;
            var e := TurnEffect(s, turn, env);
            Quiet(s, p, NONE) && Step(p, s', e) && Conversed(p, s', e)
  {
    hide Prologue, BeginStop, Dispatch, ExpirePending, EffectOf, Steady, Step, Quiet, Conversed;
    var p := Prologue(s, turn.now, turn.stalled, env);
    PrologueQuiet(s, turn.now, turn.stalled, env);
    NothingQuiet(p.s);
    QuietStep(p.s, p.s, NONE);
    if p.ok && turn.event.Some? {
      StopQuiet(p.s, turn.later, env);
      QuietStep(p.s, BeginStop(p.s, turn.later, env).s, NONE);
      DispatchStep(p.s, turn.event.value, turn.later, env);
    }
  }

  lemma StepThrough(a: State, b: State, c: State, e: Effect)
    requires Quiet(a, b, NONE) && Step(b, c, e)
    ensures Step(a, c, e)
  {
    hide Traffic, Stages, Letters, Farewell;
    BothNone(e);
    if Still(b, c, e) { CarriedThrough(a.upstream, b.upstream, c.upstream, NONE, e); }
  }

  lemma TurnStep(s: State, turn: Turn, env: Env)
    requires var p := Prologue(s, turn.now, turn.stalled, env); p.ok ==> Steady(p.s)
    ensures Step(s, ServeTurn(s, turn, env).s, TurnEffect(s, turn, env))
  {
    hide Prologue, ServeTurn, TurnEffect, Steady, Step, Quiet, Conversed;
    TurnParts(s, turn, env);
    StepThrough(s, Prologue(s, turn.now, turn.stalled, env).s, ServeTurn(s, turn, env).s, TurnEffect(s, turn, env));
  }

  /** A whole turn spares no server that is being killed either. */
  lemma TurnDoomed(s: State, turn: Turn, env: Env)
    requires var p := Prologue(s, turn.now, turn.stalled, env);
             p.ok && turn.event.Some? ==>
               var event := turn.event.value;
               event.Process? && event.event.StartFailed? && p.s.process == Some(event.generation) ==>
                 p.s.upstream == None
    ensures var s' := ServeTurn(s, turn, env).s;
            s'.upstream.Some? ==> Doomed(s, s')
  {
    hide Prologue, BeginStop, Dispatch, Calm, Still, Talked, Barred;
    var p := Prologue(s, turn.now, turn.stalled, env);
    PrologueQuiet(s, turn.now, turn.stalled, env);
    QuietMeans(s, p.s, NONE);
    if p.ok && turn.event.Some? {
      StopQuiet(p.s, turn.later, env);
      DispatchDoomed(p.s, turn.event.value, turn.later, env);
    }
  }
}
