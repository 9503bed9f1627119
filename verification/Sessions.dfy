/** What the messages of a client and of a server bring, handler by handler. */
module Sessions {
  import opened Json
  import Protocol
  import opened Coordinator
  import opened Streams
  import opened Invariants
  import opened Effects
  import opened Frames

  // ----- initialize

  /** How a session changes when its initialize is sent to a server. */
  function Asking(init: PendingInitialize): seq<Change> {
    [Wants(init.wantsBackground), Enters(WaitingForInitialized(true)), Awaited(Protocol.IdKey(init.id))]
  }

  /** What sending it brings. */
  function Sent(s: State, init: PendingInitialize, env: Env): Effect {
    ToServerIf(s, InitializeRequest(init.id, init.normalized), env)
      .(changes := if s.client.Some? && s.upstream.Some? && env.write(s.attempts) then Asking(init) else [])
  }

  lemma ForwardInitializeSame(s: State, init: PendingInitialize, env: Env)
    requires !Tainted(s.upstream)
    ensures Same(s, ForwardInitialize(s, init, env).s, Sent(s, init, env))
  {
    hide WriteUpstream, Protocol.IdKey, Same, Traffic, Ask, Asking;
    NothingQuiet(s);
    if s.upstream.Some? {
      var e := InitializeRequest(init.id, init.normalized);
      var s1 := s.(upstream := Some(s.upstream.value.(fingerprint := Some(init.fingerprint))));
      FingerprintSame(s, Some(init.fingerprint));
      WriteSame(s1, e, env);
      var s2 := WriteUpstream(s1, e, env).s;
      SameThrough(s, s1, s2, ToServerIf(s, e, env));
      WriteResult(s1, e, env);
      if env.write(s.attempts) {
        AskSame(s2, init) by { UntaintedStill(s1, s2, ToServerIf(s, e, env)); }
        var asking := if s.client.Some? then Asking(init) else [];
        AltersBoth(asking, ToServerIf(s, e, env));
        SameBoth(s, s2, Ask(s2, init), ToServerIf(s, e, env), Alters(asking));
      }
    }
  }

  lemma WriteResult(s: State, e: ToServer, env: Env)
    ensures WriteUpstream(s, e, env).ok == (s.upstream.Some? && env.write(s.attempts))
  {
  }

  lemma SameOn(a: State, b: State, c: State, e: Effect)
    requires Same(a, b, e) && Same(b, c, NONE)
    ensures Same(a, c, e)
  {
    hide Same;
    BothNone(e);
    SameBoth(a, b, c, e, NONE);
  }

  lemma UntaintedStill(s: State, s': State, e: Effect)
    requires Same(s, s', e) && !Tainted(s.upstream) && !e.taint
    ensures !Tainted(s'.upstream)
  {
  }

  lemma FingerprintSame(s: State, fingerprint: Option<string>)
    requires s.upstream.Some?
    ensures Same(s, s.(upstream := Some(s.upstream.value.(fingerprint := fingerprint))), NONE)
  {
    hide Traffic, Letters, Farewell;
  }

  lemma AskSame(s: State, init: PendingInitialize)
    requires !Tainted(s.upstream)
    ensures Same(s, Ask(s, init), Alters(if s.client.Some? then Asking(init) else []))
  {
    hide Same, Changed, Protocol.IdKey;
    NothingQuiet(s);
    if s.client.Some? {
      var c := s.client.value;
      var phase := WaitingForInitialized(true);
      OneChange(SessionOf(c), Wants(init.wantsBackground));
      MoreChanges(SessionOf(c), [Wants(init.wantsBackground)], Enters(phase));
      MoreChanges(SessionOf(c), [Wants(init.wantsBackground), Enters(phase)], Awaited(Protocol.IdKey(init.id)));
      assert Asking(init) == [Wants(init.wantsBackground)] + [Enters(phase)] + [Awaited(Protocol.IdKey(init.id))];
      assert Asking(init) == [Wants(init.wantsBackground), Enters(phase)] + [Awaited(Protocol.IdKey(init.id))];
      assert [Wants(init.wantsBackground)] + [Enters(phase)] == [Wants(init.wantsBackground), Enters(phase)];
      ClientSame(s, Ask(s, init).client.value, Asking(init));
    }
  }

  /** How a session changes when its initialize is answered from the cache. */
  function Caching(init: PendingInitialize): seq<Change> {
    [Wants(init.wantsBackground), Enters(WaitingForInitialized(false))]
  }

  /** What the answer from the cache brings. */
  function Cached(s: State, init: PendingInitialize, env: Env): Effect
    requires s.upstream.Some? && s.upstream.value.result.Some?
  {
    ToClientIf(s, CachedInitialize(init.id, s.upstream.value.result.value), env)
      .(changes := if s.client.Some? && env.write(s.attempts) then Caching(init) else [])
  }

  lemma CachedSame(s: State, init: PendingInitialize, now: nat, env: Env)
    requires s.upstream.Some? && s.upstream.value.result.Some? && !ShouldRestart(s.upstream, init.fingerprint)
    requires s.upstream.value.fingerprint.Some?
    ensures Same(s, ServeInitialize(s, init, now, env).s, Cached(s, init, env))
  {
    hide EnqueueClient, Same, Changed;
    var e := CachedInitialize(init.id, s.upstream.value.result.value);
    var r := EnqueueClient(s, e, env);
    EnqueueSame(s, e, env);
    TellResult(s, e, env);
    if r.ok && s.client.Some? {
      UntaintedStill(s, r.s, ToClientIf(s, e, env));
      var x := SessionOf(r.s.client.value);
      var c := r.s.client.value.(wantsBackground := init.wantsBackground, phase := WaitingForInitialized(false));
      OneChange(x, Wants(init.wantsBackground));
      MoreChanges(x, [Wants(init.wantsBackground)], Enters(WaitingForInitialized(false)));
      assert Caching(init) == [Wants(init.wantsBackground)] + [Enters(WaitingForInitialized(false))];
      ClientSame(r.s, c, Caching(init));
      AltersBoth(Caching(init), ToClientIf(s, e, env));
      SameBoth(s, r.s, r.s.(client := Some(c)), ToClientIf(s, e, env), Alters(Caching(init)));
    }
  }

  lemma TellResult(s: State, e: ToClient, env: Env)
    ensures EnqueueClient(s, e, env).ok == (s.client == None || env.write(s.attempts))
    ensures EnqueueClient(s, e, env).s.client.Some? == s.client.Some?
  {
  }

  /** What an initialize brings: it is sent to a server that nobody has asked, and answered from the cache
      of one that knows the answer; else its client waits for another server. */
  function Served(s: State, init: PendingInitialize, env: Env): Effect {
    if ShouldRestart(s.upstream, init.fingerprint) then Alters(If(s.client.Some?, Enters(WaitingForUpstream)))
    else if s.upstream.value.fingerprint == None then Sent(s, init, env)
    else if s.upstream.value.result.Some? then Cached(s, init, env)
    else NONE
  }

  lemma ServeQuiet(s: State, init: PendingInitialize, now: nat, env: Env)
    ensures Quiet(s, ServeInitialize(s, init, now, env).s, Served(s, init, env))
  {
    hide BeginRestart, ForwardInitialize, EnqueueClient, SetPhase, Quiet, Same, Sent, Cached;
    NothingQuiet(s);
    if ShouldRestart(s.upstream, init.fingerprint) {
      var s0 := s.(pendingInitialize := Some(init));
      var s1 := SetPhase(s0, WaitingForUpstream);
      var e := Alters(If(s.client.Some?, Enters(WaitingForUpstream)));
      MinorQuiet(s, s0);
      if s.client.Some? {
        PhaseSame(s0, WaitingForUpstream);
        SameQuiet(s0, s1, e);
      } else {
        NoPhase(s0, WaitingForUpstream);
        NothingQuiet(s0);
      }
      QuietThrough(s, s0, s1, e);
      RestartQuiet(s1, now, env);
      QuietOn(s, s1, BeginRestart(s1, now, env).s, e);
    } else if s.upstream.value.fingerprint == None {
      ForwardInitializeSame(s, init, env);
      SameQuiet(s, ForwardInitialize(s, init, env).s, Sent(s, init, env));
    } else if s.upstream.value.result.Some? {
      CachedSame(s, init, now, env);
      SameQuiet(s, ServeInitialize(s, init, now, env).s, Cached(s, init, env));
    }
  }

  lemma NoPhase(s: State, phase: Phase)
    requires s.client == None
    ensures SetPhase(s, phase) == s
  {
  }

  lemma InitializeQuiet(s: State, m: Message, now: nat, env: Env)
    requires s.client.Some? && s.client.value.phase == WaitingForInitialize && m.name == Initialize && m.id.Some?
    ensures Quiet(s, HandleInitialize(s, m, now, env).s, Said(s, m, env))
  {
    hide ServeInitialize, Json.Fingerprint, Protocol.NormalizeInitialize, Protocol.WantsBackgroundWork, Quiet,
         Protocol.IdKey;
    NothingQuiet(s);
    if Initializes(m, env) {
      var normal := Normal(m, env);
      var init := PendingInitialize(m.id.value, normal, Fingerprint(normal), Protocol.WantsBackgroundWork(normal));
      ServeQuiet(s, init, now, env);
    }
  }

  // ----- the client

  lemma ResponseQuiet(s: State, m: Message, key: string, env: Env)
    ensures Quiet(s, HandleClientResponse(s, m, key, env).s,
                  if s.client.Some? && key in s.client.value.serverRequests
                  then ToServerIf(s, Answer(m), env).(changes := [Change.Settled(key)]) else NONE)
  {
    hide WriteUpstream, Quiet, Same, Changed;
    NothingQuiet(s);
    if s.client.Some? && key in s.client.value.serverRequests {
      var c, changes := s.client.value, [Change.Settled(key)];
      var s1 := s.(client := Some(c.(serverRequests := c.serverRequests - {key})));
      OneChange(SessionOf(c), Change.Settled(key));
      ClientSame(s, s1.client.value, changes);
      WriteSame(s1, Answer(m), env);
      var s2 := WriteUpstream(s1, Answer(m), env).s;
      AltersBoth(changes, ToServerIf(s, Answer(m), env));
      SameBoth(s, s1, s2, Alters(changes), ToServerIf(s, Answer(m), env));
      SameQuiet(s, s2, ToServerIf(s, Answer(m), env).(changes := changes));
    }
  }

  lemma StopRequestQuiet(s: State, id: Value, env: Env)
    ensures Quiet(s, HandleStop(s, id, env).s, ToClientIf(s, Success(id), env))
  {
    hide EnqueueClient, Quiet, Same;
    var s1 := EnqueueClient(s, Success(id), env).s;
    EnqueueSame(s, Success(id), env);
    SameQuiet(s, s1, ToClientIf(s, Success(id), env));
    if s1.client.Some? {
      var c := s1.client.value.(stopAfterWrite := Some(s1.client.value.nextWriteId));
      OneChange(SessionOf(c), Enters(c.phase));
      ClientSame(s1, c, []);
      SameOn(s, s1, s1.(client := Some(c)), ToClientIf(s, Success(id), env));
      SameQuiet(s, s1.(client := Some(c)), ToClientIf(s, Success(id), env));
    }
  }

  lemma TellQuiet(s: State, e: ToClient, env: Env)
    ensures Quiet(s, EnqueueClient(s, e, env).s, ToClientIf(s, e, env))
  {
    hide EnqueueClient, Quiet, Same;
    EnqueueSame(s, e, env);
    SameQuiet(s, EnqueueClient(s, e, env).s, ToClientIf(s, e, env));
  }

  lemma BeforeInitializeQuiet(s: State, m: Message, now: nat, env: Env)
    requires s.client.Some? && s.client.value.phase == WaitingForInitialize && m.ResponseId() == None
    ensures Quiet(s, HandleBeforeInitialize(s, m, now, env).s, Said(s, m, env))
  {
    hide HandleInitialize, Disconnect, HandleStop, EnqueueClient, Quiet, Protocol.NormalizeInitialize, Fingerprint;
    NothingQuiet(s);
    if m.name == Initialize && m.id.Some? { InitializeQuiet(s, m, now, env); }
    DisconnectQuiet(s, now, env);
    if m.RequestId().Some? {
      StopRequestQuiet(s, m.RequestId().value, env);
      TellQuiet(s, Failure(m.RequestId().value), env);
    }
  }

  lemma WaitingQuiet(s: State, m: Message, now: nat, env: Env)
    requires s.client.Some? && s.client.value.phase == WaitingForUpstream && m.ResponseId() == None
    ensures Quiet(s, HandleWaitingForUpstream(s, m, now, env).s, Said(s, m, env))
  {
    hide Disconnect, HandleStop, EnqueueClient, Quiet;
    NothingQuiet(s);
    DisconnectQuiet(s, now, env);
    if m.RequestId().Some? {
      StopRequestQuiet(s, m.RequestId().value, env);
      TellQuiet(s, Failure(m.RequestId().value), env);
    }
  }

  lemma PhaseQuiet(s: State, phase: Phase)
    requires s.client.Some? && Live(s.client.value.phase)
    ensures Quiet(s, SetPhase(s, phase), Alters([Enters(phase)]))
  {
    hide Quiet, Same;
    PhaseSame(s, phase);
    SameQuiet(s, SetPhase(s, phase), Alters([Enters(phase)]));
  }

  lemma BeforeInitializedQuiet(s: State, m: Message, forward: bool, env: Env)
    requires s.client.Some? && s.client.value.phase == WaitingForInitialized(forward) && m.ResponseId() == None
    ensures Quiet(s, HandleBeforeInitialized(s, m, forward, env).s, Said(s, m, env))
  {
    hide WriteUpstream, EnqueueClient, SetPhase, Quiet, Same;
    NothingQuiet(s);
    if m.name == Initialized {
      if forward {
        NoticeQuiet(s, m, env);
      } else {
        var s2 := SetPhase(s, Ready);
        PhaseQuiet(s, Ready);
        ReadyIs(s);
        TellQuiet(s2, BackgroundReady, env);
        AltersBoth([Enters(Ready)], ToClientIf(s, BackgroundReady, env));
        QuietBoth(s, s2, EnqueueClient(s2, BackgroundReady, env).s, Alters([Enters(Ready)]),
                  ToClientIf(s, BackgroundReady, env));
      }
    } else if m.RequestId().Some? {
      TellQuiet(s, Failure(m.RequestId().value), env);
    }
  }

  lemma ReadyIs(s: State)
    requires s.client.Some?
    ensures var s2 := SetPhase(s, Ready);
            && s2.client.Some? && s2.client.value.wantsBackground == s.client.value.wantsBackground
            && s2.upstream == s.upstream && s2.attempts == s.attempts
  {
  }

  lemma NoticeQuiet(s: State, m: Message, env: Env)
    requires s.client.Some? && s.client.value.phase == WaitingForInitialized(true) && m.name == Initialized
    ensures Quiet(s, HandleBeforeInitialized(s, m, true, env).s,
                  ToServerIf(s, InitializedNotice(m), env)
                    .(changes := If(s.upstream.Some? && env.write(s.attempts), Enters(Ready))))
  {
    hide WriteUpstream, SetPhase, Quiet, Same;
    var s1 := WriteUpstream(s, InitializedNotice(m), env).s;
    WriteSame(s, InitializedNotice(m), env);
    WriteResult(s, InitializedNotice(m), env);
    SameQuiet(s, s1, ToServerIf(s, InitializedNotice(m), env));
    if s.upstream.Some? && env.write(s.attempts) {
      PhaseQuiet(s1, Ready);
      AltersBoth([Enters(Ready)], ToServerIf(s, InitializedNotice(m), env));
      QuietBoth(s, s1, SetPhase(s1, Ready), ToServerIf(s, InitializedNotice(m), env), Alters([Enters(Ready)]));
    }
  }

  lemma ReadyQuiet(s: State, m: Message, now: nat, env: Env)
    requires s.client.Some? && s.client.value.phase == Ready && m.ResponseId() == None
    ensures Quiet(s, HandleReady(s, m, now, env).s, Said(s, m, env))
  {
    hide Disconnect, ForwardMessage, HandleStop, EnqueueClient, SetPhase, Quiet, Same, Protocol.IdKey;
    NothingQuiet(s);
    DisconnectQuiet(s, now, env);
    ForwardSame(s, m, env);
    SameQuiet(s, ForwardMessage(s, m, env).s, ToServerIf(s, Forwarded(m), env).(changes := Noting(m)));
    if m.RequestId().Some? {
      var id := m.RequestId().value;
      StopRequestQuiet(s, id, env);
      var s1 := SetPhase(s, WaitingForExit);
      PhaseQuiet(s, WaitingForExit);
      ExitIs(s);
      TellQuiet(s1, Success(id), env);
      AltersBoth([Enters(WaitingForExit)], ToClientIf(s, Success(id), env));
      QuietBoth(s, s1, EnqueueClient(s1, Success(id), env).s, Alters([Enters(WaitingForExit)]),
                ToClientIf(s, Success(id), env));
    }
  }

  /** What is recorded of a message that is passed on. */
  function Noting(m: Message): seq<Change> {
    Tracked(m) + if m.RequestId().Some? then [Awaited(Protocol.IdKey(m.RequestId().value))] else []
  }

  lemma ExitIs(s: State)
    requires s.client.Some?
    ensures SetPhase(s, WaitingForExit).client.Some? && SetPhase(s, WaitingForExit).attempts == s.attempts
  {
  }

  lemma TrackSame(s: State, m: Message)
    requires s.client.Some?
    ensures var s1 := TrackDocument(s, m);
            Same(s, s1, Alters(Tracked(m))) && s1.upstream == s.upstream && s1.attempts == s.attempts
            && s1.client.Some?
  {
    hide Same, Changed;
    NothingQuiet(s);
    var c := s.client.value;
    if m.uri.Some? {
      OneChange(SessionOf(c), Opened(m.uri.value));
      OneChange(SessionOf(c), Closed(m.uri.value));
      if m.name == DidOpen || m.name == DidClose { ClientSame(s, TrackDocument(s, m).client.value, Tracked(m)); }
    }
  }

  lemma ForwardSame(s: State, m: Message, env: Env)
    requires s.client.Some?
    ensures Same(s, ForwardMessage(s, m, env).s, ToServerIf(s, Forwarded(m), env).(changes := Noting(m)))
  {
    hide Protocol.IdKey, Same, WriteUpstream, TrackDocument, RecordRequest, Tracked, Changed;
    var s1 := TrackDocument(s, m);
    TrackSame(s, m);
    var e := ToServerIf(s, Forwarded(m), env);
    AltersBoth(Noting(m), e);
    if m.RequestId() == None {
      WriteSame(s1, Forwarded(m), env);
      assert Noting(m) == Tracked(m);
      SameBoth(s, s1, WriteUpstream(s1, Forwarded(m), env).s, Alters(Tracked(m)), e);
    } else {
      var key := Protocol.IdKey(m.RequestId().value);
      var s2 := s1.(client := Some(RecordRequest(s1.client.value, key)));
      RecordedSame(s1.client.value, key);
      OneChange(SessionOf(s1.client.value), Awaited(key));
      ClientSame(s1, RecordRequest(s1.client.value, key), [Awaited(key)]);
      WriteSame(s2, Forwarded(m), env);
      SameBoth(s, s1, s2, Alters(Tracked(m)), Alters([Awaited(key)]));
      assert Both(Alters(Tracked(m)), Alters([Awaited(key)])) == Alters(Noting(m));
      SameBoth(s, s2, WriteUpstream(s2, Forwarded(m), env).s, Alters(Noting(m)), e);
    }
  }

  lemma RecordedSame(c: Client, key: string)
    ensures var c' := RecordRequest(c, key);
            && c'.generation == c.generation && c'.log.sent == c.log.sent && c'.phase == c.phase
            && SessionOf(c') == Changed1(SessionOf(c), Awaited(key))
  {
  }

  lemma ClientQuiet(s: State, m: Message, now: nat, env: Env)
    requires s.client.Some?
    ensures Quiet(s, HandleClientMessage(s, m, now, env).s, Said(s, m, env))
  {
    hide Quiet, HandleClientResponse, HandleBeforeInitialize, HandleWaitingForUpstream, HandleBeforeInitialized,
         HandleReady, Disconnect, Protocol.IdKey;
    DisconnectQuiet(s, now, env);
    NothingQuiet(s);
    if m.ResponseId().Some? {
      ResponseQuiet(s, m, Protocol.IdKey(m.ResponseId().value), env);
    } else {
      match s.client.value.phase
      case WaitingForInitialize => BeforeInitializeQuiet(s, m, now, env);
      case WaitingForUpstream => WaitingQuiet(s, m, now, env);
      case WaitingForInitialized(forward) => BeforeInitializedQuiet(s, m, forward, env);
      case Ready => ReadyQuiet(s, m, now, env);
      case WaitingForExit =>
    }
  }

  // ----- the server

  lemma CacheSame(s: State, m: Message)
    requires s.client.Some? && Live(s.client.value.phase)
    ensures Same(s, CacheInitialize(s, m), Taints(m.error && s.upstream.Some?))
  {
    hide Traffic, Letters, Farewell;
  }

  function Taints(taint: bool): Effect { Effect([], [], taint, []) }

  lemma TaintBoth(taint: bool, e: Effect)
    requires !e.taint
    ensures Both(Taints(taint), e) == e.(taint := taint) && Both(e, Taints(taint)) == e.(taint := taint)
  {
    assert [] + e.toServer == e.toServer && [] + e.toClient == e.toClient && [] + e.changes == e.changes;
  }

  /** What the response to a request of the active client changes. */
  function Resolving(key: string, failed: bool): seq<Change> { [Resolved(key)] + If(failed, Enters(WaitingForExit)) }

  lemma ServerResponseSame(s: State, m: Message, key: string, env: Env)
    requires s.upstream.Some?
    ensures var failed := Awaits(s, key) && s.client.value.phase == WaitingForInitialized(true) && m.error;
            Same(s, HandleServerResponse(s, m, key, env).s,
                 if Awaits(s, key)
                 then ToClientIf(s, Routed(key), env).(taint := failed, changes := Resolving(key, failed)) else NONE)
  {
    hide EnqueueClient, CacheInitialize, Same, Changed;
    OrphanSame(s, s.orphaned - {key});
    NothingQuiet(s);
    if Awaits(s, key) {
      var c := s.client.value;
      var initialize := c.phase == WaitingForInitialized(true);
      var failed := initialize && m.error;
      var c' := c.(forwarded := c.forwarded - {key}, phase := if failed then WaitingForExit else c.phase);
      var s1 := s.(client := Some(c'));
      var s2 := if initialize then CacheInitialize(s1, m) else s1;
      var changes, tell := Resolving(key, failed), ToClientIf(s, Routed(key), env);
      OneChange(SessionOf(c), Resolved(key));
      MoreChanges(SessionOf(c), [Resolved(key)], Enters(WaitingForExit));
      assert [Resolved(key)] + [] == [Resolved(key)];
      ClientSame(s, c', changes);
      TaintBoth(failed, Alters(changes));
      if initialize {
        CacheSame(s1, m);
        SameBoth(s, s1, s2, Alters(changes), Taints(failed));
        CachedIs(s1, m);
      }
      EnqueueSame(s2, Routed(key), env);
      ResolvedBoth(changes, failed, tell);
      SameBoth(s, s2, EnqueueClient(s2, Routed(key), env).s, Alters(changes).(taint := failed), tell);
    }
  }

  lemma ResolvedBoth(changes: seq<Change>, taint: bool, e: Effect)
    requires !e.taint && e.changes == []
    ensures Both(Alters(changes).(taint := taint), e) == e.(taint := taint, changes := changes)
  {
    assert [] + e.toServer == e.toServer && [] + e.toClient == e.toClient && changes + [] == changes;
  }

  lemma CachedIs(s: State, m: Message)
    ensures CacheInitialize(s, m).client == s.client && CacheInitialize(s, m).attempts == s.attempts
  {
  }

  lemma NoteSame(s: State, m: Message, key: string, reused: bool)
    requires s.upstream.Some?
    ensures var s1 := s.(upstream := Some(NoteRequest(s.upstream.value, m, key, reused)));
            Same(s, s1, Taints(m.name == Registration))
  {
    hide Traffic, Letters, Farewell;
  }

  lemma ServerRequestSame(s: State, m: Message, id: Value, key: string, env: Env)
    requires s.upstream.Some?
    ensures Same(s, HandleServerRequest(s, m, id, key, env).s,
                 if m.name == NotAString then NONE
                 else if s.client.Some? then
                   ToClientIf(s, Relayed(m), env).(taint := m.name == Registration, changes := [Pended(key, id)])
                 else ToServerIf(s, LocalAnswer(id), env).(taint := m.name == Registration))
  {
    hide WriteUpstream, EnqueueClient, NoteRequest, Same, Changed;
    NothingQuiet(s);
    var reused := s.client.Some? && key in s.client.value.serverRequests;
    var s1 := s.(upstream := Some(NoteRequest(s.upstream.value, m, key, reused)));
    var taint := m.name == Registration;
    NoteSame(s, m, key, reused);
    if s.client.Some? {
      var c, changes := s.client.value, [Pended(key, id)];
      var s2 := s1.(client := Some(c.(serverRequests := c.serverRequests[key := id])));
      OneChange(SessionOf(c), Pended(key, id));
      ClientSame(s1, s2.client.value, changes);
      TaintBoth(taint, Alters(changes));
      SameBoth(s, s1, s2, Taints(taint), Alters(changes));
      EnqueueSame(s2, Relayed(m), env);
      ResolvedBoth(changes, taint, ToClientIf(s, Relayed(m), env));
      SameBoth(s, s2, EnqueueClient(s2, Relayed(m), env).s, Alters(changes).(taint := taint),
               ToClientIf(s, Relayed(m), env));
    } else {
      WriteSame(s1, LocalAnswer(id), env);
      TaintBoth(taint, ToServerIf(s, LocalAnswer(id), env));
      SameBoth(s, s1, WriteUpstream(s1, LocalAnswer(id), env).s, Taints(taint), ToServerIf(s, LocalAnswer(id), env));
    }
  }

  lemma ShutdownReplyQuiet(s: State, now: nat, env: Env)
    ensures Quiet(s, HandleShutdownReply(s, now, env), NONE)
  {
    hide WriteUpstream, Arm, Quiet, Same;
    NothingQuiet(s);
    if s.lifecycle.AwaitingShutdownReply? {
      var lc := s.lifecycle;
      LifecycleQuiet(s, Killing(lc.generation, lc.after));
      if s.upstream.Some? {
        var w := WriteUpstream(s, ExitNotice, env).s;
        LetterSame(s, ExitNotice, ForExitWrite, env);
        if env.write(s.attempts) {
          var a := Arm(w, ForExitWrite);
          SameQuiet(s, a, NONE);
          var lc' := HandleShutdownReply(s, now, env).lifecycle;
          LifecycleQuiet(a, lc');
          QuietThrough(s, a, a.(lifecycle := lc'), NONE);
        } else {
          SameQuiet(s, w, NONE);
          LifecycleQuiet(w, Killing(lc.generation, lc.after));
          QuietThrough(s, w, w.(lifecycle := Killing(lc.generation, lc.after)), NONE);
        }
      }
    }
  }

  lemma FailedQuiet(s: State)
    ensures Quiet(s, UpstreamFailed(s), NONE)
  {
    hide Quiet, DropClient;
    NothingQuiet(s);
    if s.upstream.Some? {
      var s1 := DropClient(s);
      DropClientQuiet(s);
      KeptServer(s);
      var s2 := s1.(pendingInitialize := None);
      MinorQuiet(s1, s2);
      QuietThrough(s, s1, s2, NONE);
      var lc := UpstreamFailed(s).lifecycle;
      LifecycleQuiet(s2, lc);
      QuietThrough(s, s2, s2.(lifecycle := lc), NONE);
      LifecycleQuiet(s, lc);
    }
  }

  lemma KeptServer(s: State)
    ensures DropClient(s).upstream == s.upstream && DropClient(s).lifecycle == s.lifecycle
  {
  }

  lemma RecordSame(s: State, m: Message, key: string)
    ensures Same(s, RecordReply(s, m, key), NONE)
    ensures RecordReply(s, m, key).client == s.client && RecordReply(s, m, key).orphaned == s.orphaned
    ensures RecordReply(s, m, key).attempts == s.attempts && RecordReply(s, m, key).upstream.Some? == s.upstream.Some?
  {
    hide Traffic, Letters, Farewell, RequestKeys;
  }

  lemma UpstreamMessageSame(s: State, m: Message, env: Env)
    requires s.upstream.Some? && !IsShutdownReply(m)
    ensures Same(s, HandleUpstreamMessage(s, m, env).s, Told(s, m, env))
  {
    hide HandleServerResponse, HandleServerRequest, Protocol.IdKey, EnqueueClient, RecordReply, Same;
    NothingQuiet(s);
    if m.decodable && m.ResponseId().Some? {
      var key := Protocol.IdKey(m.ResponseId().value);
      var s1 := RecordReply(s, m, key);
      RecordSame(s, m, key);
      ServerResponseSame(s1, m, key, env);
      SameThrough(s, s1, HandleServerResponse(s1, m, key, env).s, Told(s, m, env));
    } else if m.decodable && m.RequestId().Some? {
      ServerRequestSame(s, m, m.RequestId().value, Protocol.IdKey(m.RequestId().value), env);
    }
    EnqueueSame(s, Relayed(m), env);
  }

  lemma ServerQuiet(s: State, event: ReaderEvent, now: nat, env: Env)
    requires s.upstream.Some?
    ensures Quiet(s, HandleServerEvent(s, event, now, env).s, if event.Received? then Told(s, event.m, env) else NONE)
  {
    hide HandleShutdownReply, HandleUpstreamMessage, UpstreamFailed, Quiet, Same;
    FailedQuiet(s);
    if event.Received? {
      if IsShutdownReply(event.m) {
        ShutdownReplyQuiet(s, now, env);
      } else {
        UpstreamMessageSame(s, event.m, env);
        SameQuiet(s, HandleUpstreamMessage(s, event.m, env).s, Told(s, event.m, env));
      }
    }
  }
}
