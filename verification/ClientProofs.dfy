/** Every message of the client keeps the invariant. */
module ClientProofs {
  import opened Json
  import opened Protocol
  import opened Streams
  import opened Coordinator
  import opened Invariants
  import opened LifecycleProofs
  import opened DepartureProofs

  // ----- initialize

  lemma KeepInitialize(s: State, init: PendingInitialize)
    requires Invariant(s) && s.client.Some? && s.client.value.phase == WaitingForInitialize
    requires init.fingerprint == Fingerprint(init.normalized)
    ensures Invariant(SetPhase(s.(pendingInitialize := Some(init)), WaitingForUpstream))
  {
    hide ServerOk, Recorded, Settled, InitSent, InitializedSent, ForwardedAny, Connections, Agreement, Fingerprint,
         IdKey, Delivered;
  }

  lemma CachedKeeps(s: State, init: PendingInitialize)
    requires Invariant(s) && s.client.Some? && s.client.value.phase == WaitingForInitialize
    requires s.upstream.Some? && s.upstream.value.fingerprint.Some? && !s.upstream.value.restartRequired
    ensures Invariant(s.(client := Some(s.client.value.(wantsBackground := init.wantsBackground,
                                                        phase := WaitingForInitialized(false)))))
  {
    hide Recorded, Settled, InitSent, InitializedSent, ForwardedAny, Connections, Agreement, Fingerprint, IdKey,
         Delivered, InitOrder, FirstInit;
    FirstInitSent(s.upstream.value.log.sent);
  }

  lemma ServeInitializeKeeps(s: State, init: PendingInitialize, now: nat, env: Env)
    requires Invariant(s) && s.client.Some? && s.client.value.phase == WaitingForInitialize
    requires !s.lifecycle.Stopped? && (s.stopRequested ==> !s.lifecycle.Absent?)
    requires init.fingerprint == Fingerprint(init.normalized)
    ensures Kept(ServeInitialize(s, init, now, env))
  {
    hide ClientOk, Recorded, Settled, InitSent, InitializedSent, ForwardedAny, Connections, KeptOk, Fingerprint, IdKey,
         InitOrder, FirstInit, ForwardInitialize, BeginRestart;
    if ShouldRestart(s.upstream, init.fingerprint) {
      KeepInitialize(s, init);
      BeginRestartKeeps(SetPhase(s.(pendingInitialize := Some(init)), WaitingForUpstream), now, env);
    } else if s.upstream.value.fingerprint.Some? {
      if s.upstream.value.result.Some? {
        var e := CachedInitialize(init.id, s.upstream.value.result.value);
        EnqueueKeeps(s, e, env);
        CachedKeeps(EnqueueClient(s, e, env).s, init);
      }
    } else {
      FirstInitSent(s.upstream.value.log.sent);
      ForwardInitializeKeeps(s, init, env);
    }
  }

  lemma HandleInitializeKeeps(s: State, m: Message, now: nat, env: Env)
    requires Invariant(s) && s.client.Some? && s.client.value.phase == WaitingForInitialize
    requires !s.lifecycle.Stopped? && (s.stopRequested ==> !s.lifecycle.Absent?)
    ensures Kept(HandleInitialize(s, m, now, env))
  {
    hide Shape, ServerOk, ClientOk, Recorded, KeptOk, Linked, Connections, NormalizeInitialize, ServeInitialize,
         Fingerprint, WantsBackgroundWork;
    if m.RequestId().Some? && m.params.Some? && NormalizeInitialize(m.params.value, env.target).Ok? {
      var n := NormalizeInitialize(m.params.value, env.target).value;
      ServeInitializeKeeps(s, PendingInitialize(m.id.value, n, Fingerprint(n), WantsBackgroundWork(n)), now, env);
    }
  }

  // ----- messages of the client

  lemma TrackOk(s: State, m: Message)
    requires s.client.Some? && ClientOk(s.client.value) && Live(s.client.value.phase)
    ensures var c, c' := s.client.value, TrackDocument(s, m).client.value;
            && ClientOk(c') && c' == c.(openDocuments := c'.openDocuments)
            && TrackDocument(s, m) == s.(client := Some(c'))
            && c'.openDocuments == OpenStep(c.openDocuments, Forwarded(m))
  {
    hide Routing, IdKey;
  }

  lemma RecordOk(c: Client, key: string)
    requires ClientOk(c) && Live(c.phase)
    ensures ClientOk(RecordRequest(c, key))
  {
    hide Delivered, IdKey;
  }

  /** A message of a live client passed on to the server. */
  lemma PassOk(up: Upstream, m: Message, accepted: bool)
    requires ServerOk(up) && InitSent(up.log.sent)
    ensures var up' := Send(up, Forwarded(m), accepted);
            && InitOrder(up'.log.sent) && InitSent(up'.log.sent)
            && (accepted ==> ServerOk(up')
                             && OpenAt(up'.log.sent) == OpenStep(OpenAt(up.log.sent), Forwarded(m))
                             && Answered(up'.log.sent) == Answered(up.log.sent))
  {
    hide InitOrder, InitSent, InitializedSent, ForwardedAny, FirstInit, OpenAt, Answered, Fingerprint, IdKey, OpenStep;
    Written(up.log.sent, Forwarded(m));
  }

  lemma PassKeeps(s: State, m: Message, c: Client, env: Env)
    requires Invariant(s) && s.client.Some? && s.client.value.phase == Ready
    requires ClientOk(c) && c.phase == Ready && c.generation == s.client.value.generation
    requires c.serverRequests == s.client.value.serverRequests
    requires c.openDocuments == OpenStep(s.client.value.openDocuments, Forwarded(m))
    ensures Kept(WriteUpstream(s.(client := Some(c)), Forwarded(m), env))
  {
    hide InitOrder, InitSent, InitializedSent, ForwardedAny, OpenAt, Answered, ServerOk, ClientOk, Connections, KeptOk,
         OpenStep, Agreement, Stage, Delivered;
    if s.upstream.Some? {
      ReadyAtServer(s);
      PassOk(s.upstream.value, m, env.write(s.attempts));
      if OpenAt(s.upstream.value.log.sent) <= s.client.value.openDocuments {
        OpenMonotone(OpenAt(s.upstream.value.log.sent), s.client.value.openDocuments, Forwarded(m));
      }
    }
  }

  lemma ReadyAtServer(s: State)
    requires Invariant(s) && HasLive(s.client) && s.upstream.Some?
    ensures InitSent(s.upstream.value.log.sent)
  {
    hide InitOrder, InitSent, ServerOk, ClientOk, Connections, KeptOk, Settled, Recorded;
  }

  lemma OpenMonotone(a: set<string>, b: set<string>, e: ToServer)
    requires a <= b
    ensures OpenStep(a, e) <= OpenStep(b, e)
  {
  }

  lemma HandleReadyKeeps(s: State, m: Message, now: nat, env: Env)
    requires Invariant(s) && s.client.Some? && s.client.value.phase == Ready
    ensures Kept(HandleReady(s, m, now, env))
  {
    hide Shape, ServerOk, Recorded, KeptOk, Linked, Connections, Disconnect, HandleStop, WriteUpstream, EnqueueClient,
         TrackDocument, OpenStep, Routing, IdKey;
    if m.name == ShutdownMethod {
      if m.RequestId().Some? {
        LeavingKeeps(s);
        EnqueueKeeps(SetPhase(s, WaitingForExit), Success(m.RequestId().value), env);
      }
    } else if m.name == ExitMethod { DisconnectKeeps(s, now, env); }
    else if m.name == StopMethod {
      if m.StopId().Some? { HandleStopKeeps(s, m.StopId().value, env); }
    } else {
      TrackOk(s, m);
      var c := TrackDocument(s, m).client.value;
      if m.RequestId() == None { PassKeeps(s, m, c, env); }
      else {
        RecordOk(c, IdKey(m.RequestId().value));
        PassKeeps(s, m, RecordRequest(c, IdKey(m.RequestId().value)), env);
      }
    }
  }

  lemma LeavingKeeps(s: State)
    requires Invariant(s) && s.client.Some? && s.client.value.phase == Ready
    ensures Invariant(SetPhase(s, WaitingForExit))
  {
    hide ServerOk, Recorded, KeptOk, Connections, Agreement, InitSent, InitializedSent, ForwardedAny, Settled, Routing,
         IdKey;
  }

  lemma BecomeReadyKeeps(s: State, forward: bool)
    requires Invariant(s) && s.client.Some? && s.client.value.phase == WaitingForInitialized(forward)
    ensures Invariant(SetPhase(s, Ready))
  {
    hide ServerOk, Recorded, KeptOk, Connections, Agreement, InitSent, InitializedSent, ForwardedAny, Settled, Routing,
         IdKey;
  }

  lemma NoticeOk(up: Upstream, m: Message, accepted: bool)
    requires ServerOk(up) && up.fingerprint.Some? && !InitializedSent(up.log.sent)
    ensures var up' := Send(up, InitializedNotice(m), accepted);
            && InitOrder(up'.log.sent) && InitSent(up'.log.sent)
            && (accepted ==> ServerOk(up')
                             && OpenAt(up'.log.sent) == OpenAt(up.log.sent)
                             && Answered(up'.log.sent) == Answered(up.log.sent))
  {
    hide InitOrder, InitSent, InitializedSent, ForwardedAny, FirstInit, OpenAt, Answered, Fingerprint, IdKey;
    Written(up.log.sent, InitializedNotice(m));
  }

  lemma NoticeKeeps(s: State, m: Message, env: Env)
    requires Invariant(s) && s.client.Some? && s.client.value.phase == WaitingForInitialized(true)
    requires !s.lifecycle.Stopped?
    ensures var r := WriteUpstream(s, InitializedNotice(m), env);
            Safe(r.s) && (r.ok ==> Invariant(SetPhase(r.s, Ready)))
  {
    hide InitOrder, InitSent, InitializedSent, ForwardedAny, OpenAt, Answered, ServerOk, Connections, KeptOk, ClientOk,
         Agreement, Stage, Delivered;
    NoticeOk(s.upstream.value, m, env.write(s.attempts));
    ReadyOk(s.client.value);
  }

  lemma ReadyOk(c: Client)
    requires ClientOk(c) && Live(c.phase)
    ensures ClientOk(c.(phase := Ready)) && ClientOk(c.(phase := WaitingForExit))
  {
    hide Routing, IdKey;
  }

  lemma BeforeInitializedKeeps(s: State, m: Message, forward: bool, env: Env)
    requires Invariant(s) && s.client.Some? && s.client.value.phase == WaitingForInitialized(forward)
    requires !s.lifecycle.Stopped?
    ensures Kept(HandleBeforeInitialized(s, m, forward, env))
  {
    hide Shape, ServerOk, ClientOk, Recorded, KeptOk, Linked, Connections, WriteUpstream, EnqueueClient;
    if m.name == Initialized {
      if forward { NoticeKeeps(s, m, env); }
      else {
        BecomeReadyKeeps(s, forward);
        EnqueueKeeps(SetPhase(s, Ready), BackgroundReady, env);
      }
    } else if m.RequestId().Some? { EnqueueKeeps(s, Failure(m.RequestId().value), env); }
  }

  lemma AnswerOk(up: Upstream, m: Message, accepted: bool)
    requires ServerOk(up) && m.id.Some?
    ensures var up' := Send(up, Answer(m), accepted);
            && InitOrder(up'.log.sent)
            && (accepted ==>
                  && ServerOk(up')
                  && InitSent(up'.log.sent) == InitSent(up.log.sent)
                  && InitializedSent(up'.log.sent) == InitializedSent(up.log.sent)
                  && ForwardedAny(up'.log.sent) == ForwardedAny(up.log.sent)
                  && OpenAt(up'.log.sent) == OpenAt(up.log.sent)
                  && Answered(up'.log.sent) == Answered(up.log.sent) + multiset{IdKey(m.id.value)})
  {
    hide InitOrder, InitSent, InitializedSent, ForwardedAny, FirstInit, OpenAt, Answered, Fingerprint, IdKey;
    Written(up.log.sent, Answer(m));
  }

  lemma AnsweredClientOk(c: Client, key: string)
    requires ClientOk(c) && key in c.serverRequests
    ensures ClientOk(c.(serverRequests := c.serverRequests - {key}))
    ensures PendingKeys(Some(c)) == PendingKeys(Some(c.(serverRequests := c.serverRequests - {key}))) + multiset{key}
  {
    hide Routing, IdKey;
    var m := c.serverRequests;
    assert (m - {key}).Keys == m.Keys - {key};
  }

  lemma ClientResponseKeeps(s: State, m: Message, env: Env)
    requires Invariant(s) && m.id.Some?
    ensures Kept(HandleClientResponse(s, m, IdKey(m.id.value), env))
  {
    hide InitOrder, InitSent, InitializedSent, ForwardedAny, OpenAt, Answered, ServerOk, ClientOk, Connections, KeptOk,
         Agreement, Stage, IdKey, PendingKeys, Delivered;
    var key := IdKey(m.id.value);
    if s.client.Some? && key in s.client.value.serverRequests {
      AnsweredClientOk(s.client.value, key);
      if s.upstream.Some? { AnswerOk(s.upstream.value, m, env.write(s.attempts)); }
    }
  }

  lemma ClientMessageKeeps(s: State, m: Message, now: nat, env: Env)
    requires Invariant(s) && s.client.Some?
    requires !s.lifecycle.Stopped? && (s.stopRequested ==> !s.lifecycle.Absent?)
    ensures Kept(HandleClientMessage(s, m, now, env))
  {
    hide Shape, ServerOk, ClientOk, Recorded, KeptOk, Linked, Connections, HandleReady, HandleBeforeInitialized,
         HandleInitialize, HandleClientResponse, HandleStop, Disconnect, EnqueueClient, IdKey;
    if m.ResponseId().Some? { ClientResponseKeeps(s, m, env); }
    else {
      match s.client.value.phase
      case WaitingForInitialized(forward) => BeforeInitializedKeeps(s, m, forward, env);
      case Ready => HandleReadyKeeps(s, m, now, env);
      case _ =>
        if m.StopId().Some? { HandleStopKeeps(s, m.StopId().value, env); }
        if m.name == ExitMethod { DisconnectKeeps(s, now, env); }
        if m.RequestId().Some? { EnqueueKeeps(s, Failure(m.RequestId().value), env); }
        if s.client.value.phase == WaitingForInitialize { HandleInitializeKeeps(s, m, now, env); }
    }
  }
}
