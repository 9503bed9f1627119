/** Every message of the server keeps the invariant. */
module ServerProofs {
  import opened Json
  import opened Protocol
  import opened Streams
  import opened Coordinator
  import opened Invariants
  import opened LifecycleProofs

  lemma ReplyRecordOk(up: Upstream, m: Message, key: string)
    requires ServerOk(up)
    ensures ServerOk(up.(log := up.log.(replies := up.log.replies + {(key, m.result)},
                                        stray := up.log.stray || key !in RequestKeys(up.log.sent))))
  {
    hide InitOrder, FirstInit, Fingerprint, IdKey, RequestKeys;
  }

  lemma RecordReplyKeeps(s: State, m: Message, key: string)
    requires Invariant(s)
    ensures Invariant(RecordReply(s, m, key))
  {
    hide InitOrder, InitSent, InitializedSent, ForwardedAny, OpenAt, Answered, ServerOk, ClientOk, Connections, KeptOk,
         Agreement, Stage, RequestKeys, Delivered;
    if s.upstream.Some? { ReplyRecordOk(s.upstream.value, m, key); }
  }

  lemma RoutedOk(c: Client, key: string, phase: Phase, accepted: bool)
    requires ClientOk(c) && key in c.forwarded && (Live(c.phase) ==> Live(phase))
    ensures accepted ==> ClientOk(Reply(c.(forwarded := c.forwarded - {key}, phase := phase), Routed(key), accepted))
  {
    hide Delivered, IdKey;
    Delivered1(c.log.sent, Routed(key));
    assert multiset(c.forwarded) == multiset(c.forwarded - {key}) + multiset{key};
  }

  /** The response to the only request a server was sent is the response to its initialize. */
  lemma CacheOk(up: Upstream, m: Message, key: string)
    requires ServerOk(up) && up.fingerprint.Some? && !ForwardedAny(up.log.sent)
    requires (key, m.result) in up.log.replies && (!up.log.stray ==> key in RequestKeys(up.log.sent))
    ensures m.error ==> ServerOk(up.(fingerprint := None, result := None, restartRequired := true))
    ensures ServerOk(up.(result := m.result))
  {
    hide InitOrder, FirstInit, Fingerprint, IdKey, RequestKeys, ForwardedAny;
    OnlyInitialize(up.log.sent);
  }

  /** A response that is routed to the client leaves everything else as it was. */
  lemma RouteKeeps(s: State, m: Message, key: string, env: Env)
    requires Invariant(s) && s.client.Some? && key in s.client.value.forwarded
    requires s.client.value.phase != WaitingForInitialized(true)
    ensures Kept(EnqueueClient(s.(client := Some(s.client.value.(forwarded := s.client.value.forwarded - {key}))),
                               Routed(key), env))
  {
    hide InitOrder, InitSent, InitializedSent, ForwardedAny, ServerOk, ClientOk, Connections, KeptOk, Agreement, Stage,
         Recorded, Settled;
    RoutedOk(s.client.value, key, s.client.value.phase, env.write(s.attempts));
  }

  lemma RouteFailedInitializeKeeps(s: State, m: Message, key: string, env: Env)
    requires Invariant(s) && s.client.Some? && key in s.client.value.forwarded && !s.lifecycle.Stopped?
    requires s.client.value.phase == WaitingForInitialized(true)
    requires s.upstream.Some? ==>
      (key, m.result) in s.upstream.value.log.replies
        && (!s.upstream.value.log.stray ==> key in RequestKeys(s.upstream.value.log.sent))
    requires m.error
    ensures var c := s.client.value.(forwarded := s.client.value.forwarded - {key}, phase := WaitingForExit);
            Kept(EnqueueClient(CacheInitialize(s.(client := Some(c)), m), Routed(key), env))
  {
    hide InitOrder, InitSent, InitializedSent, ForwardedAny, ServerOk, ClientOk, Connections, KeptOk, Agreement, Stage,
         Settled, Delivered, RequestKeys;
    RoutedOk(s.client.value, key, WaitingForExit, env.write(s.attempts));
    CacheOk(s.upstream.value, m, key);
  }

  lemma RouteInitializeKeeps(s: State, m: Message, key: string, env: Env)
    requires Invariant(s) && s.client.Some? && key in s.client.value.forwarded && !s.lifecycle.Stopped?
    requires s.client.value.phase == WaitingForInitialized(true)
    requires s.upstream.Some? ==>
      (key, m.result) in s.upstream.value.log.replies
        && (!s.upstream.value.log.stray ==> key in RequestKeys(s.upstream.value.log.sent))
    requires !m.error
    ensures var c := s.client.value.(forwarded := s.client.value.forwarded - {key});
            Kept(EnqueueClient(CacheInitialize(s.(client := Some(c)), m), Routed(key), env))
  {
    hide InitOrder, InitSent, InitializedSent, ForwardedAny, ServerOk, ClientOk, Connections, KeptOk, Agreement, Stage,
         Settled, Delivered, RequestKeys;
    RoutedOk(s.client.value, key, s.client.value.phase, env.write(s.attempts));
    CacheOk(s.upstream.value, m, key);
  }

  lemma OrphanKeeps(s: State, key: string)
    requires Invariant(s)
    ensures Invariant(s.(orphaned := s.orphaned - {key}))
  {
    hide Shape, ServerOk, ClientOk, Recorded, KeptOk, Linked, Connections;
  }

  lemma ServerResponseKeeps(s: State, m: Message, key: string, env: Env)
    requires Invariant(s) && !s.lifecycle.Stopped?
    requires s.upstream.Some? ==>
      (key, m.result) in s.upstream.value.log.replies
        && (!s.upstream.value.log.stray ==> key in RequestKeys(s.upstream.value.log.sent))
    ensures Kept(HandleServerResponse(s, m, key, env))
  {
    hide Shape, ServerOk, ClientOk, Recorded, KeptOk, Linked, Connections, CacheInitialize, EnqueueClient, RequestKeys;
    OrphanKeeps(s, key);
    if s.client.Some? && key in s.client.value.forwarded {
      if s.client.value.phase == WaitingForInitialized(true) {
        if m.error { RouteFailedInitializeKeeps(s, m, key, env); } else { RouteInitializeKeeps(s, m, key, env); }
      }
      else { RouteKeeps(s, m, key, env); }
    }
  }

  lemma Account(received: multiset<string>, inherited: multiset<string>, answered: multiset<string>,
                pending: multiset<string>, key: string)
    ensures received + inherited == answered + pending ==>
      && (received + multiset{key}) + inherited == answered + (pending + multiset{key})
      && (received + multiset{key}) + inherited == (answered + multiset{key}) + pending
  {
    if received + inherited == answered + pending {
      assert (received + multiset{key}) + inherited == (received + inherited) + multiset{key};
      assert (answered + multiset{key}) + pending == (answered + pending) + multiset{key};
    }
  }

  lemma NoteOk(up: Upstream, m: Message, key: string, reused: bool)
    requires ServerOk(up)
    ensures ServerOk(NoteRequest(up, m, key, reused))
  {
    hide InitOrder, FirstInit, Fingerprint, IdKey;
  }

  lemma NewRequestOk(c: Client, id: Value)
    requires ClientOk(c)
    ensures var c' := c.(serverRequests := c.serverRequests[IdKey(id) := id]);
            ClientOk(c')
            && (IdKey(id) !in c.serverRequests ==> PendingKeys(Some(c')) == PendingKeys(Some(c)) + multiset{IdKey(id)})
  {
    hide Routing, IdKey;
    var m := c.serverRequests;
    assert m[IdKey(id) := id].Keys == m.Keys + {IdKey(id)};
  }

  lemma NoteRequestKeeps(s: State, m: Message, id: Value)
    requires Invariant(s) && s.client.Some? && s.upstream.Some?
    ensures var c, key := s.client.value, IdKey(id);
            Invariant(s.(upstream := Some(NoteRequest(s.upstream.value, m, key, key in c.serverRequests)),
                         client := Some(c.(serverRequests := c.serverRequests[key := id]))))
  {
    hide InitOrder, InitSent, InitializedSent, ForwardedAny, OpenAt, Answered, ServerOk, ClientOk, Connections, KeptOk,
         Agreement, Stage, IdKey, PendingKeys, Delivered;
    NoteOk(s.upstream.value, m, IdKey(id), IdKey(id) in s.client.value.serverRequests);
    NewRequestOk(s.client.value, id);
    var log := s.upstream.value.log;
    Account(log.received, log.inherited, Answered(log.sent), PendingKeys(s.client), IdKey(id));
  }

  lemma LocalAnswerOk(up: Upstream, id: Value, accepted: bool)
    requires ServerOk(up)
    ensures var up' := Send(up, LocalAnswer(id), accepted);
            && InitOrder(up'.log.sent)
            && (accepted ==>
                  && ServerOk(up')
                  && InitSent(up'.log.sent) == InitSent(up.log.sent)
                  && OpenAt(up'.log.sent) == OpenAt(up.log.sent)
                  && Answered(up'.log.sent) == Answered(up.log.sent) + multiset{IdKey(id)})
  {
    hide InitOrder, InitSent, InitializedSent, ForwardedAny, FirstInit, OpenAt, Answered, Fingerprint, IdKey;
    Written(up.log.sent, LocalAnswer(id));
  }

  lemma LocalAnswerKeeps(s: State, m: Message, id: Value, env: Env)
    requires Invariant(s) && s.client == None && s.upstream.Some?
    ensures Kept(WriteUpstream(s.(upstream := Some(NoteRequest(s.upstream.value, m, IdKey(id), false))),
                               LocalAnswer(id), env))
  {
    hide InitOrder, InitSent, InitializedSent, ForwardedAny, OpenAt, Answered, ServerOk, Connections, KeptOk, Agreement,
         Stage, IdKey, Delivered;
    NoteOk(s.upstream.value, m, IdKey(id), false);
    LocalAnswerOk(NoteRequest(s.upstream.value, m, IdKey(id), false), id, env.write(s.attempts));
    var log := s.upstream.value.log;
    Account(log.received, log.inherited, Answered(log.sent), PendingKeys(s.client), IdKey(id));
  }

  lemma ServerRequestKeeps(s: State, m: Message, id: Value, env: Env)
    requires Invariant(s) && s.upstream.Some?
    ensures Kept(HandleServerRequest(s, m, id, IdKey(id), env))
  {
    hide Shape, ServerOk, ClientOk, Recorded, KeptOk, Linked, Connections, EnqueueClient, WriteUpstream, NoteRequest,
         IdKey;
    if m.name != NotAString {
      if s.client.Some? {
        var c, key := s.client.value, IdKey(id);
        NoteRequestKeeps(s, m, id);
        EnqueueKeeps(s.(upstream := Some(NoteRequest(s.upstream.value, m, key, key in c.serverRequests)),
                        client := Some(c.(serverRequests := c.serverRequests[key := id]))), Relayed(m), env);
      } else { LocalAnswerKeeps(s, m, id, env); }
    }
  }

  lemma UpstreamMessageKeeps(s: State, m: Message, env: Env)
    requires Invariant(s) && s.upstream.Some? && !s.lifecycle.Stopped?
    ensures Kept(HandleUpstreamMessage(s, m, env))
  {
    hide Shape, ServerOk, ClientOk, Recorded, KeptOk, Linked, Connections, EnqueueClient, HandleServerRequest,
         HandleServerResponse, IdKey, RequestKeys;
    if m.decodable {
      if m.ResponseId().Some? {
        var key := IdKey(m.ResponseId().value);
        RecordReplyKeeps(s, m, key);
        ServerResponseKeeps(RecordReply(s, m, key), m, key, env);
      } else if m.RequestId().Some? { ServerRequestKeeps(s, m, m.RequestId().value, env); }
      else { EnqueueKeeps(s, Relayed(m), env); }
    }
  }
}
