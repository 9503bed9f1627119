/** A client that leaves: what its departure writes to the server, and that it keeps the invariant. */
module DepartureProofs {
  import opened Json
  import opened Order
  import opened Protocol
  import opened Streams
  import opened Coordinator
  import opened Invariants
  import opened LifecycleProofs

  /** What the messages for a departing client leave alone at the server. */
  predicate Onward(up: Upstream, up': Upstream) {
    && up' == up.(nextWriteId := up'.nextWriteId, log := up.log.(sent := up'.log.sent, writeLost := up'.log.writeLost))
    && (up.log.writeLost ==> up'.log.writeLost)
    && InitOrder(up'.log.sent)
    && FirstInit(up'.log.sent) == FirstInit(up.log.sent)
    && InitSent(up'.log.sent) == InitSent(up.log.sent)
  }

  predicate OnwardOption(up: Option<Upstream>, up': Option<Upstream>) {
    if up.Some? then up'.Some? && Onward(up.value, up'.value) else up' == None
  }

  predicate OnlyWrote(s: State, s': State) {
    && s' == s.(attempts := s'.attempts, upstream := s'.upstream, orphaned := s'.orphaned)
    && OnwardOption(s.upstream, s'.upstream)
  }

  lemma FarewellOk(up: Upstream, e: ToServer, accepted: bool)
    requires InitOrder(up.log.sent) && MayFollow(up.log.sent, e) && !e.InitializeRequest?
    ensures var up' := Send(up, e, accepted);
            && Onward(up, up')
            && (!up'.log.writeLost ==>
                  OpenAt(up'.log.sent) == OpenStep(OpenAt(up.log.sent), e)
                  && Answered(up'.log.sent) == AnsweredStep(Answered(up.log.sent), e))
  {
    hide InitOrder, InitSent, InitializedSent, ForwardedAny, FirstInit, OpenAt, Answered, OpenStep, AnsweredStep;
    Written(up.log.sent, e);
  }

  predicate CanSpeak(s: State) {
    s.upstream.Some? ==> InitOrder(s.upstream.value.log.sent) && InitSent(s.upstream.value.log.sent)
  }

  lemma {:induction false} CloseAllEffect(s: State, uris: seq<string>, env: Env)
    requires uris != [] ==> CanSpeak(s)
    requires s.upstream.Some? ==> InitOrder(s.upstream.value.log.sent)
    ensures var s' := CloseAll(s, uris, env).s;
            OnlyWrote(s, s')
            && (CloseAll(s, uris, env).ok && s.upstream.Some? && !s'.upstream.value.log.writeLost ==>
                  && (forall uri | uri in OpenAt(s'.upstream.value.log.sent) ::
                      uri in OpenAt(s.upstream.value.log.sent) && uri !in uris)
                  && Answered(s'.upstream.value.log.sent) == Answered(s.upstream.value.log.sent))
    decreases |uris|
  {
    hide InitOrder, InitSent, InitializedSent, FirstInit, OpenAt, Answered;
    if uris != [] && env.uriParses(uris[0]) {
      var e := CloseDocument(uris[0]);
      if s.upstream.Some? { FarewellOk(s.upstream.value, e, env.write(s.attempts)); }
      CloseAllEffect(WriteUpstream(s, e, env).s, uris[1..], env);
    }
  }

  lemma {:induction false} CancelAllEffect(s: State, keys: seq<string>, env: Env)
    requires keys != [] ==> CanSpeak(s)
    requires s.upstream.Some? ==> InitOrder(s.upstream.value.log.sent)
    ensures var s' := CancelAll(s, keys, env).s;
            OnlyWrote(s, s')
            && (CancelAll(s, keys, env).ok && s.upstream.Some? && !s'.upstream.value.log.writeLost ==>
                  && OpenAt(s'.upstream.value.log.sent) == OpenAt(s.upstream.value.log.sent)
                  && Answered(s'.upstream.value.log.sent) == Answered(s.upstream.value.log.sent))
    ensures CancelAll(s, keys, env).ok <==> forall k | k in keys :: IsNumberOrString(RequestIdFromKey(k))
    decreases |keys|
  {
    hide InitOrder, InitSent, InitializedSent, FirstInit, OpenAt, Answered, RequestIdFromKey, IsNumberOrString;
    if keys != [] && IsNumberOrString(RequestIdFromKey(keys[0])) {
      var e := CancelRequest(RequestIdFromKey(keys[0]));
      if s.upstream.Some? { FarewellOk(s.upstream.value, e, env.write(s.attempts)); }
      var s1 := WriteUpstream(s, e, env).s;
      CancelAllEffect(s1.(orphaned := s1.orphaned + {keys[0]}), keys[1..], env);
    }
  }

  lemma {:induction false} AnswerAllEffect(s: State, requests: map<string, Value>, keys: seq<string>, env: Env)
    requires forall k | k in keys :: k in requests && IdKey(requests[k]) == k
    requires s.upstream.Some? ==> InitOrder(s.upstream.value.log.sent)
    ensures var s' := AnswerAll(s, requests, keys, env);
            OnlyWrote(s, s')
            && (s.upstream.Some? && !s'.upstream.value.log.writeLost ==>
                  && OpenAt(s'.upstream.value.log.sent) == OpenAt(s.upstream.value.log.sent)
                  && Answered(s'.upstream.value.log.sent) == Answered(s.upstream.value.log.sent) + multiset(keys))
    decreases |keys|
  {
    hide InitOrder, InitSent, InitializedSent, FirstInit, OpenAt, Answered, IdKey;
    if keys != [] {
      var e := CancelledAnswer(requests[keys[0]]);
      if s.upstream.Some? { FarewellOk(s.upstream.value, e, env.write(s.attempts)); }
      AnswerAllEffect(WriteUpstream(s, e, env).s, requests, keys[1..], env);
      assert keys == [keys[0]] + keys[1..];
    }
  }

  lemma OnwardTransitive(a: State, b: State, c: State)
    requires OnlyWrote(a, b) && OnlyWrote(b, c)
    ensures OnlyWrote(a, c)
  {
    hide InitOrder, InitSent, FirstInit;
  }

  lemma SettleEffect(s: State, c: Client, env: Env)
    requires s.upstream.Some? ==> InitOrder(s.upstream.value.log.sent)
    requires c.openDocuments != {} || c.forwarded != {} ==> CanSpeak(s)
    requires forall k | k in c.serverRequests :: IdKey(c.serverRequests[k]) == k
    ensures var r := Settle(s, c, env);
            OnlyWrote(s, r.s)
            && (r.ok && s.upstream.Some? && !r.s.upstream.value.log.writeLost ==>
                  && (forall uri | uri in OpenAt(r.s.upstream.value.log.sent) ::
                        uri in OpenAt(s.upstream.value.log.sent) && uri !in c.openDocuments)
                  && Answered(r.s.upstream.value.log.sent)
                     == Answered(s.upstream.value.log.sent) + multiset(c.serverRequests.Keys))
  {
    hide InitOrder, InitSent, InitializedSent, FirstInit, OpenAt, Answered, IdKey, CloseAll, CancelAll, AnswerAll,
         Onward, SortedKeys;
    assert c.openDocuments == {} ==> SortedKeys(c.openDocuments) == [];
    assert c.forwarded == {} ==> SortedKeys(c.forwarded) == [];
    var r1 := CloseAll(s, SortedKeys(c.openDocuments), env);
    CloseAllEffect(s, SortedKeys(c.openDocuments), env);
    if r1.ok {
      SpeakOn(s, r1.s);
      var r2 := CancelAll(r1.s, SortedKeys(c.forwarded), env);
      CancelAllEffect(r1.s, SortedKeys(c.forwarded), env);
      OnwardTransitive(s, r1.s, r2.s);
      if r2.ok {
        SpeakOn(s, r2.s);
        SortedKeysMultiset(c.serverRequests.Keys);
        AnswerAllEffect(r2.s, c.serverRequests, SortedKeys(c.serverRequests.Keys), env);
        OnwardTransitive(s, r2.s, AnswerAll(r2.s, c.serverRequests, SortedKeys(c.serverRequests.Keys), env));
        if s.upstream.Some? {
          LostStays(s, r1.s);
          LostStays(r1.s, r2.s);
          LostStays(r2.s, AnswerAll(r2.s, c.serverRequests, SortedKeys(c.serverRequests.Keys), env));
        }
      }
    }
  }

  lemma SpeakOn(s: State, s': State)
    requires OnlyWrote(s, s')
    ensures s'.upstream.Some? ==> InitOrder(s'.upstream.value.log.sent)
    ensures CanSpeak(s) ==> CanSpeak(s')
  {
    hide InitOrder, InitSent, FirstInit;
  }

  lemma LostStays(s: State, s': State)
    requires OnlyWrote(s, s') && s.upstream.Some?
    ensures s'.upstream.Some? && (s.upstream.value.log.writeLost ==> s'.upstream.value.log.writeLost)
  {
    hide InitOrder, InitSent, FirstInit;
  }

  lemma OnwardOk(up: Upstream, up': Upstream)
    requires ServerOk(up) && Onward(up, up')
    ensures ServerOk(up')
  {
    hide InitOrder, InitSent, FirstInit, Fingerprint, IdKey;
  }

  /** What holds of a state that a departed client left, once everything owed was written. */
  lemma LeftKeeps(s: State, s': State)
    requires Invariant(s) && s.client.Some? && OnlyWrote(DropClient(s), s')
    requires s.upstream.Some? && !s'.upstream.value.log.writeLost ==>
      && (forall uri | uri in OpenAt(s'.upstream.value.log.sent) ::
            uri in OpenAt(s.upstream.value.log.sent) && uri !in s.client.value.openDocuments)
      && Answered(s'.upstream.value.log.sent)
         == Answered(s.upstream.value.log.sent) + multiset(s.client.value.serverRequests.Keys)
    ensures Invariant(s')
  {
    hide InitOrder, InitSent, FirstInit, Fingerprint, IdKey, Recorded, ServerOk, Untouched, ClientOk, KeptOk, Answered,
         OpenAt, Agreement;
    DropClientRecorded(s);
    LeftRecorded(DropClient(s), s');
    if s.upstream.Some? { OnwardOk(s.upstream.value, s'.upstream.value); }
  }

  lemma LeftSafe(s: State, s': State)
    requires Invariant(s) && OnlyWrote(DropClient(s), s')
    ensures Safe(s')
  {
    hide Shape, Linked, Recorded, ServerOk, ClientOk, Connections, KeptOk, OnlyWrote;
    DropClientRecorded(s);
    LeftRecorded(DropClient(s), s');
  }

  lemma LeftRecorded(s: State, s': State)
    requires Recorded(s.upstream, s.past) && OnlyWrote(s, s')
    ensures Recorded(s'.upstream, s'.past)
  {
    hide InitOrder, InitSent, FirstInit, Delivered;
  }

  /** A client that has anything to settle talks to a server that was initialized. */
  lemma MaySettle(s: State)
    requires Invariant(s) && s.client.Some?
    ensures s.upstream.Some? ==> InitOrder(s.upstream.value.log.sent)
    ensures s.client.value.openDocuments != {} || s.client.value.forwarded != {} ==> CanSpeak(DropClient(s))
    ensures forall k | k in s.client.value.serverRequests :: IdKey(s.client.value.serverRequests[k]) == k
  {
    hide InitOrder, InitSent, FirstInit, Fingerprint, IdKey, ServerOk, Connections, KeptOk, Settled, Delivered;
  }

  lemma DisconnectKeeps(s: State, now: nat, env: Env)
    requires Invariant(s)
    ensures var r := Disconnect(s, now, env);
            Kept(r) && (r.ok ==> r.s.client == None)
  {
    hide InitOrder, InitSent, Shape, Linked, CanSpeak, IdKey, Recorded, ServerOk, ClientOk, Connections, KeptOk,
         Answered, OpenAt, Settle, BeginRestart, OnlyWrote;
    if s.client.Some? {
      var c := s.client.value;
      MaySettle(s);
      SettleEffect(DropClient(s), c, env);
      var r := Settle(DropClient(s), c, env);
      LeftSafe(s, r.s);
      if r.ok {
        LeftSame(DropClient(s), r.s);
        LeftKeeps(s, r.s);
        if !r.s.stopRequested && r.s.upstream.Some? && r.s.upstream.value.restartRequired {
          RestartAfterLeaving(r.s, now, env);
        } else {
          IdleKeeps(r.s, now);
        }
      }
    }
  }

  lemma LeftSame(s: State, s': State)
    requires OnlyWrote(s, s')
    ensures s'.client == s.client && s'.stopRequested == s.stopRequested && s'.lifecycle == s.lifecycle
    ensures s'.upstream.Some? <==> s.upstream.Some?
  {
    hide InitOrder, InitSent, FirstInit;
  }

  lemma IdleKeeps(s: State, now: nat)
    requires Invariant(s)
    ensures Invariant(s.(idleSince := now))
  {
    hide Shape, ServerOk, ClientOk, Recorded, KeptOk, Linked, Connections;
  }

  lemma RestartAfterLeaving(s: State, now: nat, env: Env)
    requires Invariant(s) && s.client == None && !s.stopRequested
    requires s.upstream.Some? && s.upstream.value.restartRequired
    ensures var r := BeginRestart(s, now, env);
            Kept(r) && r.s.client == None && (r.ok ==> Invariant(r.s.(idleSince := now)))
  {
    hide ServerOk, ClientOk, Recorded, KeptOk, Linked, Connections, StartUpstream;
    BeginRestartKeeps(s, now, env);
    var r := BeginRestart(s, now, env);
    if r.ok { IdleKeeps(r.s, now); }
  }

  lemma StopFlagKeeps(s: State)
    requires Invariant(s)
    ensures Invariant(s.(stopRequested := true, accepting := false, pending := map[]))
    ensures Invariant(s.(stopRequested := true))
  {
    hide Shape, ServerOk, ClientOk, Recorded, KeptOk, Linked;
  }

  /** Stopping disconnects the client and leaves the daemon stopping or stopped. */
  lemma BeginStopKeeps(s: State, now: nat, env: Env)
    requires Invariant(s)
    ensures var r := BeginStop(s, now, env);
            Kept(r) && (r.ok ==> r.s.lifecycle.IsStopping() && r.s.client == None)
  {
    hide Invariant, Safe, Disconnect, BeginShutdown;
    StopFlagKeeps(s);
    var s0 := s.(stopRequested := true, accepting := false, pending := map[]);
    DisconnectKeeps(s0, now, env);
    var r := Disconnect(s0, now, env);
    if r.ok { StopStageKeeps(r.s, now, env); }
  }

  lemma StopStageKeeps(s: State, now: nat, env: Env)
    requires Invariant(s) && s.client == None
    ensures var r := StopStage(s, now, env);
            Kept(r) && r.ok && r.s.lifecycle.IsStopping() && r.s.client == None
  {
    hide ServerOk, ClientOk, Recorded, KeptOk, Connections, Settled, InitSent, InitializedSent, ForwardedAny,
         BeginShutdown;
    var lc := s.lifecycle;
    if lc.Running? {
      BeginShutdownKeeps(s, Stop, now, env);
      ShutdownKeepsClient(s, Stop, now, env);
    } else if s.upstream.Some? {
      LeaveKeeps(s, StopStage(s, now, env).s.lifecycle, None);
    }
  }

  lemma ShutdownKeepsClient(s: State, after: AfterExit, now: nat, env: Env)
    requires s.upstream.Some?
    ensures BeginShutdown(s, after, now, env).s.client == s.client
    ensures BeginShutdown(s, after, now, env).s.stopRequested == s.stopRequested
  {
  }
}
