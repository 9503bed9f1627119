/** What the daemon guarantees to its clients and to the language servers, over every run. */
module Theorems {
  import opened Json
  import Order
  import opened Protocol
  import opened Streams
  import opened Coordinator
  import opened Invariants
  import opened DepartureProofs
  import opened Effects
  import opened Frames
  import opened Turns
  import opened ClientProofs
  import opened LoopProofs

  // ----- the order of messages to a server

  lemma {:induction false} OrderBefore(log: seq<ToServer>, n: nat)
    requires InitOrder(log) && n <= |log|
    ensures InitOrder(log[..n])
    decreases |log|
  {
    if n < |log| {
      OrderBefore(log[..|log| - 1], n);
      assert log[..|log| - 1][..n] == log[..n];
    } else {
      assert log[..n] == log;
    }
  }

  lemma {:induction false} SentBefore(log: seq<ToServer>)
    ensures InitSent(log) <==> exists i | 0 <= i < |log| :: log[i].InitializeRequest?
    ensures InitializedSent(log) <==> exists i | 0 <= i < |log| :: log[i].InitializedNotice?
  {
    if log != [] {
      var front := log[..|log| - 1];
      SentBefore(front);
      forall i | 0 <= i < |log| ensures i < |log| - 1 ==> front[i] == log[i] {}
      if exists i | 0 <= i < |log| :: log[i].InitializeRequest? {
        var i :| 0 <= i < |log| && log[i].InitializeRequest?;
        if i < |log| - 1 { assert front[i].InitializeRequest?; }
      }
      if exists i | 0 <= i < |log| :: log[i].InitializedNotice? {
        var i :| 0 <= i < |log| && log[i].InitializedNotice?;
        if i < |log| - 1 { assert front[i].InitializedNotice?; }
      }
      if InitSent(front) { var i :| 0 <= i < |front| && front[i].InitializeRequest?; assert log[i].InitializeRequest?; }
      if InitializedSent(front) {
        var i :| 0 <= i < |front| && front[i].InitializedNotice?;
        assert log[i].InitializedNotice?;
      }
    }
  }

  predicate FromASession(e: ToServer) {
    e.Forwarded? || e.InitializedNotice? || e.CloseDocument? || e.CancelRequest?
  }

  /** An ordered stream holds one initialize and one initialized notification of the handshake
      at most, and no traffic of a session before its initialize. */
  lemma OrderMeans(log: seq<ToServer>)
    requires InitOrder(log)
    ensures forall i, j | 0 <= i < j < |log| :: !(log[i].InitializeRequest? && log[j].InitializeRequest?)
    ensures forall i, j | 0 <= i < j < |log| :: !(log[i].InitializedNotice? && log[j].InitializedNotice?)
    ensures forall j | 0 <= j < |log| && FromASession(log[j]) ::
              exists i | 0 <= i < j :: log[i].InitializeRequest?
  {
    hide InitSent, InitializedSent;
    forall j | 0 <= j < |log|
      ensures MayFollow(log[..j], log[j])
      ensures InitSent(log[..j]) <==> exists i | 0 <= i < j :: log[i].InitializeRequest?
      ensures InitializedSent(log[..j]) <==> exists i | 0 <= i < j :: log[i].InitializedNotice?
    {
      OrderBefore(log, j + 1);
      var head := log[..j + 1];
      assert head[..j] == log[..j] && head[j] == log[j];
      PrefixSent(log, j);
    }
  }

  lemma PrefixSent(log: seq<ToServer>, j: nat)
    requires j <= |log|
    ensures InitSent(log[..j]) <==> exists i | 0 <= i < j :: log[i].InitializeRequest?
    ensures InitializedSent(log[..j]) <==> exists i | 0 <= i < j :: log[i].InitializedNotice?
  {
    hide InitSent, InitializedSent;
    SentBefore(log[..j]);
    assert forall i | 0 <= i < j :: log[..j][i] == log[i];
    if exists i | 0 <= i < j :: log[i].InitializeRequest? {
      var i :| 0 <= i < j && log[i].InitializeRequest?;
      assert log[..j][i].InitializeRequest?;
    }
    if exists i | 0 <= i < j :: log[i].InitializedNotice? {
      var i :| 0 <= i < j && log[i].InitializedNotice?;
      assert log[..j][i].InitializedNotice?;
    }
  }

  /** Every stream any server was ever sent, in any run, is ordered; also when the run fails. */
  lemma StreamsInOrder(now: nat, reports: seq<Report>, turns: seq<Turn>, env: Env)
    requires AdmissibleRun(now, reports, turns, env)
    ensures var s := Run(now, reports, turns, env).s;
            && (s.upstream.Some? ==> InitOrder(s.upstream.value.log.sent))
            && forall up | up in s.past.servers :: InitOrder(up.log.sent)
  {
    hide Run, AdmissibleRun, Invariant, InitOrder, Delivered;
    RunKeeps(now, reports, turns, env);
  }

  // ----- lifecycle

  /** In every reachable state lifecycle, process and server agree, the shutdown deadlines
      armed for the server are those of the stages passed so far, each armed once and in order,
      and at most sixteen connections wait for admission. */
  lemma LifecycleAgrees(now: nat, reports: seq<Report>, turns: seq<Turn>, env: Env)
    requires AdmissibleRun(now, reports, turns, env) && Run(now, reports, turns, env).ok
    ensures var s := Run(now, reports, turns, env).s;
            && Agreement(s.lifecycle, s.process, Generation(s.upstream))
            && (s.upstream.Some? ==> Stage(s.lifecycle, s.upstream.value.log.stages))
            && |s.pending| <= 16
  {
    hide Run, AdmissibleRun, Agreement, Stage, ServerOk, ClientOk, Recorded, KeptOk, Linked;
    RunKeeps(now, reports, turns, env);
  }

  /** How far a server is on its way out. */
  function Rank(lc: Lifecycle): nat {
    if lc.AwaitingShutdownReply? then 1
    else if lc.AwaitingExitWrite? then 2
    else if lc.AwaitingExit? then 3
    else if lc.Killing? then 4
    else 0
  }

  /** The same server, and its shutdown has not gone back. */
  predicate Onward(s: State, s': State) {
    && s.upstream.Some? && s'.upstream.Some? && Generation(s'.upstream) == Generation(s.upstream)
    && Stages(s.upstream) <= Stages(s'.upstream) && Doomed(s, s')
  }

  /** The server of generation `g` is over: no process of that generation becomes a server. */
  predicate Over(s: State, g: nat) {
    && g <= s.generation && Generation(s.upstream) != Some(g)
    && !(s.lifecycle.Starting? && s.process == Some(g))
  }

  lemma StaysOver(s: State, s': State, g: nat, e: Effect)
    requires Over(s, g) && Step(s, s', e)
    ensures Over(s', g)
  {
    hide Read;
  }

  lemma GoesOn(s: State, s': State, e: Effect)
    requires s.upstream.Some? && Steady(s) && s.upstream.value.generation <= s.generation
    requires Step(s, s', e) && (s'.upstream.Some? ==> Doomed(s, s'))
    ensures Onward(s, s') || Over(s', s.upstream.value.generation)
  {
    hide Read, Doomed;
  }

  lemma TurnOnward(s: State, turn: Turn, env: Env)
    requires Invariant(s) && AdmissibleTurn(s, turn, env) && s.upstream.Some?
    ensures var s' := ServeTurn(s, turn, env).s;
            Onward(s, s') || Over(s', s.upstream.value.generation)
  {
    hide Invariant, Prologue, ServeTurn, Steady, Safe, Step, TurnEffect, Onward, Over, Doomed;
    PrologueKeeps(s, turn.now, turn.stalled, env);
    var p := Prologue(s, turn.now, turn.stalled, env);
    SteadyState(s);
    if p.ok {
      SteadyState(p.s);
      Announced(p.s);
    }
    TurnStep(s, turn, env);
    TurnDoomed(s, turn, env);
    GoesOn(s, ServeTurn(s, turn, env).s, TurnEffect(s, turn, env));
  }

  lemma Announced(s: State)
    requires Invariant(s)
    ensures s.upstream.Some? ==> s.past.announced
  {
    hide ServerOk, ClientOk, Linked, Recorded, KeptOk, Connections, Stage;
  }

  lemma TurnOver(s: State, turn: Turn, g: nat, env: Env)
    requires Invariant(s) && Over(s, g)
    ensures Over(ServeTurn(s, turn, env).s, g)
  {
    hide Invariant, Prologue, ServeTurn, Steady, Safe, Step, TurnEffect, Over;
    PrologueKeeps(s, turn.now, turn.stalled, env);
    var p := Prologue(s, turn.now, turn.stalled, env);
    if p.ok { SteadyState(p.s); }
    TurnStep(s, turn, env);
    StaysOver(s, ServeTurn(s, turn, env).s, g, TurnEffect(s, turn, env));
  }

  lemma {:induction false} OverForGood(s: State, turns: seq<Turn>, g: nat, env: Env)
    requires Invariant(s) && AdmissibleTurns(s, turns, env) && Over(s, g)
    ensures Over(Serve(s, turns, env).s, g)
    decreases |turns|
  {
    hide Invariant, ServeTurn, AdmissibleTurn, Over, Safe;
    if turns != [] && !s.lifecycle.Stopped? {
      var r := ServeTurn(s, turns[0], env);
      TurnKeeps(s, turns[0], env);
      TurnOver(s, turns[0], g, env);
      if r.ok { OverForGood(r.s, turns[1..], g, env); }
    }
  }

  lemma OnwardThrough(a: State, b: State, c: State)
    requires Onward(a, b) && Onward(b, c)
    ensures Onward(a, c)
  {
    hide Stages;
  }

  lemma NothingOnward(s: State)
    requires s.upstream.Some?
    ensures Onward(s, s)
  {
  }

  lemma {:induction false} ServeOnward(s: State, turns: seq<Turn>, env: Env)
    requires Invariant(s) && AdmissibleTurns(s, turns, env) && s.upstream.Some?
    ensures var s' := Serve(s, turns, env).s;
            Onward(s, s') || Over(s', s.upstream.value.generation)
    decreases |turns|
  {
    hide Invariant, ServeTurn, AdmissibleTurn, Onward, Over, Safe;
    if turns == [] || s.lifecycle.Stopped? {
      NothingOnward(s);
    } else {
      var r := ServeTurn(s, turns[0], env);
      TurnKeeps(s, turns[0], env);
      TurnOnward(s, turns[0], env);
      if r.ok {
        if Over(r.s, s.upstream.value.generation) {
          OverForGood(r.s, turns[1..], s.upstream.value.generation, env);
        } else {
          StillThere(s, r.s);
          ServeOnward(r.s, turns[1..], env);
          if Onward(r.s, Serve(r.s, turns[1..], env).s) { OnwardThrough(s, r.s, Serve(r.s, turns[1..], env).s); }
        }
      }
    }
  }

  lemma StillThere(s: State, s': State)
    requires Onward(s, s')
    ensures s'.upstream.Some? && Generation(s'.upstream) == Generation(s.upstream)
  {
  }

  /** The shutdown of a server never goes back: however a run goes on, failed runs included, as long
      as the server is the current one, the stages it had passed are the first of those it has
      passed later; and while the run has not failed, its lifecycle is no earlier one, and `Killing`
      is never left. */
  lemma ShutdownAdvances(s: State, turns: seq<Turn>, env: Env)
    requires Invariant(s) && AdmissibleTurns(s, turns, env) && s.upstream.Some?
    ensures var r := Serve(s, turns, env);
            r.s.upstream.Some? && Generation(r.s.upstream) == Generation(s.upstream) ==>
              && s.upstream.value.log.stages <= r.s.upstream.value.log.stages
              && (r.ok ==> Rank(s.lifecycle) <= Rank(r.s.lifecycle))
  {
    hide Invariant, Serve, AdmissibleTurns, Rank, Safe;
    ServeOnward(s, turns, env);
    TurnsKeep(s, turns, env);
    var r := Serve(s, turns, env);
    if r.ok && r.s.upstream.Some? && Generation(r.s.upstream) == Generation(s.upstream) { RankGrows(s, r.s); }
  }

  lemma RankGrows(s: State, s': State)
    requires Invariant(s) && Invariant(s') && Onward(s, s')
    ensures Rank(s.lifecycle) <= Rank(s'.lifecycle)
  {
    hide ServerOk, ClientOk, Recorded, KeptOk, Linked, Connections;
  }

  /** In no run, failed ones included, is a server process started after a stop was requested. */
  lemma NoLateStart(now: nat, reports: seq<Report>, turns: seq<Turn>, env: Env)
    requires AdmissibleRun(now, reports, turns, env)
    ensures Run(now, reports, turns, env).s.past.lateStarts == 0
  {
    hide Run, AdmissibleRun, Invariant, InitOrder, Delivered;
    RunKeeps(now, reports, turns, env);
  }

  /** An event of a worker whose connection, server or process is gone. */
  predicate Retired(s: State, event: Event) {
    match event
    case Reader(source, _) => RetiredSource(s, source)
    case Writer(source, _) => RetiredSource(s, source)
    case Process(g, _) => s.process != Some(g)
    case _ => false
  }

  predicate RetiredSource(s: State, source: Source) {
    if source.FromClient? then source.generation !in s.pending && ClientGeneration(s.client) != Some(source.generation)
    else Generation(s.upstream) != Some(source.generation)
  }

  /** What retired workers still report changes nothing: connections expire as they would have
      anyway, and the rest of the state is as before. */
  lemma RetiredIgnored(s: State, event: Event, now: nat, env: Env)
    requires Invariant(s) && Retired(s, event)
    ensures Dispatch(s, event, now, env) == Out(ExpirePending(s, now), true)
  {
    hide ServerOk, ClientOk, Recorded, KeptOk, Linked, Connections, Stage, HandlePendingMessage, HandleClientEvent,
         HandleServerEvent, Disconnect, UpstreamFailed;
    ExpireSame(s, now);
  }

  /** A worker of a generation that was given out and has ended: a connection that was closed, a
      server or a process that is gone. */
  predicate Gone(s: State, event: Event) {
    match event
    case Reader(source, _) => GoneSource(s, source)
    case Writer(source, _) => GoneSource(s, source)
    case Process(g, _) => g <= s.generation && s.process != Some(g)
    case _ => false
  }

  predicate GoneSource(s: State, source: Source) {
    && source.generation <= s.generation && RetiredSource(s, source)
    && (source.FromServer? ==> s.process != Some(source.generation))
  }

  lemma StaysGone(s: State, s': State, event: Event)
    requires Gone(s, event) && Aged(s, s')
    ensures Gone(s', event) && Retired(s', event)
  {
  }

  lemma {:induction false} GoneForGood(s: State, turns: seq<Turn>, event: Event, env: Env)
    requires Invariant(s) && AdmissibleTurns(s, turns, env) && Gone(s, event)
    ensures Gone(Serve(s, turns, env).s, event) && Retired(Serve(s, turns, env).s, event)
    decreases |turns|
  {
    hide Invariant, ServeTurn, AdmissibleTurn, Gone, Retired, Aged, Safe, Steady;
    if turns == [] || s.lifecycle.Stopped? {
      StaysGone(s, s, event) by { NothingAged(s); }
    } else {
      var r := ServeTurn(s, turns[0], env);
      TurnKeeps(s, turns[0], env);
      TurnAged(s, turns[0], env);
      StaysGone(s, r.s, event);
      if r.ok { GoneForGood(r.s, turns[1..], event, env); }
    }
  }

  lemma NothingAged(s: State)
    ensures Aged(s, s)
  {
  }

  lemma TurnAged(s: State, turn: Turn, env: Env)
    requires Invariant(s)
    ensures Aged(s, ServeTurn(s, turn, env).s)
  {
    hide Invariant, Prologue, ServeTurn, Steady, Safe, Aged, TurnEffect;
    PrologueKeeps(s, turn.now, turn.stalled, env);
    var p := Prologue(s, turn.now, turn.stalled, env);
    if p.ok { SteadyState(p.s); }
    TurnStep(s, turn, env);
  }

  /** What the coordinator relies on between its handlers holds in every reachable state. */
  lemma SteadyState(s: State)
    requires Invariant(s)
    ensures Steady(s) && (s.lifecycle.Stopped? ==> s.upstream == None)
    ensures s.upstream.Some? ==> s.upstream.value.generation <= s.generation && !s.lifecycle.Starting?
  {
    hide ServerOk, ClientOk, Linked, Recorded, KeptOk, Stage;
  }

  /** A worker that has ended is never heard again: no matter how the run goes on, generations are not
      given out twice, and nothing it still reports changes anything. */
  lemma GoneIgnored(s: State, turns: seq<Turn>, event: Event, now: nat, env: Env)
    requires Invariant(s) && AdmissibleTurns(s, turns, env) && Gone(s, event)
    requires Serve(s, turns, env).ok
    ensures var s' := Serve(s, turns, env).s;
            Dispatch(s', event, now, env) == Out(ExpirePending(s', now), true)
  {
    hide Invariant, Serve, Dispatch, Gone, Retired, AdmissibleTurns, Safe;
    GoneForGood(s, turns, event, env);
    TurnsKeep(s, turns, env);
    RetiredIgnored(Serve(s, turns, env).s, event, now, env);
  }

  // ----- requests of the server

  /** In every reachable state, as long as the server is not being killed, accepted every write
      and does not reuse an unanswered id, the ids of its requests and those inherited from
      before are, counted with multiplicity, the ids answered to it and the ids the client still
      has to answer. */
  lemma RequestsConserved(now: nat, reports: seq<Report>, turns: seq<Turn>, env: Env)
    requires AdmissibleRun(now, reports, turns, env) && Run(now, reports, turns, env).ok
    ensures var s := Run(now, reports, turns, env).s;
            s.upstream.Some? && !s.lifecycle.Killing? ==>
              var log := s.upstream.value.log;
              !log.writeLost && !log.reused ==>
                log.received + log.inherited == Answered(log.sent) + PendingKeys(s.client)
  {
    hide Run, AdmissibleRun, Shape, ServerOk, ClientOk, Recorded, KeptOk, Connections, LivePhase, InitializingPhase,
         RestartPhase, Answered, OpenAt, PendingKeys;
    RunKeeps(now, reports, turns, env);
  }

  /** In every reachable state, under the same conditions, the documents open at the server are
      open at the client, and none is open when there is no client. */
  lemma DocumentsTracked(now: nat, reports: seq<Report>, turns: seq<Turn>, env: Env)
    requires AdmissibleRun(now, reports, turns, env) && Run(now, reports, turns, env).ok
    ensures var s := Run(now, reports, turns, env).s;
            s.upstream.Some? && !s.lifecycle.Killing? && !s.upstream.value.log.writeLost ==>
              OpenAt(s.upstream.value.log.sent) <= if s.client.Some? then s.client.value.openDocuments else {}
  {
    hide Run, AdmissibleRun, Shape, ServerOk, ClientOk, Recorded, KeptOk, Connections, LivePhase, InitializingPhase,
         RestartPhase, Answered, OpenAt, PendingKeys;
    RunKeeps(now, reports, turns, env);
  }

  /** In every reachable state and for every session, now or before, the responses delivered
      for an id and the one still awaited are no more than the requests forwarded with that id;
      while a session does not reuse an unanswered id they are exactly as many. */
  lemma ResponsesRouted(now: nat, reports: seq<Report>, turns: seq<Turn>, env: Env)
    requires AdmissibleRun(now, reports, turns, env) && Run(now, reports, turns, env).ok
    ensures var s := Run(now, reports, turns, env).s;
            && (s.client.Some? ==>
                  var log, awaited := s.client.value.log, multiset(s.client.value.forwarded);
                  && Delivered(log.sent) + awaited <= log.asked
                  && (!log.reasked ==> Delivered(log.sent) + awaited == log.asked))
            && forall c | c in s.past.sessions :: Delivered(c.log.sent) <= c.log.asked
  {
    hide Run, AdmissibleRun, Shape, ServerOk, Linked, KeptOk, Connections, Delivered, IdKey, InitOrder;
    RunKeeps(now, reports, turns, env);
  }

  /** A client that leaves leaves nothing behind: what was answered to the server grows by
      exactly the ids it still had to answer, and its documents are closed. */
  lemma DepartureSettles(s: State, s': State, env: Env)
    requires Invariant(s) && s.client.Some? && s.upstream.Some?
    requires Settle(DropClient(s), s.client.value, env) == Out(s', true)
    ensures s'.upstream.Some? && (!s'.upstream.value.log.writeLost ==>
              && Answered(s'.upstream.value.log.sent) == Answered(s.upstream.value.log.sent) + PendingKeys(s.client)
              && (!s.lifecycle.Killing? ==> OpenAt(s'.upstream.value.log.sent) == {}))
  {
    hide Shape, ServerOk, ClientOk, Recorded, KeptOk, Connections, LivePhase, InitializingPhase, RestartPhase, Answered,
         OpenAt, Settle, OnlyWrote, CanSpeak, IdKey;
    MaySettle(s);
    SettleEffect(DropClient(s), s.client.value, env);
    LostStays(DropClient(s), s');
  }

  lemma {:induction false} CloseAllSucceeds(s: State, uris: seq<string>, env: Env)
    ensures CloseAll(s, uris, env).ok <==> forall uri | uri in uris :: env.uriParses(uri)
    decreases |uris|
  {
    if uris != [] && env.uriParses(uris[0]) {
      CloseAllSucceeds(WriteUpstream(s, CloseDocument(uris[0]), env).s, uris[1..], env);
      assert uris == [uris[0]] + uris[1..];
    }
  }

  lemma {:induction false} CancelAllSucceeds(s: State, keys: seq<string>, env: Env)
    ensures CancelAll(s, keys, env).ok <==> forall k | k in keys :: IsNumberOrString(RequestIdFromKey(k))
    decreases |keys|
  {
    hide RequestIdFromKey, IsNumberOrString;
    if keys != [] && IsNumberOrString(RequestIdFromKey(keys[0])) {
      var s1 := WriteUpstream(s, CancelRequest(RequestIdFromKey(keys[0])), env).s;
      CancelAllSucceeds(s1.(orphaned := s1.orphaned + {keys[0]}), keys[1..], env);
      assert keys == [keys[0]] + keys[1..];
    }
  }

  /** The documents of a client have valid URIs, and its unanswered requests have ids that a cancel
      notification can carry: strings or 32-bit integers. */
  predicate CanLeave(c: Client, env: Env) {
    && (forall uri | uri in c.openDocuments :: env.uriParses(uri))
    && (forall k | k in c.forwarded :: IsNumberOrString(RequestIdFromKey(k)))
  }

  lemma SettleSucceeds(s: State, c: Client, env: Env)
    ensures Settle(s, c, env).ok <==> CanLeave(c, env)
  {
    hide CloseAll, CancelAll, AnswerAll, RequestIdFromKey, IsNumberOrString;
    CloseAllSucceeds(s, Order.SortedKeys(c.openDocuments), env);
    CancelAllSucceeds(CloseAll(s, Order.SortedKeys(c.openDocuments), env).s, Order.SortedKeys(c.forwarded), env);
  }

  /** A departure succeeds exactly if the client can leave; the restart that may follow never makes
      it fail. */
  lemma DepartureSucceeds(s: State, now: nat, env: Env)
    requires Invariant(s) && s.client.Some?
    ensures Disconnect(s, now, env).ok <==> CanLeave(s.client.value, env)
  {
    hide Settle, CanLeave, DropClient, ServerOk, ClientOk, Recorded, KeptOk, Linked, Connections, Stage;
    SettleSucceeds(DropClient(s), s.client.value, env);
    SettleSame(DropClient(s), s.client.value, env);
    DroppedSame(s);
  }

  lemma DroppedSame(s: State)
    ensures DropClient(s).lifecycle == s.lifecycle && Generation(DropClient(s).upstream) == Generation(s.upstream)
  {
  }

  /** So when the stream of the active client ends, the loop goes on exactly if the client can leave;
      otherwise the daemon ends. */
  lemma DepartureEndsRun(s: State, turn: Turn, env: Env)
    requires Invariant(s)
    requires var p := Prologue(s, turn.now, turn.stalled, env);
             && p.ok && !p.s.lifecycle.Stopped? && p.s.client.Some?
             && turn.event == Some(Reader(FromClient(p.s.client.value.generation), EndOfStream))
    ensures ServeTurn(s, turn, env).ok <==> CanLeave(Prologue(s, turn.now, turn.stalled, env).s.client.value, env)
  {
    hide Invariant, Prologue, BeginStop, Disconnect, CanLeave, ExpirePending, Safe, Steady;
    PrologueKeeps(s, turn.now, turn.stalled, env);
    var p := Prologue(s, turn.now, turn.stalled, env).s;
    EndOfClient(p, turn.later, env);
  }

  lemma EndOfClient(s: State, now: nat, env: Env)
    requires Invariant(s) && s.client.Some?
    ensures Dispatch(s, Reader(FromClient(s.client.value.generation), EndOfStream), now, env).ok <==>
            CanLeave(s.client.value, env)
  {
    hide Invariant, Disconnect, CanLeave, ExpirePending, Safe;
    SteadyState(s);
    ExpirePendingKeeps(s, now);
    ExpireIs(s, now);
    DepartureSucceeds(ExpirePending(s, now), now, env);
  }

  /** The ids that a cancellation can carry. */
  lemma CancellableIds(id: Value)
    ensures IsNumberOrString(RequestIdFromKey(IdKey(id)))
       <==> id.String? || (id.Number? && -2147483648 <= id.n <= 2147483647)
  {
    hide IdKey, RequestIdFromKey;
    IdKeyInverse(id);
  }

  /** An id that cannot be cancelled: the `null` that JSON-RPC allows. */
  lemma NullCannotBeCancelled(c: Client, env: Env)
    requires IdKey(Null) in c.forwarded
    ensures !CanLeave(c, env)
  {
    hide IdKey, RequestIdFromKey;
    IdKeyInverse(Null);
  }

  // ----- the cached initialize

  /** When an initialize is answered from the cache, its normalized parameters are, as JSON,
      those of the initialize this server was sent, and the answer is the result that this
      server gave to it, provided the server only answered what it was asked. */
  lemma CachedAnswerSound(s: State, init: PendingInitialize, now: nat, env: Env)
    requires Invariant(s) && init.fingerprint == Fingerprint(init.normalized)
    requires s.client.Some? && !ShouldRestart(s.upstream, init.fingerprint) && s.upstream.value.fingerprint.Some?
    requires ServeInitialize(s, init, now, env).ok
    ensures var s' := ServeInitialize(s, init, now, env).s;
            var first := FirstInit(s.upstream.value.log.sent);
            && first.Some? && first.value.1 == init.normalized
            && s'.client.Some? && s.upstream.value.result.Some?
            && s'.client.value.log.sent == s.client.value.log.sent
               + [CachedInitialize(init.id, s.upstream.value.result.value)]
            && (!s.upstream.value.log.stray ==>
                  (IdKey(first.value.0), s.upstream.value.result) in s.upstream.value.log.replies)
  {
    hide Shape, ClientOk, Recorded, KeptOk, Connections, Linked, FirstInit, IdKey, Fingerprint, InitOrder;
    FingerprintInjective(FirstInit(s.upstream.value.log.sent).value.1, init.normalized);
  }

  /** The same of the request itself: a client that is answered from the cache has sent parameters
      whose normal form is that of the initialize this server was sent. */
  lemma CachedInitializeSound(s: State, m: Message, now: nat, env: Env)
    requires Invariant(s) && s.client.Some? && m.RequestId().Some? && m.params.Some?
    requires var normal := NormalizeInitialize(m.params.value, env.target);
             normal.Ok? && !ShouldRestart(s.upstream, Fingerprint(normal.value)) && s.upstream.value.fingerprint.Some?
    requires HandleInitialize(s, m, now, env).ok
    ensures var s' := HandleInitialize(s, m, now, env).s;
            var first := FirstInit(s.upstream.value.log.sent);
            && first.Some? && NormalizeInitialize(m.params.value, env.target) == Ok(first.value.1)
            && s'.client.Some? && s.upstream.value.result.Some?
            && s'.client.value.log.sent == s.client.value.log.sent
               + [CachedInitialize(m.id.value, s.upstream.value.result.value)]
            && (!s.upstream.value.log.stray ==>
                  (IdKey(first.value.0), s.upstream.value.result) in s.upstream.value.log.replies)
  {
    hide Invariant, ServeInitialize, ShouldRestart, FirstInit, IdKey, Fingerprint, NormalizeInitialize,
         WantsBackgroundWork;
    var normal := NormalizeInitialize(m.params.value, env.target).value;
    CachedAnswerSound(s, PendingInitialize(m.id.value, normal, Fingerprint(normal), WantsBackgroundWork(normal)), now,
                      env);
  }
}
