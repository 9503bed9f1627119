/** Runs that show where the daemon does less than one would expect. Each starts its first server
    and then handles one event after the other, with every write accepted. */
module Scenarios {
  import opened Json
  import Order
  import opened Protocol
  import opened Streams
  import opened Coordinator
  import opened Invariants
  import opened LifecycleProofs
  import opened LoopProofs
  import opened Handshake
  import opened Theorems

  const WORLD: Env :=
    Env(Target("file:///w", "/w", "w", 1), n => true, n => true, n => true, n => true, uri => true, 1_000_000)

  const REPORTS: seq<Report> := [Report(1, Started, 0)]

  function At(event: Event): Turn { Turn(0, {}, Some(event), 0) }

  function From(client: nat, m: Message): Turn { At(Reader(FromClient(client), Received(m))) }

  function Left(client: nat): Turn { At(Reader(FromClient(client), EndOfStream)) }

  function Request(name: Method, id: Value): Message {
    Message(Some(id), name, Some(Object(map[])), None, false, None, true)
  }

  function Notice(name: Method): Message { Message(None, name, None, None, false, None, true) }

  // ----- one turn

  /** The first server runs, and nothing else has happened. */
  const BOOTED: State :=
    State(Some(NewUpstream(1, multiset{})), Some(1), Running, None, None, map[], {}, 0, false, true, 1, 0,
          Past([], [], true, 1, 0))

  lemma Boots()
    ensures Boot(0, REPORTS, WORLD) == Out(BOOTED, true)
    ensures StartUpstream(NewDaemon(0), true, WORLD).ok
    ensures AdmissibleReports(StartUpstream(NewDaemon(0), true, WORLD).s, REPORTS, WORLD)
  {
    var s0 := StartUpstream(NewDaemon(0), true, WORLD).s;
    assert REPORTS[1..] == [];
    var s1 := Dispatch(s0, Process(1, Started), 0, WORLD);
    assert s1 == Out(BOOTED.(accepting := false), true) by {
      assert ExpirePending(s0, 0) == s0;
    }
  }

  /** A state between two turns in which nothing is due. */
  predicate Quiescent(s: State) {
    && s.lifecycle.Running? && !s.stopRequested && s.idleSince == 0
    && forall g | g in s.pending :: s.pending[g].deadline > 0
  }

  lemma TurnIs(s: State, event: Event)
    requires Quiescent(s)
    ensures ServeTurn(s, At(event), WORLD) == Dispatch(s, event, 0, WORLD)
    ensures Prologue(s, 0, {}, WORLD) == Out(s, true)
    ensures !event.Process? ==> AdmissibleTurn(s, At(event), WORLD)
  {
    hide Dispatch;
    assert ExpirePending(s, 0) == s;
    assert (map g | g in s.pending && FromClient(g) !in {} :: s.pending[g]) == s.pending;
    assert Prologue(s, 0, {}, WORLD) == Out(s, true);
    hide Prologue;
    assert !IdleStopDue(s, 0, WORLD);
    var turn := At(event);
    assert turn.event == Some(event) && turn.later == 0;
  }

  /** The first turn of a run, and the rest of it. */
  lemma ServeIs(s: State, event: Event, s': State, turns: seq<Turn>)
    requires Quiescent(s) && !event.Process? && Dispatch(s, event, 0, WORLD) == Out(s', true)
    ensures Serve(s, [At(event)] + turns, WORLD) == Serve(s', turns, WORLD)
    ensures AdmissibleTurns(s, [At(event)] + turns, WORLD) <==> AdmissibleTurns(s', turns, WORLD)
  {
    hide Dispatch, AdmissibleTurn, ServeTurn;
    TurnIs(s, event);
    assert ([At(event)] + turns)[1..] == turns;
  }

  // ----- the events of the scenarios

  function Waiting1(g: nat): Pending { Pending(NewClient(g), HANDSHAKE_TIMEOUT, None, false) }

  /** A state in which a new connection is the only one that waits. */
  function Connected(s: State): State {
    s.(generation := s.generation + 1, pending := map[s.generation + 1 := Waiting1(s.generation + 1)])
  }

  lemma Connects(s: State)
    requires s.pending == map[]
    ensures Dispatch(s, Accepted(0), 0, WORLD) == Out(Connected(s), true)
  {
    assert ExpirePending(s, 0) == s;
  }

  /** The normal form of parameters without members. */
  const NORMAL: Value := Object(map[
    "processId" := Number(1), "rootUri" := String("file:///w"), "rootPath" := String("/w"),
    "workspaceFolders" := WorkspaceFolders(WORLD.target)])

  lemma NormalIs()
    ensures NormalizeInitialize(Object(map[]), WORLD.target) == Ok(NORMAL)
    ensures !WantsBackgroundWork(NORMAL)
  {
    var none: map<string, Value> := map[];
    assert none - {"workDoneToken"} == none;
    assert none["processId" := Number(1)]["rootUri" := String("file:///w")]["rootPath" := String("/w")][
             "workspaceFolders" := WorkspaceFolders(WORLD.target)] == NORMAL.fields;
  }

  function Sent(s: State, e: ToServer): State
    requires s.upstream.Some?
  {
    s.(attempts := s.attempts + 1, upstream := Some(Send(s.upstream.value, e, true)))
  }

  /** The waiting connection is the client, and its initialize is with the server. */
  function Asking(s: State, g: nat, id: Value): State
    requires s.upstream.Some?
  {
    Sent(s.(pending := map[], upstream := Some(s.upstream.value.(fingerprint := Some(Fingerprint(NORMAL))))),
         InitializeRequest(id, NORMAL))
      .(client := Some(RecordRequest(NewClient(g).(phase := WaitingForInitialized(true)), IdKey(id))))
  }

  lemma Asks(s: State, g: nat, id: Value)
    requires s.client == None && s.pending == map[g := Waiting1(g)]
    requires s.upstream.Some? && s.upstream.value.fingerprint == None && !s.upstream.value.restartRequired
    ensures Dispatch(s, Reader(FromClient(g), Received(Request(Initialize, id))), 0, WORLD)
            == Out(Asking(s, g, id), true)
  {
    hide HandleClientMessage, Fingerprint, NormalizeInitialize, IdKey, NewClient, Asking;
    NormalIs();
    assert ExpirePending(s, 0) == s;
    assert s.pending - {g} == map[];
    AsksAsClient(s.(pending := map[], client := Some(NewClient(g))), g, id);
    AskingIs(s, g, id);
  }

  lemma AskingIs(s: State, g: nat, id: Value)
    requires s.upstream.Some?
    ensures Asking(s.(pending := map[], client := Some(NewClient(g))), g, id).(pending := map[]) == Asking(s, g, id)
  {
    hide Fingerprint, IdKey;
  }

  lemma AsksAsClient(s: State, g: nat, id: Value)
    requires s.client == Some(NewClient(g)) && s.upstream.Some?
    requires s.upstream.value.fingerprint == None && !s.upstream.value.restartRequired
    ensures HandleClientMessage(s, Request(Initialize, id), 0, WORLD)
         == Out(Asking(s, g, id).(pending := s.pending), true)
  {
    hide Fingerprint, NormalizeInitialize, WantsBackgroundWork, IdKey;
    NormalIs();
  }

  function Greeting(s: State): State
    requires s.upstream.Some? && s.client.Some?
  {
    Sent(s, InitializedNotice(Notice(Initialized))).(client := Some(s.client.value.(phase := Ready)))
  }

  lemma Greets(s: State, g: nat)
    requires s.pending == map[] && s.client.Some? && s.client.value.generation == g
    requires s.client.value.phase == WaitingForInitialized(true) && s.upstream.Some?
    ensures Dispatch(s, Reader(FromClient(g), Received(Notice(Initialized))), 0, WORLD) == Out(Greeting(s), true)
  {
    assert ExpirePending(s, 0) == s;
  }

  function Passing(s: State, m: Message): State
    requires s.upstream.Some? && s.client.Some? && m.id.Some?
  {
    Sent(s, Forwarded(m)).(client := Some(RecordRequest(s.client.value, IdKey(m.id.value))))
  }

  lemma Passes(s: State, g: nat, name: Method, id: Value)
    requires s.pending == map[] && s.client.Some? && s.client.value.generation == g
    requires s.client.value.phase == Ready && s.upstream.Some? && (name == Initialize || name == Other)
    ensures Dispatch(s, Reader(FromClient(g), Received(Request(name, id))), 0, WORLD)
            == Out(Passing(s, Request(name, id)), true)
  {
    hide HandleClientMessage, IdKey;
    assert ExpirePending(s, 0) == s;
    PassesAsClient(s, name, id);
  }

  lemma PassesAsClient(s: State, name: Method, id: Value)
    requires s.client.Some? && s.client.value.phase == Ready && s.upstream.Some?
    requires name == Initialize || name == Other
    ensures HandleClientMessage(s, Request(name, id), 0, WORLD) == Out(Passing(s, Request(name, id)), true)
  {
    hide IdKey;
  }

  const REPLY: Message := Message(Some(Number(1)), Missing, None, None, false, Some(Null), true)

  /** The server's answer to the initialize, cached and passed on. */
  function Replied(s: State): State
    requires s.upstream.Some? && s.client.Some?
  {
    var key, up, c := IdKey(Number(1)), s.upstream.value, s.client.value;
    var log := up.log.(replies := up.log.replies + {(key, Some(Null))},
                       stray := up.log.stray || key !in RequestKeys(up.log.sent));
    s.(attempts := s.attempts + 1,
       upstream := Some(up.(result := Some(Null), log := log)),
       client := Some(Reply(c.(forwarded := c.forwarded - {key}), Routed(key), true)))
  }

  lemma Replies(s: State)
    requires s.pending == map[] && s.upstream.Some? && s.upstream.value.generation == 1 && s.orphaned == {}
    requires s.client.Some? && s.client.value.phase == WaitingForInitialized(true)
    requires IdKey(Number(1)) in s.client.value.forwarded
    ensures Dispatch(s, Reader(FromServer(1), Received(REPLY)), 0, WORLD) == Out(Replied(s), true)
  {
    hide IdKey, RequestKeys;
    assert ExpirePending(s, 0) == s;
    assert s.orphaned - {IdKey(Number(1))} == {};
  }

  function Leaving(s: State): State { DropClient(s).(idleSince := 0) }

  lemma Leaves(s: State)
    requires s.pending == map[] && s.client.Some? && s.client.value.generation == 2 && s.upstream.Some?
    requires !s.upstream.value.restartRequired
    requires s.client.value.forwarded == {} && s.client.value.openDocuments == {}
    requires s.client.value.serverRequests == map[]
    ensures Dispatch(s, Reader(FromClient(2), EndOfStream), 0, WORLD) == Out(Leaving(s), true)
  {
    assert ExpirePending(s, 0) == s;
    NothingToSettle(DropClient(s), s.client.value);
    hide Settle;
    assert DropClient(s).upstream == s.upstream;
  }

  lemma NothingToSettle(s: State, c: Client)
    requires c.forwarded == {} && c.openDocuments == {} && c.serverRequests == map[]
    ensures Settle(s, c, WORLD) == Out(s, true)
  {
    assert Order.SortedKeys(c.forwarded) == [] && Order.SortedKeys(c.openDocuments) == []
      && Order.SortedKeys(c.serverRequests.Keys) == [];
  }

  /** A client whose initialize is answered from the cache, and that has completed its handshake. */
  function Cached(s: State, g: nat, phase: Phase): State {
    s.(attempts := s.attempts + 1, pending := map[],
       client := Some(Reply(NewClient(g).(phase := phase), CachedInitialize(Number(1), Null), true)))
  }

  lemma AsksAgain(s: State, g: nat)
    requires s.client == None && s.pending == map[g := Waiting1(g)]
    requires s.upstream.Some? && s.upstream.value.fingerprint == Some(Fingerprint(NORMAL))
    requires !s.upstream.value.restartRequired && s.upstream.value.result == Some(Null)
    ensures Dispatch(s, Reader(FromClient(g), Received(Request(Initialize, Number(1)))), 0, WORLD)
         == Out(Cached(s, g, WaitingForInitialized(false)), true)
  {
    hide HandleClientMessage, Fingerprint, NormalizeInitialize, IdKey;
    NormalIs();
    assert ExpirePending(s, 0) == s;
    assert s.pending - {g} == map[];
    CachedAsClient(s.(pending := map[], client := Some(NewClient(g))), g);
  }

  lemma CachedAsClient(s: State, g: nat)
    requires s.client == Some(NewClient(g)) && s.upstream.Some?
    requires s.upstream.value.fingerprint == Some(Fingerprint(NORMAL))
    requires !s.upstream.value.restartRequired && s.upstream.value.result == Some(Null) && s.pending == map[]
    ensures HandleClientMessage(s, Request(Initialize, Number(1)), 0, WORLD)
            == Out(Cached(s, g, WaitingForInitialized(false)), true)
  {
    hide Fingerprint, NormalizeInitialize, WantsBackgroundWork, IdKey;
    NormalIs();
  }

  lemma GreetsDaemon(s: State, g: nat)
    requires s.upstream.Some? && s.pending == map[] && s.client == Cached(s, g, WaitingForInitialized(false)).client
    ensures Dispatch(s, Reader(FromClient(g), Received(Notice(Initialized))), 0, WORLD)
         == Out(s.(client := Cached(s, g, Ready).client), true)
  {
    assert ExpirePending(s, 0) == s;
  }

  // ----- the runs

  lemma RunIs(turns: seq<Turn>)
    ensures Run(0, REPORTS, turns, WORLD) == Serve(BOOTED, turns, WORLD)
    ensures AdmissibleRun(0, REPORTS, turns, WORLD) <==> AdmissibleTurns(BOOTED, turns, WORLD)
  {
    hide Boot, Serve, AdmissibleTurns, AdmissibleReports, StartUpstream;
    Boots();
  }

  /** A client asks with the id `id`. */
  function Asked(id: Value): State { Asking(Connected(BOOTED), 2, id) }

  lemma AskedIs(id: Value, turns: seq<Turn>)
    ensures var all := [At(Accepted(0))] + ([From(2, Request(Initialize, id))] + turns);
            && Run(0, REPORTS, all, WORLD) == Serve(Asked(id), turns, WORLD)
            && (AdmissibleRun(0, REPORTS, all, WORLD) <==> AdmissibleTurns(Asked(id), turns, WORLD))
  {
    hide Serve, AdmissibleTurns, Dispatch, AdmissibleRun, Run, IdKey, Fingerprint;
    var rest := [From(2, Request(Initialize, id))] + turns;
    RunIs([At(Accepted(0))] + rest);
    Connects(BOOTED);
    ServeIs(BOOTED, Accepted(0), Connected(BOOTED), rest);
    Asks(Connected(BOOTED), 2, id);
    ServeIs(Connected(BOOTED), Reader(FromClient(2), Received(Request(Initialize, id))), Asked(id), turns);
  }

  const NULL_LEAVES: seq<Turn> := [At(Accepted(0))] + ([From(2, Request(Initialize, Null))] + [Left(2)])

  /** A client that asks with the id `null` and leaves ends the daemon. */
  lemma NullEndsDaemon()
    ensures AdmissibleRun(0, REPORTS, NULL_LEAVES, WORLD)
    ensures !Run(0, REPORTS, NULL_LEAVES, WORLD).ok
  {
    hide AdmissibleRun, Run, Dispatch, IdKey, Fingerprint, AdmissibleTurn, ServeTurn;
    AskedIs(Null, [Left(2)]);
    var s := Asked(Null);
    TurnIs(s, Reader(FromClient(2), EndOfStream));
    NullCannotLeave(s);
    assert [Left(2)][1..] == [];
  }

  lemma NullCannotLeave(s: State)
    requires s.client.Some? && s.client.value.generation == 2 && s.client.value.forwarded == {IdKey(Null)}
    requires s.client.value.openDocuments == {}
    requires s.pending == map[]
    ensures !Dispatch(s, Reader(FromClient(2), EndOfStream), 0, WORLD).ok
  {
    hide IdKey, Settle, CanLeave;
    assert ExpirePending(s, 0) == s;
    NullCannotBeCancelled(s.client.value, WORLD);
    SettleSucceeds(DropClient(s), s.client.value, WORLD);
  }

  const ASKS_TWICE: seq<Turn> :=
    [At(Accepted(0))] + ([From(2, Request(Initialize, Number(1)))]
      + ([From(2, Notice(Initialized))] + ([From(2, Request(Initialize, Number(2)))] + [])))

  /** A client that is ready and asks once more makes its server read a second initialize. */
  lemma SecondInitializeRead()
    ensures AdmissibleRun(0, REPORTS, ASKS_TWICE, WORLD)
    ensures Run(0, REPORTS, ASKS_TWICE, WORLD).ok && TwoInitializes(Run(0, REPORTS, ASKS_TWICE, WORLD).s)
  {
    hide AdmissibleRun, Run, Dispatch, IdKey, Fingerprint, AdmissibleTurn, ServeTurn, Serve, AdmissibleTurns;
    var last := [From(2, Request(Initialize, Number(2)))] + [];
    AskedIs(Number(1), [From(2, Notice(Initialized))] + last);
    var s := Asked(Number(1));
    Greets(s, 2);
    ServeIs(s, Reader(FromClient(2), Received(Notice(Initialized))), Greeting(s), last);
    var s1 := Greeting(s);
    Passes(s1, 2, Initialize, Number(2));
    var s2 := Passing(s1, Request(Initialize, Number(2)));
    ServeIs(s1, Reader(FromClient(2), Received(Request(Initialize, Number(2)))), s2, []);
    NoTurns(s2);
    ReadOne([], InitializeRequest(Number(1), NORMAL));
    ReadOne([InitializeRequest(Number(1), NORMAL)], InitializedNotice(Notice(Initialized)));
    ReadOne([InitializeRequest(Number(1), NORMAL), InitializedNotice(Notice(Initialized))],
            Forwarded(Request(Initialize, Number(2))));
  }

  lemma NoTurns(s: State)
    ensures Serve(s, [], WORLD) == Out(s, true) && AdmissibleTurns(s, [], WORLD)
  {
  }

  // ----- a request of the server

  const ASKED: Message := Request(Other, Number(7))
  const ANSWER: Message := Message(Some(Number(7)), Missing, None, None, false, Some(Null), true)

  /** The server's request is relayed and waits for its response. */
  function Relaying(s: State): State
    requires s.upstream.Some? && s.client.Some?
  {
    var key, up, c := IdKey(Number(7)), s.upstream.value, s.client.value;
    s.(attempts := s.attempts + 1,
       upstream := Some(up.(log := up.log.(received := up.log.received + multiset{key}))),
       client := Some(Reply(c.(serverRequests := c.serverRequests[key := Number(7)]), Relayed(ASKED), true)))
  }

  lemma Relays(s: State)
    requires s.pending == map[] && s.client.Some? && s.client.value.serverRequests == map[]
    requires s.upstream.Some? && s.upstream.value.generation == 1
    ensures Dispatch(s, Reader(FromServer(1), Received(ASKED)), 0, WORLD) == Out(Relaying(s), true)
  {
    hide IdKey;
    assert ExpirePending(s, 0) == s;
  }

  function Answering(s: State): State
    requires s.upstream.Some? && s.client.Some?
  {
    Sent(s, Answer(ANSWER)).(client := Some(s.client.value.(serverRequests := map[])))
  }

  lemma Answers(s: State)
    requires s.pending == map[] && s.client.Some? && s.client.value.generation == 2 && s.upstream.Some?
    requires s.client.value.serverRequests == map[IdKey(Number(7)) := Number(7)]
    ensures Dispatch(s, Reader(FromClient(2), Received(ANSWER)), 0, WORLD) == Out(Answering(s), true)
  {
    hide IdKey;
    assert ExpirePending(s, 0) == s;
    assert s.client.value.serverRequests - {IdKey(Number(7))} == map[];
  }

  const ANSWERS: seq<Turn> :=
    [At(Accepted(0))] + ([From(2, Request(Initialize, Number(1)))]
      + ([From(2, Notice(Initialized))] + ([At(Reader(FromServer(1), Received(ASKED)))] + ([From(2, ANSWER)] + []))))

  /** A run in which a request of the server is relayed and answered, and that meets every condition under
      which the bookkeeping of requests and documents is proved. */
  lemma RequestAnswered()
    ensures AdmissibleRun(0, REPORTS, ANSWERS, WORLD)
    ensures var r := Run(0, REPORTS, ANSWERS, WORLD);
            && r.ok && r.s.upstream.Some? && r.s.client.Some? && r.s.lifecycle.Running?
            && var log := r.s.upstream.value.log;
               !log.writeLost && !log.reused && !log.stray && !r.s.client.value.log.reasked
               && log.received == Answered(log.sent) == multiset{IdKey(Number(7))} && log.inherited == multiset{}
  {
    hide AdmissibleRun, Run, Dispatch, IdKey, Fingerprint, AdmissibleTurn, ServeTurn, Serve, AdmissibleTurns;
    var last := [From(2, ANSWER)] + [];
    var relay := [At(Reader(FromServer(1), Received(ASKED)))] + last;
    AskedIs(Number(1), [From(2, Notice(Initialized))] + relay);
    var s := Asked(Number(1));
    Greets(s, 2);
    ServeIs(s, Reader(FromClient(2), Received(Notice(Initialized))), Greeting(s), relay);
    var s1 := Greeting(s);
    Relays(s1);
    var s2 := Relaying(s1);
    ServeIs(s1, Reader(FromServer(1), Received(ASKED)), s2, last);
    Answers(s2);
    var s3 := Answering(s2);
    ServeIs(s2, Reader(FromClient(2), Received(ANSWER)), s3, []);
    NoTurns(s3);
    var before := [InitializeRequest(Number(1), NORMAL), InitializedNotice(Notice(Initialized))];
    assert s3.upstream.value.log.sent == before + [Answer(ANSWER)];
    OneAnswer(before);
  }

  lemma OneAnswer(before: seq<ToServer>)
    requires |before| == 2 && before[0].InitializeRequest? && before[1].InitializedNotice?
    ensures Answered(before + [Answer(ANSWER)]) == multiset{IdKey(Number(7))}
  {
    hide IdKey;
    assert (before + [Answer(ANSWER)])[..2] == before;
    assert Answered(before[..0]) == multiset{} && before[..1][..0] == before[..0];
    assert before[..1][0] == before[0] && Answered(before[..1]) == multiset{};
    assert Answered(before) == multiset{};
  }

  /** The first session ends between the answer to its initialize and its `initialized`; the second is
      answered from the cache. */
  const NEVER_GREETED: seq<Turn> :=
    [At(Accepted(0))] + ([From(2, Request(Initialize, Number(1)))]
      + ([At(Reader(FromServer(1), Received(REPLY)))] + ([Left(2)] + SECOND_SESSION)))

  const SECOND_SESSION: seq<Turn> :=
    [At(Accepted(0))] + ([From(3, Request(Initialize, Number(1)))]
      + ([From(3, Notice(Initialized))] + ([From(3, Request(Other, Number(2)))] + [])))

  /** A server that reads the traffic of a session without ever having read `initialized`. */
  lemma InitializedNeverRead()
    ensures AdmissibleRun(0, REPORTS, NEVER_GREETED, WORLD)
    ensures var r := Run(0, REPORTS, NEVER_GREETED, WORLD);
            && r.ok && r.s.upstream.Some?
            && r.s.upstream.value.log.sent
               == [InitializeRequest(Number(1), NORMAL), Forwarded(Request(Other, Number(2)))]
  {
    hide AdmissibleRun, Run, Dispatch, IdKey, Fingerprint, ServeTurn, Serve, AdmissibleTurns, RequestKeys;
    var s := Asked(Number(1));
    AskedIs(Number(1), [At(Reader(FromServer(1), Received(REPLY)))] + ([Left(2)] + SECOND_SESSION));
    Replies(s);
    ServeIs(s, Reader(FromServer(1), Received(REPLY)), Replied(s), [Left(2)] + SECOND_SESSION);
    var s1 := Replied(s);
    assert s1.client.value.forwarded == {};
    Leaves(s1);
    ServeIs(s1, Reader(FromClient(2), EndOfStream), Leaving(s1), SECOND_SESSION);
    SecondSession(Leaving(s1));
  }

  lemma SecondSession(s: State)
    requires Quiescent(s) && s.pending == map[] && s.client == None && s.generation == 2
    requires s.upstream.Some? && s.upstream.value.fingerprint == Some(Fingerprint(NORMAL))
    requires !s.upstream.value.restartRequired && s.upstream.value.result == Some(Null)
    ensures AdmissibleTurns(s, SECOND_SESSION, WORLD)
    ensures var r := Serve(s, SECOND_SESSION, WORLD);
            && r.ok && r.s.upstream.Some?
            && r.s.upstream.value.log.sent == s.upstream.value.log.sent + [Forwarded(Request(Other, Number(2)))]
  {
    hide Dispatch, IdKey, Fingerprint, ServeTurn, Serve, AdmissibleTurns;
    var last := [From(3, Request(Other, Number(2)))] + [];
    var greet := [From(3, Notice(Initialized))] + last;
    var ask := [From(3, Request(Initialize, Number(1)))] + greet;
    var s1 := Connected(s);
    Connects(s);
    ServeIs(s, Accepted(0), s1, ask);
    var s2 := Cached(s1, 3, WaitingForInitialized(false));
    AsksAgain(s1, 3);
    ServeIs(s1, Reader(FromClient(3), Received(Request(Initialize, Number(1)))), s2, greet);
    var s3 := s2.(client := Cached(s2, 3, Ready).client);
    GreetsDaemon(s2, 3);
    ServeIs(s2, Reader(FromClient(3), Received(Notice(Initialized))), s3, last);
    var s4 := Passing(s3, Request(Other, Number(2)));
    Passes(s3, 3, Other, Number(2));
    ServeIs(s3, Reader(FromClient(3), Received(Request(Other, Number(2)))), s4, []);
    NoTurns(s4);
  }
}
