/** How often a server reads each message of the initialize handshake, over every run. */
module Handshake {
  import opened Json
  import opened Protocol
  import opened Streams
  import opened Coordinator
  import opened Invariants
  import opened ClientProofs
  import opened Effects
  import opened Frames
  import opened Turns
  import opened Transcripts
  import opened LoopProofs
  import opened Theorems

  // ----- one stream

  /** An initialize request, whoever wrote it. */
  predicate IsInitialize(e: ToServer) {
    e.InitializeRequest? || (e.Forwarded? && e.m.name == Initialize)
  }

  /** How many initialize requests a server reads. */
  function InitializesRead(log: seq<ToServer>): nat {
    if log == [] then 0
    else InitializesRead(log[..|log| - 1]) + if IsInitialize(log[|log| - 1]) then 1 else 0
  }

  predicate IsInitialized(e: ToServer) {
    e.InitializedNotice? || (e.Forwarded? && e.m.name == Initialized)
  }

  /** How many `initialized` notifications a server reads. */
  function InitializedsRead(log: seq<ToServer>): nat {
    if log == [] then 0
    else InitializedsRead(log[..|log| - 1]) + if IsInitialized(log[|log| - 1]) then 1 else 0
  }

  /** How many messages of a name ready clients sent. */
  function Forwards(name: Method, log: seq<ToServer>): nat {
    if log == [] then 0
    else
      var e := log[|log| - 1];
      Forwards(name, log[..|log| - 1]) + if e.Forwarded? && e.m.name == name then 1 else 0
  }

  /** In an ordered stream, the initialize of the handshake is the only one besides those that ready
      clients sent, and there are none of these without it. */
  lemma {:induction false} CountInitializes(log: seq<ToServer>)
    requires InitOrder(log)
    ensures InitializesRead(log) == (if InitSent(log) then 1 else 0) + Forwards(Initialize, log)
    ensures Forwards(Initialize, log) > 0 ==> InitSent(log)
    ensures Tally(Initialize, log) == Forwards(Initialize, log)
  {
    if log != [] { CountInitializes(log[..|log| - 1]); }
  }

  lemma {:induction false} CountInitializeds(log: seq<ToServer>)
    requires InitOrder(log)
    ensures InitializedsRead(log) == (if InitializedSent(log) then 1 else 0) + Forwards(Initialized, log)
    ensures Tally(Initialized, log) == InitializedsRead(log)
  {
    if log != [] { CountInitializeds(log[..|log| - 1]); }
  }

  // ----- one message

  /** Any initialize request of a ready client, once its write is accepted, is a second one for its
      server. */
  lemma ReadyInitializeRepeats(s: State, m: Message, now: nat, env: Env)
    requires Invariant(s) && s.client.Some? && s.client.value.phase == Ready && s.upstream.Some?
    requires m.name == Initialize && env.write(s.attempts)
    ensures var s' := HandleClientMessage(s, m, now, env).s;
            s'.upstream.Some? && InitializesRead(s'.upstream.value.log.sent) >= 2
  {
    hide Invariant, InitOrder, InitSent, InitializesRead, HandleClientMessage;
    var log := s.upstream.value.log.sent;
    ReadyAtServer(s);
    ServerOrder(s);
    CountInitializes(log);
    ReadyForwards(s, m, now, env);
    ReadOne(log, Forwarded(m));
  }

  /** Any `initialized` of a ready client, once its write is accepted, is one more for its server: a
      second one if the server took part in the handshake, the first one if it never read one. */
  lemma ReadyInitializedRepeats(s: State, m: Message, now: nat, env: Env)
    requires Invariant(s) && s.client.Some? && s.client.value.phase == Ready && s.upstream.Some?
    requires m.name == Initialized && env.write(s.attempts)
    ensures var log := s.upstream.value.log.sent;
            var s' := HandleClientMessage(s, m, now, env).s;
            && s'.upstream.Some? && InitializedsRead(s'.upstream.value.log.sent) == InitializedsRead(log) + 1
            && (InitializedSent(log) ==> InitializedsRead(s'.upstream.value.log.sent) >= 2)
  {
    hide Invariant, InitOrder, InitSent, InitializedSent, InitializedsRead, HandleClientMessage;
    var log := s.upstream.value.log.sent;
    ServerOrder(s);
    CountInitializeds(log);
    ReadyForwards(s, m, now, env);
    ReadOne(log, Forwarded(m));
  }

  lemma ReadOne(log: seq<ToServer>, e: ToServer)
    ensures InitializesRead(log + [e]) == InitializesRead(log) + if IsInitialize(e) then 1 else 0
    ensures InitializedsRead(log + [e]) == InitializedsRead(log) + if IsInitialized(e) then 1 else 0
  {
    assert (log + [e])[..|log|] == log;
  }

  lemma ServerOrder(s: State)
    requires Invariant(s) && s.upstream.Some?
    ensures InitOrder(s.upstream.value.log.sent)
  {
    hide InitOrder, InitSent, ServerOk, ClientOk, Connections, KeptOk, Linked;
  }

  lemma ReadyForwards(s: State, m: Message, now: nat, env: Env)
    requires s.client.Some? && s.client.value.phase == Ready && s.upstream.Some?
    requires HandshakeName(m.name) && env.write(s.attempts)
    ensures var s' := HandleClientMessage(s, m, now, env).s;
            s'.upstream.Some? && s'.upstream.value.log.sent == s.upstream.value.log.sent + [Forwarded(m)]
  {
    hide IdKey, HandleBeforeInitialize, HandleWaitingForUpstream, HandleBeforeInitialized, Disconnect, HandleStop,
         HandleClientResponse, TrackDocument;
    TrackKeeps(s, m);
  }

  lemma TrackKeeps(s: State, m: Message)
    ensures var s' := TrackDocument(s, m);
            s'.upstream == s.upstream && s'.attempts == s.attempts && (s'.client.Some? <==> s.client.Some?)
  {
  }

  // ----- every run

  /** The generations of the servers to which the turns of a run bring a message of the handshake:
      from a ready client, or the `initialized` that ends a handshake in which the server takes
      part; and each time the write is accepted. */
  function Deliveries(name: Method, s: State, turns: seq<Turn>, env: Env): multiset<nat>
    decreases |turns|
  {
    if turns == [] || s.lifecycle.Stopped? then multiset{}
    else
      var r := ServeTurn(s, turns[0], env);
      Delivery(name, s, turns[0], env) + if r.ok then Deliveries(name, r.s, turns[1..], env) else multiset{}
  }

  function Delivery(name: Method, s: State, turn: Turn, env: Env): multiset<nat> {
    if TurnBrings(name, s, turn, env)
    then multiset{Before(s, turn, env).upstream.value.generation} else multiset{}
  }

  function RunDeliveries(name: Method, now: nat, reports: seq<Report>, turns: seq<Turn>, env: Env): multiset<nat> {
    var b := Boot(now, reports, env);
    if b.ok && b.s.lifecycle.Running? then Deliveries(name, b.s, turns, env) else multiset{}
  }

  /** A message of the handshake that a session brings its server: the end of a handshake that the server
      takes part in, or a repetition by a client that is ready. */
  predicate Brings(name: Method, s: State, m: Message, env: Env) {
    && s.client.Some? && m.name == name
    && (s.client.value.phase == Ready || (name == Initialized && s.client.value.phase == WaitingForInitialized(true)))
    && s.upstream.Some? && env.write(s.attempts)
  }

  predicate HandshakeName(name: Method) { name == Initialize || name == Initialized }

  predicate BringsEvent(name: Method, s: State, event: Event, env: Env) {
    && event.Reader? && event.source.FromClient? && event.read.Received?
    && s.client.Some? && s.client.value.generation == event.source.generation
    && Brings(name, s, event.read.m, env)
  }

  predicate TurnBrings(name: Method, s: State, turn: Turn, env: Env) {
    Handles(s, turn, env) && BringsEvent(name, Before(s, turn, env), turn.event.value, env)
  }

  lemma SaidTally(name: Method, s: State, m: Message, env: Env)
    requires HandshakeName(name) && s.client.Some?
    ensures Tally(name, Said(s, m, env).toServer) == if Brings(name, s, m, env) then 1 else 0
  {
    hide Replies;
    OneTally(name);
  }

  lemma OneTally(name: Method)
    ensures Tally(name, []) == 0 && forall e: ToServer :: Tally(name, [e]) == Weight(name, e)
  {
    forall e: ToServer ensures Tally(name, [e]) == Weight(name, e) {
      assert [e][..0] == [];
    }
  }

  lemma EventTally(name: Method, s: State, event: Event, env: Env)
    requires HandshakeName(name) && Steady(s)
    ensures Tally(name, EffectOf(s, event, env).toServer) == if BringsEvent(name, s, event, env) then 1 else 0
  {
    hide Said, Brings, Tally, Protocol.NormalizeInitialize;
    OneTally(name);
    if event.Reader? && event.source.FromClient? && event.read.Received? {
      if s.client.Some? { SaidTally(name, s, event.read.m, env); }
      if Admits(s, event.source.generation, event.read, env) {
        AdmittedTally(name, s, event.source.generation, event.read, env);
      }
    }
  }

  lemma AdmittedTally(name: Method, s: State, g: nat, read: ReaderEvent, env: Env)
    requires HandshakeName(name) && Steady(s) && Admits(s, g, read, env)
    ensures Tally(name, Said(Admitted(s, g), read.m, env).toServer) == 0
  {
    SaidTally(name, Admitted(s, g), read.m, env);
  }

  lemma TurnTally(name: Method, s: State, turn: Turn, env: Env, g: nat)
    requires HandshakeName(name) && Invariant(s)
    ensures Delivery(name, s, turn, env)[g] == Tally(name, Select(TurnToServers(s, turn, env), g))
  {
    hide Invariant, Prologue, EffectOf, BringsEvent, Steady, Safe, Select, Tally, Audience;
    OneTally(name);
    NothingSelected<ToServer>(g);
    if Handles(s, turn, env) {
      var p, b, event := Prologue(s, turn.now, turn.stalled, env).s, Before(s, turn, env), turn.event.value;
      PrologueKeeps(s, turn.now, turn.stalled, env);
      SteadyState(p);
      ExpireIs(p, turn.later);
      EventTally(name, b, event, env);
      SelectAddressed(Audience(b, event), EffectOf(b, event, env).toServer, g);
      if BringsEvent(name, b, event, env) { BringsAttached(name, b, event, env); }
    }
  }

  lemma NothingSelected<T>(g: nat)
    ensures Select<T>([], g) == []
  {
  }

  lemma BringsAttached(name: Method, s: State, event: Event, env: Env)
    requires BringsEvent(name, s, event, env)
    ensures s.upstream.Some? && Audience(s, event) == s.upstream.value.generation
  {
  }

  lemma {:induction false} ServeTally(name: Method, s: State, turns: seq<Turn>, env: Env, g: nat)
    requires HandshakeName(name) && Invariant(s) && AdmissibleTurns(s, turns, env)
    ensures Deliveries(name, s, turns, env)[g] == Tally(name, Select(ToServers(s, turns, env), g))
    decreases |turns|
  {
    hide Invariant, ServeTurn, AdmissibleTurn, Delivery, TurnToServers, Select, Tally, Safe;
    NothingSelected<ToServer>(g);
    OneTally(name);
    if turns != [] && !s.lifecycle.Stopped? {
      var r, d := ServeTurn(s, turns[0], env), TurnToServers(s, turns[0], env);
      var more := if r.ok then ToServers(r.s, turns[1..], env) else [];
      TurnTally(name, s, turns[0], env, g);
      TurnKeeps(s, turns[0], env);
      if r.ok { ServeTally(name, r.s, turns[1..], env, g); }
      SelectAdds(d, more, g);
      TallyAdds(name, Select(d, g), Select(more, g));
    }
  }

  /** What the streams hold is what was brought to their servers, for the current server and for every
      earlier one; and there was a server for everything that was brought. */
  lemma RunCounted(name: Method, now: nat, reports: seq<Report>, turns: seq<Turn>, env: Env)
    requires HandshakeName(name) && AdmissibleRun(now, reports, turns, env)
    ensures var s, seen := Run(now, reports, turns, env).s, RunDeliveries(name, now, reports, turns, env);
            && (s.upstream.Some? ==> Tally(name, s.upstream.value.log.sent) == seen[s.upstream.value.generation])
            && (forall up | up in s.past.servers :: Tally(name, up.log.sent) == seen[up.generation])
            && forall g | g in seen :: Known(s, g)
  {
    hide Run, AdmissibleRun, RunToServers, RunDeliveries, Select, Tally, Traffic, Known;
    var s, t := Run(now, reports, turns, env).s, RunToServers(now, reports, turns, env);
    ServersHear(now, reports, turns, env);
    if s.upstream.Some? {
      RunTally(name, now, reports, turns, env, s.upstream.value.generation);
      TallyOfTraffic(name, s.upstream.value.log.sent);
    }
    forall up | up in s.past.servers
      ensures Tally(name, up.log.sent) == RunDeliveries(name, now, reports, turns, env)[up.generation]
    {
      RunTally(name, now, reports, turns, env, up.generation);
      TallyOfTraffic(name, up.log.sent);
    }
    forall g | g in RunDeliveries(name, now, reports, turns, env) ensures Known(s, g) {
      RunTally(name, now, reports, turns, env, g);
      OneTally(name);
      if Select(t, g) != [] { SelectedFrom(t, g); }
    }
  }

  lemma {:induction false} SelectedFrom<T>(t: seq<(nat, T)>, g: nat)
    requires Select(t, g) != []
    ensures exists x :: x in t && x.0 == g
  {
    if t[|t| - 1].0 == g {
      assert t[|t| - 1] in t;
    } else {
      SelectedFrom(t[..|t| - 1], g);
      var x :| x in t[..|t| - 1] && x.0 == g;
      assert x in t;
    }
  }

  lemma RunTally(name: Method, now: nat, reports: seq<Report>, turns: seq<Turn>, env: Env, g: nat)
    requires HandshakeName(name) && AdmissibleRun(now, reports, turns, env)
    ensures RunDeliveries(name, now, reports, turns, env)[g]
         == Tally(name, Select(RunToServers(now, reports, turns, env), g))
  {
    hide Boot, Serve, Deliveries, ToServers, AdmissibleReports, AdmissibleTurns, Invariant, Safe, StartUpstream, Select,
         Tally;
    NothingSelected<ToServer>(g);
    OneTally(name);
    var b := Boot(now, reports, env);
    if b.ok && b.s.lifecycle.Running? {
      BootFails(now, reports, env);
      BootKeeps(now, reports, env);
      ServeTally(name, b.s, turns, env, g);
    }
  }

  // ----- what servers read

  predicate TwoInitializes(s: State) {
    || (s.upstream.Some? && InitializesRead(s.upstream.value.log.sent) >= 2)
    || exists i | 0 <= i < |s.past.servers| :: InitializesRead(s.past.servers[i].log.sent) >= 2
  }

  predicate TwoInitializeds(s: State) {
    || (s.upstream.Some? && InitializedsRead(s.upstream.value.log.sent) >= 2)
    || exists i | 0 <= i < |s.past.servers| :: InitializedsRead(s.past.servers[i].log.sent) >= 2
  }

  predicate Ordered(s: State) {
    && (s.upstream.Some? ==> InitOrder(s.upstream.value.log.sent))
    && forall i | 0 <= i < |s.past.servers| :: InitOrder(s.past.servers[i].log.sent)
  }

  lemma InitializesCounted(s: State, seen: multiset<nat>)
    requires Ordered(s) && Matches(Initialize, s, seen)
    ensures TwoInitializes(s) <==> seen != multiset{}
  {
    hide InitOrder, InitializesRead, Tally, InitSent;
    if s.upstream.Some? { CountInitializes(s.upstream.value.log.sent); }
    forall i | 0 <= i < |s.past.servers|
      ensures InitializesRead(s.past.servers[i].log.sent) >= 2 <==> Tally(Initialize, s.past.servers[i].log.sent) >= 1
    {
      CountInitializes(s.past.servers[i].log.sent);
    }
    if seen != multiset{} {
      var g :| g in seen;
      assert Known(s, g);
    }
  }

  predicate Matches(name: Method, s: State, seen: multiset<nat>) {
    && (s.upstream.Some? ==> Tally(name, s.upstream.value.log.sent) == seen[s.upstream.value.generation])
    && (forall up | up in s.past.servers :: Tally(name, up.log.sent) == seen[up.generation])
    && forall g | g in seen :: Known(s, g)
  }

  lemma InitializedsCounted(s: State, seen: multiset<nat>)
    requires Ordered(s) && Matches(Initialized, s, seen)
    ensures TwoInitializeds(s) <==> exists g :: seen[g] >= 2
  {
    hide InitOrder, InitializedsRead, Tally, InitializedSent;
    if s.upstream.Some? { CountInitializeds(s.upstream.value.log.sent); }
    forall i | 0 <= i < |s.past.servers|
      ensures InitializedsRead(s.past.servers[i].log.sent) == Tally(Initialized, s.past.servers[i].log.sent)
    {
      CountInitializeds(s.past.servers[i].log.sent);
    }
    if exists g :: seen[g] >= 2 {
      var g :| seen[g] >= 2;
      assert g in seen && Known(s, g);
    }
  }

  lemma RunOrdered(now: nat, reports: seq<Report>, turns: seq<Turn>, env: Env)
    requires AdmissibleRun(now, reports, turns, env)
    ensures Ordered(Run(now, reports, turns, env).s)
  {
    hide Run, AdmissibleRun, InitOrder;
    StreamsInOrder(now, reports, turns, env);
  }

  /** In a run, failed ones included, some server, current or earlier, reads two initialize requests
      if and only if some turn brings a server one from a ready client; and two `initialized`
      notifications if and only if two turns bring such to the same server. */
  lemma HandshakeRepeated(now: nat, reports: seq<Report>, turns: seq<Turn>, env: Env)
    requires AdmissibleRun(now, reports, turns, env)
    ensures var s := Run(now, reports, turns, env).s;
            && (TwoInitializes(s) <==> RunDeliveries(Initialize, now, reports, turns, env) != multiset{})
            && (TwoInitializeds(s) <==> exists g :: RunDeliveries(Initialized, now, reports, turns, env)[g] >= 2)
  {
    hide Run, AdmissibleRun, RunDeliveries, Ordered, TwoInitializes, TwoInitializeds, Tally, Known;
    var s := Run(now, reports, turns, env).s;
    RunOrdered(now, reports, turns, env);
    RunCounted(Initialize, now, reports, turns, env);
    RunCounted(Initialized, now, reports, turns, env);
    InitializesCounted(s, RunDeliveries(Initialize, now, reports, turns, env));
    InitializedsCounted(s, RunDeliveries(Initialized, now, reports, turns, env));
  }

  /** The server of a run has read `initialized` as often as turns brought it one. So it serves
      sessions without ever having read one exactly if the session whose initialize it was sent
      ended before its `initialized` was accepted, and no ready client sent another. */
  lemma InitializedArrives(now: nat, reports: seq<Report>, turns: seq<Turn>, env: Env)
    requires AdmissibleRun(now, reports, turns, env)
    ensures var s := Run(now, reports, turns, env).s;
            s.upstream.Some? ==>
              InitializedsRead(s.upstream.value.log.sent)
              == RunDeliveries(Initialized, now, reports, turns, env)[s.upstream.value.generation]
  {
    hide Run, AdmissibleRun, RunDeliveries, InitOrder, InitializedsRead, Tally, Known;
    var s := Run(now, reports, turns, env).s;
    RunOrdered(now, reports, turns, env);
    RunCounted(Initialized, now, reports, turns, env);
    if s.upstream.Some? { CountInitializeds(s.upstream.value.log.sent); }
  }
}
