/** What every session is told and every server reads, over every run: the events alone decide it. */
module Transcripts {
  import opened Json
  import opened Coordinator
  import opened Streams
  import opened Invariants
  import opened Effects
  import opened Frames
  import opened Sessions
  import opened Turns
  import opened LoopProofs
  import opened Theorems

  // ----- transcripts

  function Addressed<T>(g: nat, es: seq<T>): (r: seq<(nat, T)>)
    ensures |r| == |es| && forall k | 0 <= k < |es| :: r[k] == (g, es[k])
  {
    if es == [] then [] else Addressed(g, es[..|es| - 1]) + [(g, es[|es| - 1])]
  }

  /** What of a transcript is addressed to one generation, in order. */
  function Select<T>(t: seq<(nat, T)>, g: nat): seq<T> {
    if t == [] then [] else Select(t[..|t| - 1], g) + if t[|t| - 1].0 == g then [t[|t| - 1].1] else []
  }

  /** The session that a turn tells something: the waiting connection that it admits, or the active
      client. */
  function Listener(s: State, event: Event): nat {
    if event.Reader? && event.source.FromClient? && event.source.generation in s.pending then event.source.generation
    else if s.client.Some? then s.client.value.generation
    else 0
  }

  /** The server that a turn brings something: the one that its event attaches, or the current one. */
  function Audience(s: State, event: Event): nat {
    if s.upstream.Some? then s.upstream.value.generation
    else if event.Process? then event.generation
    else 0
  }

  function TurnToClients(s: State, turn: Turn, env: Env): seq<(nat, ToClient)> {
    if !Handles(s, turn, env) then []
    else Addressed(Listener(Before(s, turn, env), turn.event.value), TurnEffect(s, turn, env).toClient)
  }

  function TurnChanges(s: State, turn: Turn, env: Env): seq<(nat, Change)> {
    if !Handles(s, turn, env) then []
    else Addressed(Listener(Before(s, turn, env), turn.event.value), TurnEffect(s, turn, env).changes)
  }

  function TurnToServers(s: State, turn: Turn, env: Env): seq<(nat, ToServer)> {
    if !Handles(s, turn, env) then []
    else Addressed(Audience(Before(s, turn, env), turn.event.value), TurnEffect(s, turn, env).toServer)
  }

  /** Everything the turns tell sessions, each message with the generation of its session. */
  function ToClients(s: State, turns: seq<Turn>, env: Env): seq<(nat, ToClient)>
    decreases |turns|
  {
    if turns == [] || s.lifecycle.Stopped? then []
    else
      var r := ServeTurn(s, turns[0], env);
      TurnToClients(s, turns[0], env) + if r.ok then ToClients(r.s, turns[1..], env) else []
  }

  /** How the turns change sessions, each change with the generation of its session. */
  function Changes(s: State, turns: seq<Turn>, env: Env): seq<(nat, Change)>
    decreases |turns|
  {
    if turns == [] || s.lifecycle.Stopped? then []
    else
      var r := ServeTurn(s, turns[0], env);
      TurnChanges(s, turns[0], env) + if r.ok then Changes(r.s, turns[1..], env) else []
  }

  /** Everything the turns bring servers, each message with the generation of its server. */
  function ToServers(s: State, turns: seq<Turn>, env: Env): seq<(nat, ToServer)>
    decreases |turns|
  {
    if turns == [] || s.lifecycle.Stopped? then []
    else
      var r := ServeTurn(s, turns[0], env);
      TurnToServers(s, turns[0], env) + if r.ok then ToServers(r.s, turns[1..], env) else []
  }

  function RunToClients(now: nat, reports: seq<Report>, turns: seq<Turn>, env: Env): seq<(nat, ToClient)> {
    var b := Boot(now, reports, env);
    if b.ok && b.s.lifecycle.Running? then ToClients(b.s, turns, env) else []
  }

  function RunChanges(now: nat, reports: seq<Report>, turns: seq<Turn>, env: Env): seq<(nat, Change)> {
    var b := Boot(now, reports, env);
    if b.ok && b.s.lifecycle.Running? then Changes(b.s, turns, env) else []
  }

  function RunToServers(now: nat, reports: seq<Report>, turns: seq<Turn>, env: Env): seq<(nat, ToServer)> {
    var b := Boot(now, reports, env);
    if b.ok && b.s.lifecycle.Running? then ToServers(b.s, turns, env) else []
  }

  lemma {:induction false} SelectAdds<T>(a: seq<(nat, T)>, b: seq<(nat, T)>, g: nat)
    ensures Select(a + b, g) == Select(a, g) + Select(b, g)
  {
    if b == [] {
      assert a + b == a;
    } else {
      SelectAdds(a, b[..|b| - 1], g);
      assert (a + b)[..|a + b| - 1] == a + b[..|b| - 1];
    }
  }

  lemma {:induction false} SelectAddressed<T>(g: nat, es: seq<T>, h: nat)
    ensures Select(Addressed(g, es), h) == if h == g then es else []
  {
    if es != [] {
      SelectAddressed(g, es[..|es| - 1], h);
      assert Addressed(g, es)[..|es| - 1] == Addressed(g, es[..|es| - 1]);
    }
  }

  lemma SelectMore<T>(t: seq<(nat, T)>, g: nat, es: seq<T>, h: nat)
    ensures Select(t + Addressed(g, es), h) == if h == g then Select(t, g) + es else Select(t, h)
  {
    hide Select, Addressed;
    SelectAdds(t, Addressed(g, es), h);
    SelectAddressed(g, es, h);
  }

  lemma {:induction false} SelectNothing<T>(t: seq<(nat, T)>, g: nat)
    requires forall x | x in t :: x.0 != g
    ensures Select(t, g) == []
  {
    if t != [] { SelectNothing(t[..|t| - 1], g); }
  }

  // ----- sessions

  /** A client has been told what the transcript holds for its session, and its session is what the changes
      have made of a new one. */
  predicate InLine(c: Client, t: seq<(nat, ToClient)>, u: seq<(nat, Change)>) {
    c.log.sent == Select(t, c.generation) && SessionOf(c) == Changed(NEW_SESSION, Select(u, c.generation))
  }

  /** This holds of every client, the active one and those that have left; nothing has happened to waiting
      connections. */
  ghost predicate SessionsTold(s: State, t: seq<(nat, ToClient)>, u: seq<(nat, Change)>) {
    && (s.client.Some? ==> InLine(s.client.value, t, u))
    && (forall c | c in s.past.sessions :: InLine(c, t, u) && Left(s, c.generation))
    && (forall g | g in s.pending :: Unnamed(t, g) && Unnamed(u, g))
    && UpTo(t, s.generation) && UpTo(u, s.generation)
  }

  ghost predicate Unnamed<T>(t: seq<(nat, T)>, g: nat) { forall x | x in t :: x.0 != g }

  ghost predicate UpTo<T>(t: seq<(nat, T)>, g: nat) { forall x | x in t :: x.0 <= g }

  predicate Left(s: State, g: nat) {
    g <= s.generation && g !in s.pending && ClientGeneration(s.client) != Some(g)
  }

  predicate Placed(s: State) {
    && (forall g | g in s.pending :: g <= s.generation && s.pending[g].client.generation == g
                                     && s.pending[g].client.log.sent == []
                                     && SessionOf(s.pending[g].client) == NEW_SESSION)
    && (s.client.Some? ==> s.client.value.generation <= s.generation && s.client.value.generation !in s.pending)
  }

  /** Only connections that were accepted in the step wait after it and did not before. */
  predicate Waits(s: State, s': State) {
    s.generation <= s'.generation && forall g | g in s'.pending :: g in s.pending || g > s.generation
  }

  lemma MoreNamed<T>(t: seq<(nat, T)>, g: nat, es: seq<T>, h: nat, n: nat)
    ensures Unnamed(t, h) && h != g ==> Unnamed(t + Addressed(g, es), h)
    ensures UpTo(t, n) && g <= n ==> UpTo(t + Addressed(g, es), n)
    ensures UpTo(t, n) && h > n ==> Unnamed(t, h)
  {
  }

  lemma InLineOther(c: Client, t: seq<(nat, ToClient)>, u: seq<(nat, Change)>, g: nat, e: Effect)
    requires InLine(c, t, u) && c.generation != g
    ensures InLine(c, t + Addressed(g, e.toClient), u + Addressed(g, e.changes))
  {
    hide Select, Changed;
    SelectMore(t, g, e.toClient, c.generation);
    SelectMore(u, g, e.changes, c.generation);
  }

  lemma InLineNext(c: Client, c': Client, t: seq<(nat, ToClient)>, u: seq<(nat, Change)>, e: Effect)
    requires InLine(c, t, u) && Continues(c, c', e)
    ensures InLine(c', t + Addressed(c.generation, e.toClient), u + Addressed(c.generation, e.changes))
  {
    hide Select, Changed;
    SelectMore(t, c.generation, e.toClient, c.generation);
    SelectMore(u, c.generation, e.changes, c.generation);
    ChangedTwice(NEW_SESSION, Select(u, c.generation), e.changes);
  }

  lemma TalkedTold(s: State, s': State, e: Effect, g: nat, t: seq<(nat, ToClient)>, u: seq<(nat, Change)>)
    requires SessionsTold(s, t, u) && Placed(s) && Talked(s, s', e) && Waits(s, s')
    requires s.client.Some? ==> g == s.client.value.generation
    ensures SessionsTold(s', t + Addressed(g, e.toClient), u + Addressed(g, e.changes))
  {
    hide InLine, Unnamed, UpTo, Continues;
    var t', u' := t + Addressed(g, e.toClient), u + Addressed(g, e.changes);
    if s.client == None {
      assert t' == t && u' == u;
      Grown(t, s.generation, s'.generation);
      Grown(u, s.generation, s'.generation);
      forall h | h in s'.pending ensures Unnamed(t', h) && Unnamed(u', h) {
        MoreNamed(t, g, [], h, s.generation);
        MoreNamed(u, g, [], h, s.generation);
      }
    } else {
      forall h | h in s'.pending ensures Unnamed(t', h) && Unnamed(u', h) {
        MoreNamed(t, g, e.toClient, h, s.generation);
        MoreNamed(u, g, e.changes, h, s.generation);
      }
      MoreNamed(t, g, e.toClient, g, s.generation);
      MoreNamed(u, g, e.changes, g, s.generation);
      Grown(t', s.generation, s'.generation);
      Grown(u', s.generation, s'.generation);
      forall c | c in s.past.sessions ensures InLine(c, t', u') { InLineOther(c, t, u, g, e); }
      if s'.client.Some? {
        InLineNext(s.client.value, s'.client.value, t, u, e);
        SameGeneration(s.client.value, s'.client.value, e);
      } else {
        var n := |s.past.sessions|;
        InLineNext(s.client.value, s'.past.sessions[n], t, u, e);
        SameGeneration(s.client.value, s'.past.sessions[n], e);
        forall c | c in s'.past.sessions ensures InLine(c, t', u') && Left(s', c.generation) {
          var k :| 0 <= k < |s'.past.sessions| && s'.past.sessions[k] == c;
          if k < n { assert c == s'.past.sessions[..n][k]; }
        }
      }
    }
  }

  lemma Grown<T>(t: seq<(nat, T)>, n: nat, m: nat)
    requires n <= m
    ensures UpTo(t, n) ==> UpTo(t, m)
  {
  }

  lemma SameGeneration(c: Client, c': Client, e: Effect)
    requires Continues(c, c', e)
    ensures c'.generation == c.generation
  {
  }

  lemma JoinedTold(s: State, g: nat, s': State, e: Effect, t: seq<(nat, ToClient)>, u: seq<(nat, Change)>)
    requires SessionsTold(s, t, u) && Placed(s) && s.client == None && JoinedAs(s, g, s', e) && Waits(s, s')
    ensures SessionsTold(s', t + Addressed(g, e.toClient), u + Addressed(g, e.changes))
  {
    hide Talked, Unnamed, UpTo;
    var a := Admitted(s, g);
    NotNamed(t, g);
    NotNamed(u, g);
    NoChanges();
    assert InLine(a.client.value, t, u);
    assert SessionsTold(a, t, u) && Placed(a);
    TalkedTold(a, s', e, g, t, u);
  }

  lemma NotNamed<T>(t: seq<(nat, T)>, g: nat)
    requires Unnamed(t, g)
    ensures Select(t, g) == []
  {
    SelectNothing(t, g);
  }

  lemma NoChanges()
    ensures Changed(NEW_SESSION, []) == NEW_SESSION
  {
  }

  lemma PlacedAlways(s: State)
    requires Invariant(s)
    ensures Placed(s) && Steady(s)
  {
    hide Shape, ServerOk, ClientOk, Linked, Recorded, KeptOk;
    SteadyState(s);
  }

  lemma QuietTold(s: State, s': State, t: seq<(nat, ToClient)>, u: seq<(nat, Change)>)
    requires SessionsTold(s, t, u) && Placed(s) && Quiet(s, s', NONE)
    ensures SessionsTold(s', t, u)
  {
    hide SessionsTold, Carried, Talked;
    var g := if s.client.Some? then s.client.value.generation else 0;
    TalkedTold(s, s', NONE, g, t, u);
    assert t + Addressed(g, []) == t && u + Addressed(g, []) == u;
  }

  lemma DispatchTold(s: State, event: Event, now: nat, env: Env, t: seq<(nat, ToClient)>, u: seq<(nat, Change)>)
    requires Invariant(s) && SessionsTold(s, t, u)
    ensures var b := ExpirePending(s, now);
            var e := EffectOf(b, event, env);
            SessionsTold(Dispatch(s, event, now, env).s,
                         t + Addressed(Listener(b, event), e.toClient), u + Addressed(Listener(b, event), e.changes))
  {
    hide Invariant, SessionsTold, Dispatch, EffectOf, Step, Talked, Placed, Steady;
    var b, s' := ExpirePending(s, now), Dispatch(s, event, now, env).s;
    PlacedAlways(s);
    ExpireTold(s, now, t, u);
    ExpireOnce(s, now);
    DispatchExpired(s, event, now, env);
    DispatchStep(b, event, now, env);
    StepWaits(b, s', EffectOf(b, event, env));
    var e := EffectOf(b, event, env);
    if Admitting(b, event, env) {
      DispatchJoins(b, event, now, env);
      JoinedTold(b, event.source.generation, s', e, t, u);
    } else {
      DispatchTalks(b, event, now, env);
      NobodyElse(b, event, env);
      if e.toClient == [] && e.changes == [] {
        var g := if b.client.Some? then b.client.value.generation else 0;
        TalkedTold(b, s', e, g, t, u);
        assert t + Addressed(g, []) == t && t + Addressed(Listener(b, event), []) == t;
        assert u + Addressed(g, []) == u && u + Addressed(Listener(b, event), []) == u;
      } else {
        TalkedTold(b, s', e, Listener(b, event), t, u);
      }
    }
  }

  lemma ExpireTold(s: State, now: nat, t: seq<(nat, ToClient)>, u: seq<(nat, Change)>)
    requires SessionsTold(s, t, u) && Placed(s) && Steady(s)
    ensures var b := ExpirePending(s, now); SessionsTold(b, t, u) && Placed(b) && Steady(b)
  {
    hide InLine;
  }

  /** Expiring twice is expiring once, so an event may be taken to find all connections in time. */
  lemma DispatchExpired(s: State, event: Event, now: nat, env: Env)
    ensures Dispatch(ExpirePending(s, now), event, now, env) == Dispatch(s, event, now, env)
  {
    hide HandlePendingMessage, HandleWriterEvent, HandleClientEvent, HandleServerEvent, HandleProcessEvent,
         AcceptPending, ExpirePending;
    ExpireOnce(s, now);
  }

  lemma StepWaits(s: State, s': State, e: Effect)
    requires Step(s, s', e)
    ensures Waits(s, s')
  {
    hide Carried, Traffic;
  }

  /** The event makes a waiting connection the client. */
  predicate Admitting(s: State, event: Event, env: Env) {
    event.Reader? && event.source.FromClient? && Admits(s, event.source.generation, event.read, env)
  }

  lemma DispatchJoins(s: State, event: Event, now: nat, env: Env)
    requires Steady(s) && ExpirePending(s, now) == s && Admitting(s, event, env)
    ensures s.client == None && Listener(s, event) == event.source.generation
    ensures JoinedAs(s, event.source.generation, Dispatch(s, event, now, env).s, EffectOf(s, event, env))
  {
    hide HandlePendingMessage, Said, Steady, Admitted, Talked, JoinedAs;
    AdmitsNobody(s, event.source.generation, event.read, env);
    PendingStep(s, event.source.generation, event.read, now, env);
  }

  lemma AdmitsNobody(s: State, g: nat, read: ReaderEvent, env: Env)
    requires Admits(s, g, read, env)
    ensures s.client == None && g in s.pending && read.Received?
  {
  }

  lemma NobodyElse(s: State, event: Event, env: Env)
    requires !Admitting(s, event, env)
    ensures EffectOf(s, event, env).toClient != [] || EffectOf(s, event, env).changes != [] ==>
              s.client.Some? && Listener(s, event) == s.client.value.generation
  {
    hide Said, Admits;
  }

  lemma DispatchTalks(s: State, event: Event, now: nat, env: Env)
    requires Steady(s) && ExpirePending(s, now) == s && !Admitting(s, event, env)
    ensures Talked(s, Dispatch(s, event, now, env).s, EffectOf(s, event, env))
  {
    hide HandlePendingMessage, HandleWriterEvent, HandleClientEvent, HandleServerEvent, HandleProcessEvent,
         AcceptPending, ExpirePending, Steady, Step, Quiet, Talked, Said, Told, Reported, Admits, Admitted;
    var s' := Dispatch(s, event, now, env).s;
    NothingQuiet(s);
    QuietMeans(s, s, NONE);
    match event
    case Accepted(at) =>
      AcceptQuiet(s, at, now, env);
      QuietMeans(s, s', NONE);
    case Reader(source, read) => ReaderTalks(s, source, read, now, env);
    case Writer(source, written) =>
      WriterQuiet(s, source, written, now, env);
      QuietMeans(s, s', NONE);
    case Process(g, report) => ProcessStep(s, g, report, now, env);
    case _ =>
  }

  lemma ReaderTalks(s: State, source: Source, read: ReaderEvent, now: nat, env: Env)
    requires Steady(s) && ExpirePending(s, now) == s && !Admitting(s, Reader(source, read), env)
    ensures Talked(s, Dispatch(s, Reader(source, read), now, env).s, EffectOf(s, Reader(source, read), env))
  {
    hide HandlePendingMessage, HandleClientEvent, HandleServerEvent, ExpirePending, Steady, Quiet, Talked,
         Said, Told, Admits, Admitted;
    NothingQuiet(s);
    QuietMeans(s, s, NONE);
    if source.FromClient? {
      if source.generation in s.pending {
        PendingStep(s, source.generation, read, now, env);
        QuietMeans(s, HandlePendingMessage(s, source.generation, read, now, env).s, NONE);
      } else if s.client.Some? {
        ClientEventQuiet(s, read, now, env);
        QuietMeans(s, HandleClientEvent(s, read, now, env).s, if read.Received? then Said(s, read.m, env) else NONE);
      }
    } else if s.upstream.Some? {
      ServerQuiet(s, read, now, env);
      QuietMeans(s, HandleServerEvent(s, read, now, env).s, if read.Received? then Told(s, read.m, env) else NONE);
    }
  }

  lemma TurnTold(s: State, turn: Turn, env: Env, t: seq<(nat, ToClient)>, u: seq<(nat, Change)>)
    requires Invariant(s) && SessionsTold(s, t, u)
    ensures SessionsTold(ServeTurn(s, turn, env).s, t + TurnToClients(s, turn, env), u + TurnChanges(s, turn, env))
  {
    hide Invariant, SessionsTold, Prologue, Dispatch, BeginStop, ExpirePending, EffectOf, Quiet, Placed, Safe, Listener;
    var p := Prologue(s, turn.now, turn.stalled, env);
    PlacedAlways(s);
    PrologueKeeps(s, turn.now, turn.stalled, env);
    PrologueQuiet(s, turn.now, turn.stalled, env);
    QuietTold(s, p.s, t, u);
    assert t + [] == t && u + [] == u;
    if Handles(s, turn, env) {
      DispatchTold(p.s, turn.event.value, turn.later, env, t, u);
    } else if p.ok {
      PlacedAlways(p.s);
      StopQuiet(p.s, turn.later, env);
      QuietTold(p.s, BeginStop(p.s, turn.later, env).s, t, u);
    }
  }

  lemma {:induction false} ServeTold(s: State, turns: seq<Turn>, env: Env, t: seq<(nat, ToClient)>,
                                     u: seq<(nat, Change)>)
    requires Invariant(s) && AdmissibleTurns(s, turns, env) && SessionsTold(s, t, u)
    ensures SessionsTold(Serve(s, turns, env).s, t + ToClients(s, turns, env), u + Changes(s, turns, env))
    decreases |turns|
  {
    hide Invariant, SessionsTold, ServeTurn, AdmissibleTurn, TurnToClients, TurnChanges, Safe;
    if turns == [] || s.lifecycle.Stopped? {
      assert t + [] == t && u + [] == u;
    } else {
      var r, d, f := ServeTurn(s, turns[0], env), TurnToClients(s, turns[0], env), TurnChanges(s, turns[0], env);
      TurnTold(s, turns[0], env, t, u);
      TurnKeeps(s, turns[0], env);
      if r.ok {
        ServeTold(r.s, turns[1..], env, t + d, u + f);
        assert t + d + ToClients(r.s, turns[1..], env) == t + (d + ToClients(r.s, turns[1..], env));
        assert u + f + Changes(r.s, turns[1..], env) == u + (f + Changes(r.s, turns[1..], env));
      } else {
        assert t + (d + []) == t + d && u + (f + []) == u + f;
      }
    }
  }

  // ----- servers

  /** Every server, the current one and those that have ended, has read what the transcript holds for it. */
  predicate ServersRead(s: State, t: seq<(nat, ToServer)>) {
    && (s.upstream.Some? ==> Read(s.upstream) == Select(t, s.upstream.value.generation))
    && (s.upstream.Some? ==> s.upstream.value.generation <= s.generation)
    && (forall up | up in s.past.servers :: Traffic(up.log.sent) == Select(t, up.generation) && Over(s, up.generation))
    && (forall x | x in t :: (Generation(s.upstream) == Some(x.0) || Over(s, x.0)) && Known(s, x.0))
  }

  /** There is or was a server of this generation. */
  predicate Known(s: State, g: nat) {
    Generation(s.upstream) == Some(g) || exists up | up in s.past.servers :: up.generation == g
  }

  lemma StillOver(s: State, s': State, e: Effect)
    requires Step(s, s', e)
    ensures forall g | Over(s, g) :: Over(s', g)
  {
    hide Over, Step;
    forall g | Over(s, g) ensures Over(s', g) { StaysOver(s, s', g, e); }
  }

  lemma StillRead(s: State, s': State, e: Effect, g: nat, t: seq<(nat, ToServer)>)
    requires ServersRead(s, t) && Still(s, s', e) && !(s.lifecycle.Starting? && s.upstream.Some?)
    requires s.upstream.Some? ==> g == s.upstream.value.generation
    ensures ServersRead(s', t + Addressed(g, e.toServer))
  {
    hide Select, Over, Traffic, Aged, Stages;
    var t' := t + Addressed(g, e.toServer);
    StillStep(s, s', e);
    StillOver(s, s', e);
    OlderThan(s, s');
    if s.upstream == None {
      assert [] + e.toServer == e.toServer;
      assert t' == t;
    } else {
      SelectMore(t, g, e.toServer, g);
      forall up | up in s.past.servers ensures Select(t', up.generation) == Select(t, up.generation) {
        SelectMore(t, g, e.toServer, up.generation);
        NotCurrent(s, up.generation);
      }
    }
  }

  lemma OlderThan(s: State, s': State)
    requires Aged(s, s')
    ensures s.generation <= s'.generation
  {
  }

  lemma NotCurrent(s: State, g: nat)
    requires Over(s, g)
    ensures Generation(s.upstream) != Some(g)
  {
  }

  lemma DroppedRead(s: State, s': State, e: Effect, g: nat, t: seq<(nat, ToServer)>)
    requires ServersRead(s, t) && Dropped(s, s', e) && !s.lifecycle.Starting?
    ensures ServersRead(s', t + Addressed(g, e.toServer))
  {
    hide Select, Traffic, Stages;
    assert t + Addressed(g, e.toServer) == t;
    StillOver(s, s', e);
    var n, last := |s.past.servers|, s.upstream.value.generation;
    assert Over(s', last);
    assert s'.past.servers[n] in s'.past.servers;
    forall up | up in s.past.servers ensures up in s'.past.servers {
      var k :| 0 <= k < n && s.past.servers[k] == up;
      assert s'.past.servers[..n][k] == up;
    }
    forall up | up in s'.past.servers
      ensures Traffic(up.log.sent) == Select(t, up.generation) && Over(s', up.generation) {
      var k :| 0 <= k < |s'.past.servers| && s'.past.servers[k] == up;
      if k < n { assert up == s'.past.servers[..n][k]; }
    }
  }

  /** Nothing has been brought to a server that is attached, and no earlier one has its generation. */
  lemma AttachedNew(s: State, s': State, e: Effect, g: nat, t: seq<(nat, ToServer)>)
    requires ServersRead(s, t) && Attached(s, s', e) && Generation(s'.upstream) == Some(g)
    ensures Select(t, g) == [] && forall up | up in s.past.servers :: up.generation != g
  {
    hide Select, Traffic, Letters, Farewell;
    assert !Over(s, g);
    SelectNothing(t, g);
  }

  lemma AttachedRead(s: State, s': State, e: Effect, g: nat, t: seq<(nat, ToServer)>)
    requires ServersRead(s, t) && Attached(s, s', e) && Generation(s'.upstream) == Some(g) && g <= s'.generation
    ensures ServersRead(s', t + Addressed(g, e.toServer))
  {
    hide Select, Traffic, Letters, Farewell, Parted, Over, Aged;
    var t' := t + Addressed(g, e.toServer);
    StillOver(s, s', e);
    AttachedNew(s, s', e, g, t);
    SelectMore(t, g, e.toServer, g);
    assert [] + e.toServer == e.toServer;
    forall up | up in s.past.servers ensures Select(t', up.generation) == Select(t, up.generation) {
      SelectMore(t, g, e.toServer, up.generation);
    }
  }

  lemma QuietRead(s: State, s': State, t: seq<(nat, ToServer)>)
    requires ServersRead(s, t) && Quiet(s, s', NONE) && !(s.lifecycle.Starting? && s.upstream.Some?)
    ensures ServersRead(s', t)
  {
    hide ServersRead, Aged, Carried;
    var g := if s.upstream.Some? then s.upstream.value.generation else 0;
    StillRead(s, s', NONE, g, t);
    assert t + Addressed(g, []) == t;
  }

  lemma DispatchRead(s: State, event: Event, now: nat, env: Env, t: seq<(nat, ToServer)>)
    requires Invariant(s) && ServersRead(s, t)
    ensures var b := ExpirePending(s, now);
            ServersRead(Dispatch(s, event, now, env).s,
                        t + Addressed(Audience(b, event), EffectOf(b, event, env).toServer))
  {
    hide Invariant, ServersRead, Dispatch, EffectOf, Still, Dropped, Attached, Conversed, Steady, ExpirePending;
    var b, s' := ExpirePending(s, now), Dispatch(s, event, now, env).s;
    var e := EffectOf(b, event, env);
    SteadyState(s);
    DispatchStep(s, event, now, env);
    DispatchAttaches(s, event, now, env);
    ExpireIs(s, now);
    NotStarting(s);
    if Still(s, s', e) {
      var g := Audience(b, event);
      StillRead(s, s', e, g, t);
    } else if Dropped(s, s', e) {
      StartingNot(s, s', e);
      DroppedRead(s, s', e, Audience(b, event), t);
    } else {
      AttachedIs(s, s', e);
      ProcessIsOld(s);
      AttachedRead(s, s', e, event.generation, t);
    }
  }

  lemma NotStarting(s: State)
    requires Steady(s)
    ensures !(s.lifecycle.Starting? && s.upstream.Some?)
  {
  }

  lemma StartingNot(s: State, s': State, e: Effect)
    requires Dropped(s, s', e)
    ensures s.upstream.Some?
  {
  }

  lemma ProcessIsOld(s: State)
    requires Invariant(s)
    ensures s.process.Some? ==> s.process.value <= s.generation
  {
    hide ServerOk, ClientOk, Linked, Recorded, KeptOk, Connections;
  }

  lemma AttachedIs(s: State, s': State, e: Effect)
    requires Attached(s, s', e)
    ensures s.upstream == None && s'.upstream.Some? && s.generation <= s'.generation
  {
  }

  lemma TurnRead(s: State, turn: Turn, env: Env, t: seq<(nat, ToServer)>)
    requires Invariant(s) && ServersRead(s, t)
    ensures ServersRead(ServeTurn(s, turn, env).s, t + TurnToServers(s, turn, env))
  {
    hide Invariant, ServersRead, Prologue, Dispatch, BeginStop, ExpirePending, EffectOf, Quiet, Steady, Safe, Audience;
    var p := Prologue(s, turn.now, turn.stalled, env);
    SteadyState(s);
    NotStarting(s);
    PrologueKeeps(s, turn.now, turn.stalled, env);
    PrologueQuiet(s, turn.now, turn.stalled, env);
    QuietRead(s, p.s, t);
    assert t + [] == t;
    if Handles(s, turn, env) {
      DispatchRead(p.s, turn.event.value, turn.later, env, t);
    } else if p.ok {
      SteadyState(p.s);
      NotStarting(p.s);
      StopQuiet(p.s, turn.later, env);
      QuietRead(p.s, BeginStop(p.s, turn.later, env).s, t);
    }
  }

  lemma {:induction false} ServeRead(s: State, turns: seq<Turn>, env: Env, t: seq<(nat, ToServer)>)
    requires Invariant(s) && AdmissibleTurns(s, turns, env) && ServersRead(s, t)
    ensures ServersRead(Serve(s, turns, env).s, t + ToServers(s, turns, env))
    decreases |turns|
  {
    hide Invariant, ServersRead, ServeTurn, AdmissibleTurn, TurnToServers, Safe;
    if turns == [] || s.lifecycle.Stopped? {
      assert t + [] == t;
    } else {
      var r, d := ServeTurn(s, turns[0], env), TurnToServers(s, turns[0], env);
      TurnRead(s, turns[0], env, t);
      TurnKeeps(s, turns[0], env);
      if r.ok {
        ServeRead(r.s, turns[1..], env, t + d);
        assert t + d + ToServers(r.s, turns[1..], env) == t + (d + ToServers(r.s, turns[1..], env));
      } else {
        assert t + (d + []) == t + d;
      }
    }
  }

  // ----- the start of a run

  /** Until the first server runs nothing was written to any, and there are no sessions. */
  predicate Unspoken(s: State) {
    && s.past.servers == [] && s.past.sessions == [] && s.client == None && s.pending == map[]
    && (s.upstream.Some? ==>
          s.upstream.value.log.sent == [] && s.upstream.value.generation <= s.generation
            && !s.upstream.value.restartRequired)
    && (s.process.Some? ==> s.process.value <= s.generation)
  }

  predicate Booting(s: State) {
    && s.upstream == None && s.pendingInitialize == None
    && s.lifecycle.Starting? && s.lifecycle.initial && s.process == Some(s.lifecycle.generation)
  }

  lemma BootUnspoken(s: State, report: Report, env: Env)
    requires Unspoken(s) && Booting(s)
    ensures var r := Dispatch(s, Process(report.generation, report.event), report.now, env);
            Unspoken(r.s) && (r.ok && !r.s.lifecycle.Running? ==> Booting(r.s))
  {
    hide HandleProcessEvent;
    assert ExpirePending(s, report.now) == s;
    BootReport(s, report.generation, report.event, report.now, env);
  }

  lemma BootReport(s: State, g: nat, event: ProcessEvent, now: nat, env: Env)
    requires Unspoken(s) && Booting(s)
    ensures var r := HandleProcessEvent(s, g, event, now, env);
            Unspoken(r.s) && (r.ok && !r.s.lifecycle.Running? ==> Booting(r.s))
  {
  }

  lemma {:induction false} AwaitUnspoken(s: State, reports: seq<Report>, env: Env)
    requires Unspoken(s) && Booting(s)
    ensures Unspoken(AwaitInitial(s, reports, env).s)
    decreases |reports|
  {
    hide Unspoken, Booting, Dispatch;
    if reports != [] {
      BootUnspoken(s, reports[0], env);
      var r := Dispatch(s, Process(reports[0].generation, reports[0].event), reports[0].now, env);
      if r.ok && !r.s.lifecycle.Running? { AwaitUnspoken(r.s, reports[1..], env); }
    }
  }

  lemma BootedUnspoken(now: nat, reports: seq<Report>, env: Env)
    ensures Unspoken(Boot(now, reports, env).s)
  {
    hide AwaitInitial;
    var s0 := StartUpstream(NewDaemon(now), true, env);
    if s0.ok { AwaitUnspoken(s0.s, reports, env); }
  }

  lemma UnspokenTold(s: State)
    requires Unspoken(s)
    ensures SessionsTold(s, [], []) && ServersRead(s, [])
  {
  }

  // ----- over every run

  /** Whatever happens, failed runs included: every session, the active one and those that have left, has
      been told exactly the messages that the turns of the run addressed to it, in that order, and it
      is, or was when it left, exactly what the turns have made of a new session. */
  lemma SessionsHear(now: nat, reports: seq<Report>, turns: seq<Turn>, env: Env)
    requires AdmissibleRun(now, reports, turns, env)
    ensures var s := Run(now, reports, turns, env).s;
            var t, u := RunToClients(now, reports, turns, env), RunChanges(now, reports, turns, env);
            && (s.client.Some? ==> InLine(s.client.value, t, u))
            && forall c | c in s.past.sessions :: InLine(c, t, u)
  {
    hide Unspoken, Boot, Serve, ToClients, Changes, AdmissibleReports, AdmissibleTurns, Invariant, Safe, StartUpstream,
         InLine;
    var b := Boot(now, reports, env);
    BootedUnspoken(now, reports, env);
    UnspokenTold(b.s);
    if b.ok && b.s.lifecycle.Running? {
      BootFails(now, reports, env);
      BootKeeps(now, reports, env);
      ServeTold(b.s, turns, env, [], []);
      assert [] + ToClients(b.s, turns, env) == ToClients(b.s, turns, env);
      assert [] + Changes(b.s, turns, env) == Changes(b.s, turns, env);
    }
  }

  /** And every server has read exactly what the turns brought it on behalf of its sessions, in that
      order, besides the settlement of departures and its shutdown. */
  lemma ServersHear(now: nat, reports: seq<Report>, turns: seq<Turn>, env: Env)
    requires AdmissibleRun(now, reports, turns, env)
    ensures var s, t := Run(now, reports, turns, env).s, RunToServers(now, reports, turns, env);
            && (s.upstream.Some? ==> Traffic(s.upstream.value.log.sent) == Select(t, s.upstream.value.generation))
            && (forall up | up in s.past.servers :: Traffic(up.log.sent) == Select(t, up.generation))
            && forall x | x in t :: Known(s, x.0)
  {
    hide Unspoken, Boot, Serve, ToServers, AdmissibleReports, AdmissibleTurns, Invariant, Safe, StartUpstream, Select,
         Over, Known;
    var b := Boot(now, reports, env);
    BootedUnspoken(now, reports, env);
    UnspokenTold(b.s);
    if b.ok && b.s.lifecycle.Running? {
      BootFails(now, reports, env);
      BootKeeps(now, reports, env);
      ServeRead(b.s, turns, env, []);
      assert [] + ToServers(b.s, turns, env) == ToServers(b.s, turns, env);
    }
  }

  // ----- what is relayed

  /** The messages of the server in a stream to a client. */
  function Relays(log: seq<ToClient>): seq<Message> {
    if log == [] then []
    else Relays(log[..|log| - 1]) + if log[|log| - 1].Relayed? then [log[|log| - 1].m] else []
  }

  lemma {:induction false} RelaysAdd(a: seq<ToClient>, b: seq<ToClient>)
    ensures Relays(a + b) == Relays(a) + Relays(b)
  {
    if b == [] {
      assert a + b == a;
    } else {
      RelaysAdd(a, b[..|b| - 1]);
      assert (a + b)[..|a + b| - 1] == a + b[..|b| - 1];
    }
  }

  /** The current server sends a notification, or a request whose method has a name, that decodes, while
      there is an active client, and the write to it is accepted. */
  predicate Delivers(s: State, event: Event, env: Env) {
    && event.Reader? && event.source.FromServer? && Generation(s.upstream) == Some(event.source.generation)
    && event.read.Received? && event.read.m.decodable
    && (event.read.m.id.Some? ==> event.read.m.name != Missing && event.read.m.name != NotAString)
    && s.client.Some? && env.write(s.attempts)
  }

  function TurnRelays(s: State, turn: Turn, env: Env): seq<(nat, Message)> {
    if Handles(s, turn, env) && Delivers(Before(s, turn, env), turn.event.value, env)
    then [(Before(s, turn, env).client.value.generation, turn.event.value.read.m)] else []
  }

  /** The messages that servers send and sessions are to read, in order. */
  function RelayedBy(s: State, turns: seq<Turn>, env: Env): seq<(nat, Message)>
    decreases |turns|
  {
    if turns == [] || s.lifecycle.Stopped? then []
    else
      var r := ServeTurn(s, turns[0], env);
      TurnRelays(s, turns[0], env) + if r.ok then RelayedBy(r.s, turns[1..], env) else []
  }

  lemma OneRelay(e: ToClient)
    ensures Relays([e]) == if e.Relayed? then [e.m] else []
    ensures Relays([]) == []
  {
    assert [e][..0] == [];
  }

  lemma SaidRelays(s: State, m: Message, env: Env)
    requires s.client.Some?
    ensures Relays(Said(s, m, env).toClient) == []
  {
    hide Passed, Moves;
    if Replies(s, m, env) != [] { OneRelay(Replies(s, m, env)[0]); }
  }

  lemma EventRelays(s: State, event: Event, env: Env)
    ensures Relays(EffectOf(s, event, env).toClient) == if Delivers(s, event, env) then [event.read.m] else []
  {
    hide Said, Admits, Relays;
    var told := EffectOf(s, event, env).toClient;
    OneRelay(BackgroundReady);
    if event.Reader? && event.source.FromClient? && event.read.Received? {
      if s.client.Some? { SaidRelays(s, event.read.m, env); }
      if event.source.generation in s.pending { SaidRelays(Admitted(s, event.source.generation), event.read.m, env); }
      if Admits(s, event.source.generation, event.read, env) {
        AdmitsNobody(s, event.source.generation, event.read, env);
      }
    } else if event.Reader? && event.source.FromClient? {
      if Admits(s, event.source.generation, event.read, env) {
        AdmitsNobody(s, event.source.generation, event.read, env);
      }
    } else if told != [] {
      OneRelay(told[0]);
      assert told == [told[0]];
    }
  }

  lemma TurnRelayed(s: State, turn: Turn, env: Env, g: nat)
    requires Invariant(s)
    ensures Relays(Select(TurnToClients(s, turn, env), g)) == Select(TurnRelays(s, turn, env), g)
  {
    hide Invariant, Prologue, EffectOf, Delivers, Relays, Select, Addressed, Steady, Safe;
    OneRelay(BackgroundReady);
    NothingFor<ToClient>(g);
    NothingFor<Message>(g);
    if Handles(s, turn, env) {
      var b, event := Before(s, turn, env), turn.event.value;
      EventRelays(b, event, env);
      SelectAddressed(Listener(b, event), EffectOf(b, event, env).toClient, g);
      if Delivers(b, event, env) {
        DeliversTo(b, event, env);
        OneFor(b.client.value.generation, event.read.m, g);
      }
    }
  }

  lemma NothingFor<T>(g: nat)
    ensures Select<T>([], g) == []
  {
  }

  lemma OneFor<T>(g: nat, x: T, h: nat)
    ensures Select([(g, x)], h) == if g == h then [x] else []
  {
    assert [(g, x)][..0] == [];
  }

  lemma DeliversTo(s: State, event: Event, env: Env)
    requires Delivers(s, event, env)
    ensures event.Reader? && event.read.Received? && s.client.Some? && Listener(s, event) == s.client.value.generation
  {
  }

  lemma {:induction false} ServeRelayed(s: State, turns: seq<Turn>, env: Env, g: nat)
    requires Invariant(s) && AdmissibleTurns(s, turns, env)
    ensures Relays(Select(ToClients(s, turns, env), g)) == Select(RelayedBy(s, turns, env), g)
    decreases |turns|
  {
    hide Invariant, ServeTurn, AdmissibleTurn, TurnToClients, TurnRelays, Relays, Select, Safe;
    OneRelay(BackgroundReady);
    NothingFor<ToClient>(g);
    NothingFor<Message>(g);
    if turns != [] && !s.lifecycle.Stopped? {
      var r := ServeTurn(s, turns[0], env);
      var d, f := TurnToClients(s, turns[0], env), TurnRelays(s, turns[0], env);
      var more := if r.ok then ToClients(r.s, turns[1..], env) else [];
      var rest := if r.ok then RelayedBy(r.s, turns[1..], env) else [];
      TurnRelayed(s, turns[0], env, g);
      TurnKeeps(s, turns[0], env);
      if r.ok { ServeRelayed(r.s, turns[1..], env, g); }
      SelectAdds(d, more, g);
      SelectAdds(f, rest, g);
      RelaysAdd(Select(d, g), Select(more, g));
    }
  }

  function RunRelayed(now: nat, reports: seq<Report>, turns: seq<Turn>, env: Env): seq<(nat, Message)> {
    var b := Boot(now, reports, env);
    if b.ok && b.s.lifecycle.Running? then RelayedBy(b.s, turns, env) else []
  }

  /** So every session reads, in order, exactly the notifications and requests that the current server sent
      while it was the active one. */
  lemma SessionsReadTheServer(now: nat, reports: seq<Report>, turns: seq<Turn>, env: Env)
    requires AdmissibleRun(now, reports, turns, env)
    ensures var s, t := Run(now, reports, turns, env).s, RunRelayed(now, reports, turns, env);
            && (s.client.Some? ==> Relays(s.client.value.log.sent) == Select(t, s.client.value.generation))
            && forall c | c in s.past.sessions :: Relays(c.log.sent) == Select(t, c.generation)
  {
    hide Run, RunToClients, RunRelayed, RunChanges, AdmissibleRun, Relays, Select, Changed;
    SessionsHear(now, reports, turns, env);
    var s := Run(now, reports, turns, env).s;
    if s.client.Some? { RunRelays(now, reports, turns, env, s.client.value.generation); }
    forall c | c in s.past.sessions
      ensures Relays(c.log.sent) == Select(RunRelayed(now, reports, turns, env), c.generation)
    {
      RunRelays(now, reports, turns, env, c.generation);
    }
  }

  lemma RunRelays(now: nat, reports: seq<Report>, turns: seq<Turn>, env: Env, g: nat)
    requires AdmissibleRun(now, reports, turns, env)
    ensures Relays(Select(RunToClients(now, reports, turns, env), g)) == Select(RunRelayed(now, reports, turns, env), g)
  {
    hide Boot, ToClients, RelayedBy, AdmissibleReports, AdmissibleTurns, Invariant, Safe, StartUpstream, Select, Relays;
    OneRelay(BackgroundReady);
    NothingFor<ToClient>(g);
    NothingFor<Message>(g);
    var b := Boot(now, reports, env);
    if b.ok && b.s.lifecycle.Running? {
      BootFails(now, reports, env);
      BootKeeps(now, reports, env);
      ServeRelayed(b.s, turns, env, g);
    }
  }
}
