/** What every handler leaves alone, and what it adds: which process has been announced, what the sessions
    have brought the server and been told, and which stages of its shutdown a server has passed. */
module Frames {
  import opened Json
  import Order
  import Protocol
  import opened Coordinator
  import opened Streams
  import opened Invariants
  import opened Effects

  /** What the current server has read of its sessions. */
  function Read(up: Option<Upstream>): seq<ToServer> {
    if up.Some? then Traffic(up.value.log.sent) else []
  }

  /** The stages of its shutdown that the current server has reached. */
  function Stages(up: Option<Upstream>): seq<ShutdownStage> {
    if up.Some? then up.value.log.stages else []
  }

  /** What a server reads when its shutdown reaches these stages: the request, and then the exit. */
  function Farewell(stages: seq<ShutdownStage>): seq<ToServer> {
    if stages == [] then []
    else
      Farewell(stages[..|stages| - 1])
      + match stages[|stages| - 1]
        case ForReply => [ShutdownRequest]
        case ForExitWrite => [ExitNotice]
        case ForExit => []
  }

  /** The server has been told to shut down as far as its shutdown has come. */
  predicate Parted(up: Option<Upstream>) {
    up.Some? ==> Letters(up.value.log.sent) == Farewell(up.value.log.stages)
  }

  // ----- what a step can do

  /** Nothing in the step announced a process. */
  predicate Calm(s: State, s': State) {
    s'.past.announced && s'.process.Some? ==> s.past.announced && s'.process == s.process
  }

  /** Generations are given out once: what is alive after the step was alive before, or is newer
      than anything before. A waiting connection may have become the client, and a process may
      have become a server. */
  predicate Aged(s: State, s': State) {
    && s.generation <= s'.generation
    && (forall g | g in s'.pending :: g in s.pending || g > s.generation)
    && (s'.client.Some? ==>
          || ClientGeneration(s'.client) == ClientGeneration(s.client)
          || s'.client.value.generation in s.pending
          || s'.client.value.generation > s.generation)
    && (s'.process.Some? ==> s'.process == s.process || s.generation < s'.process.value <= s'.generation)
    && (s'.upstream.Some? ==>
          || Generation(s'.upstream) == Generation(s.upstream)
          || Generation(s'.upstream) == s.process
          || s'.upstream.value.generation > s.generation)
    && (s'.lifecycle.Starting? ==>
          || (s.lifecycle.Starting? && s'.process == s.process)
          || (s'.process.Some? && s'.process.value > s.generation))
  }

  /** The same server, which has read what the step brings it, may have reached further stages of its
      shutdown, and is unlike a fresh one if it was so before or the step makes it so. */
  predicate Carried(up: Option<Upstream>, up': Option<Upstream>, e: Effect) {
    && Generation(up') == Generation(up)
    && Read(up') == Read(up) + e.toServer
    && Stages(up) <= Stages(up')
    && (Tainted(up') <==> Tainted(up) || e.taint)
    && (Parted(up) ==> Parted(up'))
  }

  /** A step that leaves the servers as they are, but for what it brings. */
  predicate Still(s: State, s': State, e: Effect) {
    Aged(s, s') && s'.past.servers == s.past.servers && Carried(s.upstream, s'.upstream, e)
  }

  /** The client `c` afterwards: told what the step tells it, and its session changed as the step says. */
  predicate Continues(c: Client, c': Client, e: Effect) {
    && c'.generation == c.generation && c'.log.sent == c.log.sent + e.toClient
    && SessionOf(c') == Changed(SessionOf(c), e.changes)
  }

  /** The active client stays or leaves; nobody takes its place. */
  predicate Talked(s: State, s': State, e: Effect) {
    match s.client
    case None => s'.client == None && e.toClient == [] && e.changes == [] && s'.past.sessions == s.past.sessions
    case Some(c) =>
      if s'.client.Some? then Continues(c, s'.client.value, e) && s'.past.sessions == s.past.sessions
      else
        var n := |s.past.sessions|;
        && |s'.past.sessions| == n + 1 && s'.past.sessions[..n] == s.past.sessions
        && Continues(c, s'.past.sessions[n], e)
  }

  /** A server that is being killed is not spared. */
  predicate Doomed(s: State, s': State) {
    s.upstream.Some? && s.lifecycle.Killing? ==> s'.lifecycle.Killing?
  }

  /** A server that is no longer like a fresh one is not given to a session, one that does not run does
      not run again, and a requested stop stands. */
  predicate Barred(s: State, s': State) {
    && (Tainted(s.upstream) && s.client.Some? && s'.client.Some? && Live(s'.client.value.phase) ==>
          Live(s.client.value.phase))
    && (s.upstream.Some? && s'.lifecycle.Running? ==> s.lifecycle.Running?)
    && (s.stopRequested ==> s'.stopRequested)
  }

  /** All of that, and no process is announced. */
  predicate Quiet(s: State, s': State, e: Effect) {
    Calm(s, s') && Still(s, s', e) && Talked(s, s', e) && Doomed(s, s') && Barred(s, s')
  }

  /** A step that changes neither lifecycle, processes nor connections. */
  predicate Same(s: State, s': State, e: Effect) {
    && s'.process == s.process && s'.lifecycle == s.lifecycle && s'.generation == s.generation
    && s'.pending == s.pending && s'.stopRequested == s.stopRequested
    && s'.past.announced == s.past.announced && s'.past.servers == s.past.servers
    && s'.past.sessions == s.past.sessions
    && (if s.client.Some? then s'.client.Some? && Continues(s.client.value, s'.client.value, e)
        else s'.client == None && e.toClient == [] && e.changes == [])
    && Carried(s.upstream, s'.upstream, e) && Barred(s, s')
  }

  // ----- how steps compose

  lemma CarriedThrough(a: Option<Upstream>, b: Option<Upstream>, c: Option<Upstream>, d: Effect, e: Effect)
    requires Carried(a, b, d) && Carried(b, c, e)
    ensures Carried(a, c, Both(d, e))
  {
    hide Read, Stages, Letters, Farewell;
    assert Read(a) + d.toServer + e.toServer == Read(a) + (d.toServer + e.toServer);
  }

  /** What two steps bring together. */
  function Both(d: Effect, e: Effect): Effect {
    Effect(d.toServer + e.toServer, d.toClient + e.toClient, d.taint || e.taint, d.changes + e.changes)
  }

  lemma BothNone(e: Effect)
    ensures Both(NONE, e) == e && Both(e, NONE) == e
  {
    assert [] + e.toServer == e.toServer && [] + e.toClient == e.toClient && [] + e.changes == e.changes;
  }

  lemma {:induction false} ChangedTwice(x: Session, a: seq<Change>, b: seq<Change>)
    ensures Changed(x, a + b) == Changed(Changed(x, a), b)
  {
    if b == [] {
      assert a + b == a;
    } else {
      ChangedTwice(x, a, b[..|b| - 1]);
      assert (a + b)[..|a + b| - 1] == a + b[..|b| - 1];
    }
  }

  lemma ContinuesThrough(a: Client, b: Client, c: Client, d: Effect, e: Effect)
    requires Continues(a, b, d) && Continues(b, c, e)
    ensures Continues(a, c, Both(d, e))
  {
    hide Changed;
    ChangedTwice(SessionOf(a), d.changes, e.changes);
    assert a.log.sent + d.toClient + e.toClient == a.log.sent + (d.toClient + e.toClient);
  }

  lemma AgedThrough(a: State, b: State, c: State)
    requires Aged(a, b) && Aged(b, c) && Generation(b.upstream) == Generation(a.upstream)
    ensures Aged(a, c)
  {
  }

  lemma TalkedThrough(a: State, b: State, c: State, d: Effect, e: Effect)
    requires Talked(a, b, d) && Talked(b, c, e)
    ensures Talked(a, c, Both(d, e))
  {
    hide Changed, Continues;
    if a.client.Some? {
      if b.client.Some? {
        if c.client.Some? {
          ContinuesThrough(a.client.value, b.client.value, c.client.value, d, e);
        } else {
          ContinuesThrough(a.client.value, b.client.value, c.past.sessions[|b.past.sessions|], d, e);
        }
      } else {
        assert d.toClient + [] == d.toClient && d.changes + [] == d.changes;
        OnlyServer(a.client.value, b.past.sessions[|a.past.sessions|], d, Both(d, e));
      }
    }
  }

  lemma OnlyServer(c: Client, c': Client, d: Effect, e: Effect)
    requires Continues(c, c', d) && e.toClient == d.toClient && e.changes == d.changes
    ensures Continues(c, c', e)
  {
  }

  lemma BarredThrough(a: State, b: State, c: State, d: Effect, e: Effect)
    requires Barred(a, b) && Barred(b, c) && Carried(a.upstream, b.upstream, d)
    requires b.client == None ==> c.client == None || a.client == None
    ensures Barred(a, c)
  {
    hide Read, Stages, Letters, Farewell;
  }

  lemma QuietBoth(a: State, b: State, c: State, d: Effect, e: Effect)
    requires Quiet(a, b, d) && Quiet(b, c, e)
    ensures Quiet(a, c, Both(d, e))
  {
    hide Aged, Carried, Barred;
    CarriedSame(a.upstream, b.upstream, d);
    CarriedThrough(a.upstream, b.upstream, c.upstream, d, e);
    AgedThrough(a, b, c);
    TalkedThrough(a, b, c, d, e);
    BarredThrough(a, b, c, d, e);
  }

  lemma CarriedSame(a: Option<Upstream>, b: Option<Upstream>, e: Effect)
    requires Carried(a, b, e)
    ensures Generation(b) == Generation(a) && (a.Some? <==> b.Some?)
  {
  }

  lemma QuietThrough(a: State, b: State, c: State, e: Effect)
    requires Quiet(a, b, NONE) && Quiet(b, c, e)
    ensures Quiet(a, c, e)
  {
    hide Quiet;
    BothNone(e);
    QuietBoth(a, b, c, NONE, e);
  }

  lemma QuietOn(a: State, b: State, c: State, e: Effect)
    requires Quiet(a, b, e) && Quiet(b, c, NONE)
    ensures Quiet(a, c, e)
  {
    hide Quiet;
    BothNone(e);
    QuietBoth(a, b, c, e, NONE);
  }

  lemma SameBoth(a: State, b: State, c: State, d: Effect, e: Effect)
    requires Same(a, b, d) && Same(b, c, e)
    ensures Same(a, c, Both(d, e))
  {
    hide Carried, Barred, Continues;
    CarriedThrough(a.upstream, b.upstream, c.upstream, d, e);
    BarredThrough(a, b, c, d, e);
    if a.client.Some? { ContinuesThrough(a.client.value, b.client.value, c.client.value, d, e); }
  }

  lemma SameThrough(a: State, b: State, c: State, e: Effect)
    requires Same(a, b, NONE) && Same(b, c, e)
    ensures Same(a, c, e)
  {
    hide Same;
    BothNone(e);
    SameBoth(a, b, c, NONE, e);
  }

  lemma SameQuiet(s: State, s': State, e: Effect)
    requires Same(s, s', e)
    ensures Quiet(s, s', e)
  {
    hide Carried, Barred;
    CarriedSame(s.upstream, s'.upstream, e);
  }

  lemma NothingQuiet(s: State)
    ensures Quiet(s, s, NONE) && Same(s, s, NONE)
  {
  }

  // ----- single changes

  /** A message of a session, or about one, as far as it is written. */
  function ToServerIf(s: State, e: ToServer, env: Env): Effect {
    Effect(if s.upstream.Some? && env.write(s.attempts) && OfSession(e) then [e] else [], [], false, [])
  }

  function ToClientIf(s: State, e: ToClient, env: Env): Effect {
    Effect([], if s.client.Some? && env.write(s.attempts) then [e] else [], false, [])
  }

  lemma WriteSame(s: State, e: ToServer, env: Env)
    requires !IsLetter(e)
    ensures Same(s, WriteUpstream(s, e, env).s, ToServerIf(s, e, env))
    ensures WriteUpstream(s, e, env).s.lifecycle == s.lifecycle && WriteUpstream(s, e, env).s.client == s.client
  {
    hide Traffic, Letters, Farewell;
    if s.upstream.Some? {
      Traffic1(s.upstream.value.log.sent, e);
      Letters1(s.upstream.value.log.sent, e);
    }
  }

  lemma WriteOwn(s: State, e: ToServer, env: Env)
    requires !OfSession(e) && !IsLetter(e)
    ensures Same(s, WriteUpstream(s, e, env).s, NONE)
    ensures WriteUpstream(s, e, env).s.lifecycle == s.lifecycle && WriteUpstream(s, e, env).s.client == s.client
  {
    hide WriteUpstream, Same;
    WriteSame(s, e, env);
  }

  /** A message of the shutdown is written, and the deadline that goes with it set; or it is refused. */
  lemma LetterSame(s: State, e: ToServer, stage: ShutdownStage, env: Env)
    requires s.upstream.Some? && (e == ShutdownRequest <==> stage == ForReply)
    requires (e == ExitNotice <==> stage == ForExitWrite)
    requires IsLetter(e)
    ensures var w := WriteUpstream(s, e, env);
            && w.ok == env.write(s.attempts) && w.s.lifecycle == s.lifecycle && Arm(w.s, stage).lifecycle == s.lifecycle
            && Same(s, if w.ok then Arm(w.s, stage) else w.s, NONE)
  {
    hide Traffic, Letters, Farewell;
    var log := s.upstream.value.log;
    Traffic1(log.sent, e);
    Letters1(log.sent, e);
    Farewell1(log.stages, stage);
  }

  lemma Farewell1(stages: seq<ShutdownStage>, stage: ShutdownStage)
    ensures Farewell(stages + [stage])
         == Farewell(stages) + match stage
                               case ForReply => [ShutdownRequest]
                               case ForExitWrite => [ExitNotice]
                               case ForExit => []
  {
    assert (stages + [stage])[..|stages|] == stages;
  }

  lemma EnqueueSame(s: State, e: ToClient, env: Env)
    ensures Same(s, EnqueueClient(s, e, env).s, ToClientIf(s, e, env))
  {
    hide Traffic, Letters, Farewell;
  }

  /** What a step may change without touching servers, processes or the client. */
  lemma MinorQuiet(s: State, s': State)
    requires s' == s.(idleSince := s'.idleSince, stopRequested := s'.stopRequested, accepting := s'.accepting,
                      pendingInitialize := s'.pendingInitialize, pending := s'.pending)
    requires s'.pending.Keys <= s.pending.Keys && (s.stopRequested ==> s'.stopRequested)
    ensures Quiet(s, s', NONE)
  {
    hide Traffic, Letters, Farewell;
  }

  lemma LifecycleQuiet(s: State, lc: Lifecycle)
    requires !lc.Starting? && !lc.Running? && (s.upstream.Some? && s.lifecycle.Killing? ==> lc.Killing?)
    ensures Quiet(s, s.(lifecycle := lc), NONE)
  {
    hide Traffic, Letters, Farewell;
  }

  /** A change of the session alone. */
  function Alters(changes: seq<Change>): Effect { Effect([], [], false, changes) }

  lemma ClientSame(s: State, c: Client, changes: seq<Change>)
    requires s.client.Some? && c.generation == s.client.value.generation && c.log.sent == s.client.value.log.sent
    requires SessionOf(c) == Changed(SessionOf(s.client.value), changes)
    requires Tainted(s.upstream) && Live(c.phase) ==> Live(s.client.value.phase)
    ensures Same(s, s.(client := Some(c)), Alters(changes))
  {
    hide Traffic, Changed, Letters, Farewell;
  }

  lemma OneChange(x: Session, change: Change)
    ensures Changed(x, [change]) == Changed1(x, change) && Changed(x, []) == x
  {
    assert [change][..0] == [];
  }

  lemma MoreChanges(x: Session, changes: seq<Change>, change: Change)
    ensures Changed(x, changes + [change]) == Changed1(Changed(x, changes), change)
  {
    assert (changes + [change])[..|changes|] == changes;
  }

  lemma PhaseSame(s: State, phase: Phase)
    requires s.client.Some? && (Live(phase) && Tainted(s.upstream) ==> Live(s.client.value.phase))
    ensures Same(s, SetPhase(s, phase), Alters([Enters(phase)]))
  {
    hide Changed, Same;
    OneChange(SessionOf(s.client.value), Enters(phase));
    ClientSame(s, s.client.value.(phase := phase), [Enters(phase)]);
  }

  /** What a change of the session and a message bring together. */
  lemma AltersBoth(changes: seq<Change>, e: Effect)
    requires e.changes == []
    ensures Both(Alters(changes), e) == e.(changes := changes) && Both(e, Alters(changes)) == e.(changes := changes)
  {
    assert [] + e.toServer == e.toServer && [] + e.toClient == e.toClient;
    assert changes + [] == changes && [] + changes == changes;
  }

  lemma ArmSame(s: State)
    ensures Same(s, Arm(s, ForExit), NONE) && Arm(s, ForExit).lifecycle == s.lifecycle
  {
    hide Traffic, Letters, Farewell;
    if s.upstream.Some? {
      Farewell1(s.upstream.value.log.stages, ForExit);
      assert Farewell(s.upstream.value.log.stages) + [] == Farewell(s.upstream.value.log.stages);
    }
  }

  lemma StartQuiet(s: State, initial: bool, env: Env)
    requires s.lifecycle.Killing? ==> s.upstream == None
    ensures Quiet(s, StartUpstream(s, initial, env).s, NONE)
  {
    hide Traffic, Letters, Farewell;
  }

  // ----- departures and shutdowns

  lemma {:induction false} CloseSame(s: State, uris: seq<string>, env: Env)
    ensures Same(s, CloseAll(s, uris, env).s, NONE)
    decreases |uris|
  {
    hide WriteUpstream, Same;
    NothingQuiet(s);
    if uris != [] && env.uriParses(uris[0]) {
      var s1 := WriteUpstream(s, CloseDocument(uris[0]), env).s;
      WriteOwn(s, CloseDocument(uris[0]), env);
      CloseSame(s1, uris[1..], env);
      SameThrough(s, s1, CloseAll(s1, uris[1..], env).s, NONE);
    }
  }

  lemma {:induction false} CancelSame(s: State, keys: seq<string>, env: Env)
    ensures Same(s, CancelAll(s, keys, env).s, NONE)
    decreases |keys|
  {
    hide WriteUpstream, Same;
    NothingQuiet(s);
    if keys != [] {
      var id := Protocol.RequestIdFromKey(keys[0]);
      var s1 := WriteUpstream(s, CancelRequest(id), env).s;
      var s2 := s1.(orphaned := s1.orphaned + {keys[0]});
      WriteOwn(s, CancelRequest(id), env);
      OrphanSame(s1, s2.orphaned);
      SameThrough(s, s1, s2, NONE);
      CancelSame(s2, keys[1..], env);
      SameThrough(s, s2, CancelAll(s2, keys[1..], env).s, NONE);
    }
  }

  lemma {:induction false} AnswerSame(s: State, requests: map<string, Value>, keys: seq<string>, env: Env)
    requires forall k | k in keys :: k in requests
    ensures Same(s, AnswerAll(s, requests, keys, env), NONE)
    decreases |keys|
  {
    hide WriteUpstream, Same;
    NothingQuiet(s);
    if keys != [] {
      var s1 := WriteUpstream(s, CancelledAnswer(requests[keys[0]]), env).s;
      WriteOwn(s, CancelledAnswer(requests[keys[0]]), env);
      AnswerSame(s1, requests, keys[1..], env);
      SameThrough(s, s1, AnswerAll(s1, requests, keys[1..], env), NONE);
    }
  }

  lemma OrphanSame(s: State, orphaned: set<string>)
    ensures Same(s, s.(orphaned := orphaned), NONE)
  {
    hide Traffic, Letters, Farewell;
  }

  lemma SettleSame(s: State, c: Client, env: Env)
    ensures Same(s, Settle(s, c, env).s, NONE)
  {
    hide CloseAll, CancelAll, AnswerAll, Same;
    var s1 := CloseAll(s, Order.SortedKeys(c.openDocuments), env);
    CloseSame(s, Order.SortedKeys(c.openDocuments), env);
    if s1.ok {
      var s2 := CancelAll(s1.s, Order.SortedKeys(c.forwarded), env);
      CancelSame(s1.s, Order.SortedKeys(c.forwarded), env);
      SameThrough(s, s1.s, s2.s, NONE);
      var s3 := AnswerAll(s2.s, c.serverRequests, Order.SortedKeys(c.serverRequests.Keys), env);
      AnswerSame(s2.s, c.serverRequests, Order.SortedKeys(c.serverRequests.Keys), env);
      SameThrough(s, s2.s, s3, NONE);
    }
  }

  lemma ShutdownQuiet(s: State, after: AfterExit, now: nat, env: Env)
    requires !s.lifecycle.Killing?
    ensures Quiet(s, BeginShutdown(s, after, now, env).s, NONE)
  {
    hide WriteUpstream, StartUpstream, Arm, Quiet, Same;
    if s.upstream == None {
      var s0 := s.(lifecycle := if after == Stop then Stopped else Absent);
      LifecycleQuiet(s, s0.lifecycle);
      StartQuiet(s0, false, env);
      QuietThrough(s, s0, StartUpstream(s0, false, env).s, NONE);
    } else {
      var g, w := s.upstream.value.generation, WriteUpstream(s, ShutdownRequest, env).s;
      LifecycleQuiet(s, Killing(g, after));
      LetterSame(s, ShutdownRequest, ForReply, env);
      if env.write(s.attempts) {
        var a := Arm(w, ForReply);
        SameQuiet(s, a, NONE);
        var lc := AwaitingShutdownReply(g, now + UPSTREAM_SHUTDOWN_TIMEOUT, after);
        LifecycleQuiet(a, lc);
        QuietThrough(s, a, a.(lifecycle := lc), NONE);
      } else {
        SameQuiet(s, w, NONE);
        LifecycleQuiet(w, Killing(g, after));
        QuietThrough(s, w, w.(lifecycle := Killing(g, after)), NONE);
      }
    }
  }

  lemma RestartQuiet(s: State, now: nat, env: Env)
    ensures Quiet(s, BeginRestart(s, now, env).s, NONE)
  {
    hide BeginShutdown, StartUpstream, Quiet;
    NothingQuiet(s);
    if !s.lifecycle.Killing? {
      ShutdownQuiet(s, Restart, now, env);
      StartQuiet(s, false, env);
    }
  }

  lemma DropClientQuiet(s: State)
    ensures Quiet(s, DropClient(s), NONE)
  {
    hide Traffic, Letters, Farewell;
  }

  lemma DisconnectQuiet(s: State, now: nat, env: Env)
    ensures Quiet(s, Disconnect(s, now, env).s, NONE)
  {
    hide Settle, BeginRestart, DropClient, Quiet, Same;
    NothingQuiet(s);
    if s.client.Some? {
      var s0 := DropClient(s);
      var s1 := Settle(s0, s.client.value, env).s;
      DropClientQuiet(s);
      SettleSame(s0, s.client.value, env);
      SameQuiet(s0, s1, NONE);
      QuietThrough(s, s0, s1, NONE);
      var s2 := BeginRestart(s1, now, env).s;
      RestartQuiet(s1, now, env);
      QuietThrough(s, s1, s2, NONE);
      MinorQuiet(s1, s1.(idleSince := now));
      QuietThrough(s, s1, s1.(idleSince := now), NONE);
      MinorQuiet(s2, s2.(idleSince := now));
      QuietThrough(s, s2, s2.(idleSince := now), NONE);
    }
  }

  lemma StageQuiet(s: State, now: nat, env: Env)
    ensures Quiet(s, StopStage(s, now, env).s, NONE)
  {
    hide BeginShutdown, Quiet;
    NothingQuiet(s);
    if !s.lifecycle.Killing? { ShutdownQuiet(s, Stop, now, env); }
    if !s.lifecycle.Running? { LifecycleQuiet(s, StopStage(s, now, env).s.lifecycle); }
  }

  lemma StopQuiet(s: State, now: nat, env: Env)
    ensures Quiet(s, BeginStop(s, now, env).s, NONE)
  {
    hide Disconnect, StopStage, Quiet;
    var s0 := s.(stopRequested := true, accepting := false, pending := map[]);
    var s1 := Disconnect(s0, now, env).s;
    MinorQuiet(s, s0);
    DisconnectQuiet(s0, now, env);
    QuietThrough(s, s0, s1, NONE);
    StageQuiet(s1, now, env);
    QuietThrough(s, s1, StopStage(s1, now, env).s, NONE);
  }
}
