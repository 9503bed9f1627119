/** The assumption under which runs are considered, from the order in which workers report. */
module WorkerOrder {
  import opened Json
  import opened Coordinator
  import opened Frames
  import opened Turns
  import opened Streams
  import opened LifecycleProofs
  import opened LoopProofs
  import opened ProcessWorker

  // ----- runs

  /** The reports of a run in the order in which they are handled. */
  function Reported(turns: seq<Turn>): seq<(nat, ProcessEvent)> {
    if turns == [] then []
    else AsReport(turns[0]) + Reported(turns[1..])
  }

  function AsReport(turn: Turn): seq<(nat, ProcessEvent)> {
    if turn.event.Some? && turn.event.value.Process? then [(turn.event.value.generation, turn.event.value.event)]
      else []
  }

  function AtBoot(reports: seq<Report>): seq<(nat, ProcessEvent)> {
    if reports == [] then [] else [(reports[0].generation, reports[0].event)] + AtBoot(reports[1..])
  }

  predicate Seen(trace: seq<(nat, ProcessEvent)>, g: nat) { exists i | 0 <= i < |trace| :: trace[i].0 == g }

  /** An announced process has been heard of. */
  predicate Noted(s: State, trace: seq<(nat, ProcessEvent)>) {
    s.past.announced && s.process.Some? ==> Seen(trace, s.process.value)
  }

  lemma SeenMore(a: seq<(nat, ProcessEvent)>, b: seq<(nat, ProcessEvent)>, g: nat)
    requires Seen(a, g)
    ensures Seen(a + b, g)
  {
    var i :| 0 <= i < |a| && a[i].0 == g;
    assert (a + b)[i].0 == g;
  }

  lemma SeenLast(a: seq<(nat, ProcessEvent)>, x: (nat, ProcessEvent))
    ensures Seen(a + [x], x.0)
  {
    assert (a + [x])[|a|].0 == x.0;
  }

  lemma NotedQuiet(s: State, s': State, a: seq<(nat, ProcessEvent)>, b: seq<(nat, ProcessEvent)>)
    requires Noted(s, a) && Calm(s, s')
    ensures Noted(s', a + b)
  {
    hide Seen;
    if s'.past.announced && s'.process.Some? { SeenMore(a, b, s'.process.value); }
  }

  lemma CalmSelf(s: State)
    ensures Calm(s, s)
  {
  }

  /** One event: it is admissible, and afterwards an announced process has been heard of. */
  lemma EventHeard(s: State, event: Event, now: nat, env: Env, a: seq<(nat, ProcessEvent)>, b: seq<(nat, ProcessEvent)>)
    requires Noted(s, a)
    requires event.Process? ==> b == [(event.generation, event.event)] && StartsFirst(a + b)
    ensures Admissible(s, event)
    ensures Noted(Dispatch(s, event, now, env).s, a + b)
  {
    hide Dispatch, Seen;
    var s' := Dispatch(s, event, now, env).s;
    DispatchCalm(s, event, now, env);
    if event.Process? {
      SeenLast(a, b[0]);
      if Seen(a, event.generation) { NotFirst(a, b[0]); }
    }
    if Calm(s, s') { NotedQuiet(s, s', a, b); }
  }

  lemma NotFirst(a: seq<(nat, ProcessEvent)>, x: (nat, ProcessEvent))
    requires StartsFirst(a + [x]) && Seen(a, x.0)
    ensures x.1.Exited?
  {
    var i :| 0 <= i < |a| && a[i].0 == x.0;
    assert (a + [x])[i].0 == (a + [x])[|a|].0;
  }

  lemma StartsPrefix(a: seq<(nat, ProcessEvent)>, b: seq<(nat, ProcessEvent)>)
    requires StartsFirst(a + b)
    ensures StartsFirst(a)
  {
    forall i, j | 0 <= i < j < |a| && a[i].0 == a[j].0 ensures a[j].1.Exited? {
      assert (a + b)[i] == a[i] && (a + b)[j] == a[j];
    }
  }

  lemma {:induction false} TurnsHeard(s: State, turns: seq<Turn>, env: Env, a: seq<(nat, ProcessEvent)>)
    requires Noted(s, a) && StartsFirst(a + Reported(turns))
    ensures AdmissibleTurns(s, turns, env)
    decreases |turns|
  {
    hide Noted, StartsFirst, Dispatch, Prologue, BeginStop, Admissible, Calm, Reported, AsReport;
    if turns != [] && !s.lifecycle.Stopped? {
      var turn, b := turns[0], AsReport(turns[0]);
      ReportedStep(turns);
      assert a + (b + Reported(turns[1..])) == (a + b) + Reported(turns[1..]);
      StartsPrefix(a + b, Reported(turns[1..]));
      TurnHeard(s, turn, env, a);
      if ServeTurn(s, turn, env).ok { TurnsHeard(ServeTurn(s, turn, env).s, turns[1..], env, a + b); }
    }
  }

  lemma ReportedStep(turns: seq<Turn>)
    requires turns != []
    ensures Reported(turns) == AsReport(turns[0]) + Reported(turns[1..])
  {
  }

  lemma TurnHeard(s: State, turn: Turn, env: Env, a: seq<(nat, ProcessEvent)>)
    requires Noted(s, a) && StartsFirst(a + AsReport(turn))
    ensures AdmissibleTurn(s, turn, env)
    ensures Noted(ServeTurn(s, turn, env).s, a + AsReport(turn))
  {
    hide Noted, StartsFirst, Dispatch, Prologue, BeginStop, Admissible, Calm;
    var b, r := AsReport(turn), Prologue(s, turn.now, turn.stalled, env);
    PrologueQuiet(s, turn.now, turn.stalled, env);
    NotedQuiet(s, r.s, a, []);
    assert a + [] == a;
    NotedQuiet(s, r.s, a, b);
    StopQuiet(r.s, turn.later, env);
    NotedQuiet(r.s, BeginStop(r.s, turn.later, env).s, a, b);
    if turn.event.Some? { EventHeard(r.s, turn.event.value, turn.later, env, a, b); }
  }

  lemma {:induction false} BootHeard(s: State, reports: seq<Report>, env: Env, a: seq<(nat, ProcessEvent)>)
    requires Noted(s, a) && StartsFirst(a + AtBoot(reports))
    ensures AdmissibleReports(s, reports, env)
    ensures Noted(AwaitInitial(s, reports, env).s, a + AtBoot(reports))
    decreases |reports|
  {
    hide Noted, StartsFirst, Dispatch, Admissible, Calm;
    if s.lifecycle.Running? || reports == [] {
      NotedQuiet(s, s, a, AtBoot(reports)) by { CalmSelf(s); }
    } else {
      var event, b := Process(reports[0].generation, reports[0].event), [(reports[0].generation, reports[0].event)];
      assert a + AtBoot(reports) == (a + b) + AtBoot(reports[1..]);
      StartsPrefix(a + b, AtBoot(reports[1..]));
      EventHeard(s, event, reports[0].now, env, a, b);
      var r := Dispatch(s, event, reports[0].now, env);
      if r.ok { BootHeard(r.s, reports[1..], env, a + b); }
      else { CalmSelf(r.s); NotedQuiet(r.s, r.s, a + b, AtBoot(reports[1..])); }
    }
  }

  /** If the reports of a run come from process workers, in any interleaving, the run is one of
      those for which the guarantees of the coordinator are proved. */
  lemma WorkersAreAdmissible(now: nat, reports: seq<Report>, turns: seq<Turn>, env: Env)
    requires forall g :: FromWorker(Only(AtBoot(reports) + Reported(turns), g))
    ensures AdmissibleRun(now, reports, turns, env)
  {
    hide FromWorker, Only, StartsFirst, StartUpstream, AwaitInitial, AdmissibleReports, AdmissibleTurns, Noted, Calm;
    var trace := AtBoot(reports) + Reported(turns);
    WorkersStartFirst(trace);
    StartsPrefix(AtBoot(reports), Reported(turns));
    var s0 := StartUpstream(NewDaemon(now), true, env);
    NothingHeard(now, env);
    assert [] + AtBoot(reports) == AtBoot(reports);
    BootHeard(s0.s, reports, env, []);
    if s0.ok {
      var s1 := AwaitInitial(s0.s, reports, env);
      if s1.ok {
        HeardAccepting(s1.s, AtBoot(reports));
        TurnsHeard(s1.s.(accepting := true), turns, env, AtBoot(reports));
      }
    }
  }

  lemma NothingHeard(now: nat, env: Env)
    ensures Noted(StartUpstream(NewDaemon(now), true, env).s, [])
  {
  }

  lemma HeardAccepting(s: State, a: seq<(nat, ProcessEvent)>)
    requires Noted(s, a)
    ensures Noted(s.(accepting := true), a)
  {
  }
}
