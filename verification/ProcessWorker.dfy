/** The thread that owns one server process, and the order of its reports. */
module ProcessWorker {
  import opened Json
  import opened Coordinator

  datatype Command = ForceStop | Disconnected | Empty
  datatype Wait = Running | HasExited | WaitFailed

  /** One turn of the polling loop: the command channel, the process, the cancellation flag. */
  datatype Poll = Poll(command: Command, wait: Wait, cancelled: bool)

  /** What one worker can have reported so far. */
  predicate FromWorker(reports: seq<ProcessEvent>) {
    reports == [] || reports == [StartFailed] || reports == [Exited] || reports == [Started]
      || reports == [Started, Exited]
  }

  /** The turn at which the polling loop ends: with a report of the exit, or silently. */
  function Ending(polls: seq<Poll>): Option<bool> {
    if polls == [] then None
    else
      var p := polls[0];
      if p.command == Command.ForceStop then Some(true)
      else if p.command == Disconnected then Some(false)
      else if p.wait != Wait.Running then Some(true)
      else if p.cancelled then Some(false)
      else Ending(polls[1..])
  }

  class Worker {
    var published: seq<ProcessEvent>
    var reading: bool            // the coordinator still reads this worker's reports

    constructor ()
      ensures published == [] && reading
    {
      published, reading := [], true;
    }

    /** `publish`; once the coordinator has stopped reading it never starts again. */
    method Publish(event: ProcessEvent, accepted: bool) returns (ok: bool)
      modifies this
      ensures ok == (old(reading) && accepted) && reading == ok
      ensures published == if ok then old(published) + [event] else old(published)
    {
      reading := reading && accepted;
      ok := reading;
      if ok { published := published + [event]; }
    }

    /** The body of the thread: whether the process could be spawned and gave its pipes, whether a
        stop was requested by then, and what its polls find. After the last poll it still runs. */
    method Work(spawned: bool, stopped: bool, pipes: bool, polls: seq<Poll>, accepts: nat -> bool)
      requires published == [] && reading
      modifies this
      ensures FromWorker(published)
      ensures published == [StartFailed] <==> accepts(0) && (!spawned || (!stopped && !pipes))
      ensures published == [Exited] <==> accepts(0) && spawned && stopped
      ensures Started in published <==> accepts(0) && spawned && !stopped && pipes
      ensures published == [Started, Exited] <==> Started in published && accepts(1) && Ending(polls) == Some(true)
    {
      if !spawned {
        var _ := Publish(StartFailed, accepts(0));
        return;
      }
      if stopped {
        var _ := Publish(Exited, accepts(0));
        return;
      }
      if !pipes {
        var _ := Publish(StartFailed, accepts(0));
        return;
      }
      var ok := Publish(Started, accepts(0));
      if !ok { return; }
      for k := 0 to |polls|
        invariant published == [Started] && reading
        invariant Ending(polls[k..]) == Ending(polls)
      {
        var p := polls[k];
        if p.command == Command.ForceStop {
          ok := Publish(Exited, accepts(1));
          return;
        }
        if p.command == Disconnected { return; }
        if p.wait != Wait.Running {
          ok := Publish(Exited, accepts(1));
          return;
        }
        if p.cancelled { return; }
      }
    }
  }

  // ----- several workers

  /** The reports of one worker in a sequence of reports. */
  function Only(trace: seq<(nat, ProcessEvent)>, g: nat): seq<ProcessEvent> {
    if trace == [] then []
    else Only(trace[..|trace| - 1], g) + if trace[|trace| - 1].0 == g then [trace[|trace| - 1].1] else []
  }

  /** A report of a start is the first of its worker. */
  predicate StartsFirst(trace: seq<(nat, ProcessEvent)>) {
    forall i, j | 0 <= i < j < |trace| && trace[i].0 == trace[j].0 :: trace[j].1.Exited?
  }

  lemma {:induction false} OnlyHas(trace: seq<(nat, ProcessEvent)>, i: nat)
    requires i < |trace|
    ensures Only(trace, trace[i].0) != []
  {
    if i < |trace| - 1 {
      var front := trace[..|trace| - 1];
      assert front[i] == trace[i];
      OnlyHas(front, i);
    }
  }

  lemma FromWorkerFront(reports: seq<ProcessEvent>)
    requires reports != [] && FromWorker(reports)
    ensures FromWorker(reports[..|reports| - 1])
    ensures |reports| > 1 ==> reports[|reports| - 1].Exited?
  {
    if reports == [Started, Exited] { assert reports[..1] == [Started]; }
  }

  /** However the reports of several workers are interleaved, each start is the first report of
      its worker. */
  lemma {:induction false} WorkersStartFirst(trace: seq<(nat, ProcessEvent)>)
    requires forall g :: FromWorker(Only(trace, g))
    ensures StartsFirst(trace)
  {
    hide FromWorker;
    if trace != [] {
      var front, last := trace[..|trace| - 1], trace[|trace| - 1];
      forall g ensures FromWorker(Only(front, g)) {
        assert FromWorker(Only(trace, g));
        if g == last.0 {
          assert Only(trace, g)[..|Only(trace, g)| - 1] == Only(front, g);
          FromWorkerFront(Only(trace, g));
        } else {
          assert Only(trace, g) == Only(front, g);
        }
      }
      WorkersStartFirst(front);
      forall i | 0 <= i < |front| && trace[i].0 == last.0 ensures last.1.Exited? {
        assert front[i] == trace[i];
        OnlyHas(front, i);
        assert FromWorker(Only(trace, last.0)) && Only(trace, last.0) == Only(front, last.0) + [last.1];
        FromWorkerFront(Only(trace, last.0));
        assert Only(trace, last.0)[|Only(front, last.0)|] == last.1;
      }
      forall i, j | 0 <= i < j < |trace| && trace[i].0 == trace[j].0 ensures trace[j].1.Exited? {
        if j < |front| { assert front[i] == trace[i] && front[j] == trace[j]; }
      }
    }
  }
}
