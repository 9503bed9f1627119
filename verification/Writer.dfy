/** The output queue of one connection: a coordinator that enqueues frames, a thread that writes
    them, and two shared counters, under every interleaving of their atomic steps. */
module Writer {
  import opened Json

  const MESSAGE_LIMIT: nat := 64
  const BYTE_LIMIT: nat := 8 * 1024 * 1024

  datatype Frame = Frame(id: nat, size: nat)

  /** Where the coordinator is: in the middle of `enqueue`, of its rollback, or of `refresh_flag`,
      with the values it has loaded so far. */
  datatype Coordinator =
    | Idle
    | LoadedMessages(size: nat, messages: nat)
    | Loaded(size: nat, messages: nat, bytes: nat)
    | Numbered(size: nat, messages: nat, bytes: nat, id: nat)
    | Counted(size: nat, messages: nat, bytes: nat, id: nat)
    | Sized(size: nat, messages: nat, bytes: nat, id: nat)
    | Sent(messages: nat, bytes: nat)
    | Unsent(size: nat)
    | Uncounted(size: nat)
    | Refreshing(now: nat)
    | Observing(now: nat, messages: nat)

  /** Where the writer thread is with the frame it has taken from the queue. */
  datatype Worker =
    | Waiting
    | Writing(frame: Frame)
    | Written(frame: Frame, ok: bool)
    | Discounted(frame: Frame, ok: bool)
    | Done(frame: Frame, ok: bool)
    | Ended

  datatype Published = Published(id: nat, ok: bool, at: nat)

  /** A completed refresh: when it looked, and whether it saw both values below their limits. */
  datatype Check = Check(at: nat, below: bool)

  datatype State = State(
    messages: int,
    bytes: int,
    queue: seq<Frame>,
    coordinator: Coordinator,
    worker: Worker,
    nextId: nat,
    flaggedSince: Option<nat>,
    closed: bool,
    cancelled: bool,
    clock: nat,
    accepted: seq<nat>,          // history: the frames handed to the thread
    events: seq<Published>,      // history: what the thread has published
    checks: seq<Check>,          // history: the refreshes
    armed: nat)                  // history: how often a refresh set the flag

  datatype Step =
    | Tick
    | Enqueue(size: nat)
    | Refresh(now: nat)
    | Advance                    // the next atomic step of the coordinator
    | Work(ok: bool)             // the next atomic step of the thread; `ok` says how a write ends
    | Cancel

  function Start(clock: nat): State {
    State(0, 0, [], Idle, Waiting, 0, None, false, false, clock, [], [], [], 0)
  }

  predicate AtLimit(messages: int, bytes: int) { messages >= MESSAGE_LIMIT || bytes >= BYTE_LIMIT }

  function Sending(s: State): State
    requires s.coordinator.Sized?
  {
    var c := s.coordinator;
    if s.closed || s.worker == Ended then s.(coordinator := Unsent(c.size))
    else
      s.(queue := s.queue + [Frame(c.id, c.size)], coordinator := Sent(c.messages, c.bytes),
         accepted := s.accepted + [c.id])
  }

  function Observed(s: State): State
    requires s.coordinator.Observing?
  {
    var c := s.coordinator;
    var below := c.messages < MESSAGE_LIMIT && s.bytes < BYTE_LIMIT;
    var s' := s.(coordinator := Idle, checks := s.checks + [Check(s.clock, below)]);
    if below then s'.(flaggedSince := None)
    else if s.flaggedSince == None then s'.(flaggedSince := Some(c.now), armed := s.armed + 1)
    else s'
  }

  /** The next step of `enqueue`, `rollback` or `refresh_flag`. A load is a step of its own, so
      the thread may run between any two of them. */
  function Coordinate(s: State): State {
    match s.coordinator
    case Idle => s
    case LoadedMessages(n, m) => s.(coordinator := Loaded(n, m, (if s.bytes > 0 then s.bytes else 0) + n))
    case Loaded(n, m, b) => s.(coordinator := Numbered(n, m, b, s.nextId + 1), nextId := s.nextId + 1)
    case Numbered(n, m, b, id) => s.(coordinator := Counted(n, m, b, id), messages := s.messages + 1)
    case Counted(n, m, b, id) => s.(coordinator := Sized(n, m, b, id), bytes := s.bytes + n)
    case Sized(_, _, _, _) => Sending(s)
    case Sent(m, b) =>
      s.(coordinator := Idle,
         flaggedSince := if AtLimit(m, b) && s.flaggedSince == None then Some(s.clock) else s.flaggedSince)
    case Unsent(n) => s.(coordinator := Uncounted(n), messages := s.messages - 1)
    case Uncounted(n) => s.(coordinator := Idle, bytes := s.bytes - n)
    case Refreshing(now) => s.(coordinator := Observing(now, if s.messages > 0 then s.messages else 0))
    case Observing(_, _) => Observed(s)
  }

  /** The thread: take a frame, write it, discount it, publish the outcome; it ends after a
      failure, when it is cancelled, or when the queue is closed and empty. */
  function Operate(s: State, ok: bool): State {
    match s.worker
    case Waiting =>
      if s.queue != [] then s.(queue := s.queue[1..], worker := Writing(s.queue[0]))
      else if s.closed then s.(worker := Ended)
      else s
    case Writing(f) => s.(worker := Written(f, ok))
    case Written(f, r) => s.(worker := Discounted(f, r), messages := s.messages - 1)
    case Discounted(f, r) => s.(worker := Done(f, r), bytes := s.bytes - f.size)
    case Done(f, r) =>
      if s.cancelled then s.(worker := Ended)
      else s.(worker := if r then Waiting else Ended, events := s.events + [Published(f.id, r, s.clock)])
    case Ended => s
  }

  /** One atomic step; a step that is not possible changes nothing. */
  function Next(s: State, step: Step): State {
    match step
    case Tick => s.(clock := s.clock + 1)
    case Enqueue(n) =>
      if s.coordinator == Idle then s.(coordinator := LoadedMessages(n, (if s.messages > 0 then s.messages else 0) + 1))
        else s
    case Refresh(now) => if s.coordinator == Idle && now <= s.clock then s.(coordinator := Refreshing(now)) else s
    case Advance => Coordinate(s)
    case Work(ok) => Operate(s, ok)
    case Cancel => if s.coordinator == Idle then s.(cancelled := true, closed := true) else s
  }

  function Run(s: State, steps: seq<Step>): State {
    if steps == [] then s else Next(Run(s, steps[..|steps| - 1]), steps[|steps| - 1])
  }

  // ----- counters

  function Total(queue: seq<Frame>): nat {
    if queue == [] then 0 else Total(queue[..|queue| - 1]) + queue[|queue| - 1].size
  }

  lemma {:induction false} TotalTail(queue: seq<Frame>)
    requires queue != []
    ensures Total(queue) == queue[0].size + Total(queue[1..])
  {
    if |queue| > 1 {
      var front := queue[..|queue| - 1];
      TotalTail(front);
      assert front[1..] == queue[1..][..|queue| - 2];
    } else {
      assert queue[..0] == [] && queue[1..] == [];
    }
  }

  lemma Total1(queue: seq<Frame>, f: Frame)
    ensures Total(queue + [f]) == Total(queue) + f.size
  {
    assert (queue + [f])[..|queue|] == queue;
  }

  /** What `enqueue` has counted but not yet handed over. */
  function AddedMessages(c: Coordinator): nat { if c.Counted? || c.Sized? || c.Unsent? then 1 else 0 }

  function AddedBytes(c: Coordinator): nat { if c.Sized? || c.Unsent? || c.Uncounted? then c.size else 0 }

  /** What the thread has taken but not yet discounted. */
  function HeldMessages(w: Worker): nat { if w.Writing? || w.Written? then 1 else 0 }

  function HeldBytes(w: Worker): nat { if w.Writing? || w.Written? || w.Discounted? then w.frame.size else 0 }

  /** The counters are exactly what is queued, in flight, or being enqueued. */
  predicate Counters(s: State) {
    && s.messages == |s.queue| + AddedMessages(s.coordinator) + HeldMessages(s.worker)
    && s.bytes == Total(s.queue) + AddedBytes(s.coordinator) + HeldBytes(s.worker)
  }

  // ----- identifiers

  predicate Increasing(ids: seq<nat>) { forall i, j | 0 <= i < j < |ids| :: ids[i] < ids[j] }

  function QueueIds(queue: seq<Frame>): (r: seq<nat>)
    ensures |r| == |queue| && forall k | 0 <= k < |queue| :: r[k] == queue[k].id
  {
    if queue == [] then [] else QueueIds(queue[..|queue| - 1]) + [queue[|queue| - 1].id]
  }

  function EventIds(events: seq<Published>): (r: seq<nat>)
    ensures |r| == |events| && forall k | 0 <= k < |events| :: r[k] == events[k].id
  {
    if events == [] then [] else EventIds(events[..|events| - 1]) + [events[|events| - 1].id]
  }

  function HeldIds(w: Worker): seq<nat> {
    if w.Writing? || w.Written? || w.Discounted? || w.Done? then [w.frame.id] else []
  }

  function NewIds(c: Coordinator): seq<nat> {
    if c.Numbered? || c.Counted? || c.Sized? then [c.id] else []
  }

  /** All identifiers on their way, from the published ones to the newest. */
  function AllIds(s: State): seq<nat> {
    EventIds(s.events) + HeldIds(s.worker) + QueueIds(s.queue) + NewIds(s.coordinator)
  }

  /** Identifiers in ascending order, none above the last one given out. */
  predicate Below(ids: seq<nat>, limit: nat) {
    Increasing(ids) && forall n | n in ids :: n <= limit
  }

  /** Every frame handed to the thread is published, in its hands, or queued, once and in order;
      unless the connection was cancelled, which ends the thread with a frame in its hands. A
      failed write is the last one published. */
  predicate Fifo(s: State) {
    && (!s.cancelled ==> EventIds(s.events) + HeldIds(s.worker) + QueueIds(s.queue) == s.accepted)
    && (s.worker != Ended ==> forall k | 0 <= k < |s.events| :: s.events[k].ok)
    && (s.cancelled ==> s.closed)
    && (s.worker.Ended? && !s.closed ==> s.events != [] && !s.events[|s.events| - 1].ok)
    && (forall k | 0 <= k < |s.events| - 1 :: s.events[k].ok)
  }

  // ----- the flag

  /** A value loaded by `enqueue` is at least what the counter holds at that point, because only
      the thread changes it in between. */
  predicate Bounds(s: State) {
    match s.coordinator
    case LoadedMessages(n, m) => s.messages + 1 <= m
    case Loaded(n, m, b) => s.messages + 1 <= m && s.bytes + n <= b
    case Numbered(n, m, b, _) => s.messages + 1 <= m && s.bytes + n <= b
    case Counted(n, m, b, _) => s.messages <= m && s.bytes + n <= b
    case Sized(n, m, b, _) => s.messages <= m && s.bytes <= b
    case Sent(m, b) => s.messages <= m && s.bytes <= b
    case Observing(_, m) => s.messages <= m && (m >= MESSAGE_LIMIT ==> s.flaggedSince.Some?)
    case _ => true
  }

  /** The counters as they were before the enqueue under way. */
  predicate Backlog(s: State) {
    AtLimit(s.messages - AddedMessages(s.coordinator), s.bytes - AddedBytes(s.coordinator))
  }

  /** Whenever the backlog is at its limit the flag is set, except while the enqueue that brought
      it there is about to set it. */
  predicate Flagged(s: State) {
    Backlog(s) && !s.coordinator.Sent? ==> s.flaggedSince.Some?
  }

  /** The flag was set no earlier than every refresh that saw both values below their limits. */
  predicate Dated(s: State) {
    && (s.flaggedSince.Some? ==> s.flaggedSince.value <= s.clock)
    && (forall k | 0 <= k < |s.checks| :: s.checks[k].at <= s.clock)
    && (s.flaggedSince.Some? ==> forall k | 0 <= k < |s.checks| && s.checks[k].below ::
        s.checks[k].at <= s.flaggedSince.value)
  }

  // ----- every step keeps them

  lemma CountersAdvance(s: State)
    requires Counters(s)
    ensures Counters(Coordinate(s))
  {
    hide Total;
    if s.coordinator.Sized? { Total1(s.queue, Frame(s.coordinator.id, s.coordinator.size)); }
  }

  lemma CountersWork(s: State, ok: bool)
    requires Counters(s)
    ensures Counters(Operate(s, ok))
  {
    hide Total;
    if s.worker.Waiting? && s.queue != [] { TotalTail(s.queue); }
  }

  lemma CountersStep(s: State, step: Step)
    requires Counters(s)
    ensures Counters(Next(s, step))
  {
    hide Total, Coordinate, Operate;
    match step
    case Advance => CountersAdvance(s);
    case Work(ok) => CountersWork(s, ok);
    case _ =>
  }

  lemma Ids1(queue: seq<Frame>, f: Frame)
    ensures QueueIds(queue + [f]) == QueueIds(queue) + [f.id]
  {
    assert (queue + [f])[..|queue|] == queue;
  }

  lemma IdsTail(queue: seq<Frame>)
    requires queue != []
    ensures QueueIds(queue) == [queue[0].id] + QueueIds(queue[1..])
  {
  }

  lemma Events1(events: seq<Published>, e: Published)
    ensures EventIds(events + [e]) == EventIds(events) + [e.id]
  {
    assert (events + [e])[..|events|] == events;
  }

  lemma Without(a: seq<nat>, x: nat, b: seq<nat>)
    requires Increasing(a + [x] + b)
    ensures Increasing(a + b)
    ensures forall n | n in a + b :: n in a + [x] + b
  {
    var whole, part := a + [x] + b, a + b;
    assert forall i | 0 <= i < |part| :: part[i] == whole[if i < |a| then i else i + 1];
  }

  lemma Appended(a: seq<nat>, x: nat)
    requires Increasing(a) && forall k | 0 <= k < |a| :: a[k] < x
    ensures Increasing(a + [x])
  {
  }

  lemma BelowWithout(a: seq<nat>, x: nat, b: seq<nat>, limit: nat)
    requires Below(a + [x] + b, limit)
    ensures Below(a + b, limit)
  {
    Without(a, x, b);
  }

  lemma NumberingAdvance(s: State)
    requires Below(AllIds(s), s.nextId)
    ensures Below(AllIds(Coordinate(s)), Coordinate(s).nextId)
  {
    hide EventIds, QueueIds, HeldIds, Below;
    var c, s' := s.coordinator, Coordinate(s);
    var front := EventIds(s.events) + HeldIds(s.worker) + QueueIds(s.queue);
    if c.Loaded? {
      assert AllIds(s) == front;
      OneMore(front, s.nextId);
      assert AllIds(s') == front + [s.nextId + 1];
    } else if c.Sized? {
      if s'.coordinator.Sent? {
        Ids1(s.queue, Frame(c.id, c.size));
        assert AllIds(s') == AllIds(s);
      } else {
        assert front + [c.id] + [] == AllIds(s) && front + [] == AllIds(s');
        BelowWithout(front, c.id, [], s.nextId);
      }
    }
  }

  lemma OneMore(ids: seq<nat>, limit: nat)
    requires Below(ids, limit)
    ensures Below(ids + [limit + 1], limit + 1)
  {
    forall k | 0 <= k < |ids| ensures ids[k] < limit + 1 { assert ids[k] in ids; }
    Appended(ids, limit + 1);
  }

  lemma NumberingWork(s: State, ok: bool)
    requires Below(AllIds(s), s.nextId)
    ensures Below(AllIds(Operate(s, ok)), Operate(s, ok).nextId)
  {
    hide EventIds, QueueIds, Below;
    var w, s' := s.worker, Operate(s, ok);
    var news := QueueIds(s.queue) + NewIds(s.coordinator);
    if w.Waiting? && s.queue != [] {
      IdsTail(s.queue);
      assert AllIds(s') == AllIds(s);
    } else if w.Done? {
      if s.cancelled {
        assert AllIds(s) == EventIds(s.events) + [w.frame.id] + news;
        assert AllIds(s') == EventIds(s.events) + news;
        BelowWithout(EventIds(s.events), w.frame.id, news, s.nextId);
      } else {
        Events1(s.events, Published(w.frame.id, w.ok, s.clock));
        assert AllIds(s') == AllIds(s);
      }
    }
  }

  lemma NumberingStep(s: State, step: Step)
    requires Below(AllIds(s), s.nextId)
    ensures Below(AllIds(Next(s, step)), Next(s, step).nextId)
  {
    hide Below, EventIds, QueueIds, HeldIds, Coordinate, Operate;
    match step
    case Advance => NumberingAdvance(s);
    case Work(ok) => NumberingWork(s, ok);
    case _ =>
  }

  lemma FifoAdvance(s: State)
    requires Fifo(s)
    ensures Fifo(Coordinate(s))
  {
    hide EventIds, QueueIds, HeldIds;
    if s.coordinator.Sized? {
      Ids1(s.queue, Frame(s.coordinator.id, s.coordinator.size));
      var s' := Coordinate(s);
      var front := EventIds(s.events) + HeldIds(s.worker);
      assert front + QueueIds(s.queue) + [s.coordinator.id] == front + (QueueIds(s.queue) + [s.coordinator.id]);
    }
  }

  lemma FifoWork(s: State, ok: bool)
    requires Fifo(s)
    ensures Fifo(Operate(s, ok))
  {
    hide EventIds, QueueIds;
    if s.worker.Waiting? && s.queue != [] { IdsTail(s.queue); }
    if s.worker.Done? && !s.cancelled { Events1(s.events, Published(s.worker.frame.id, s.worker.ok, s.clock)); }
  }

  lemma FifoStep(s: State, step: Step)
    requires Fifo(s)
    ensures Fifo(Next(s, step))
  {
    hide EventIds, QueueIds, HeldIds, Coordinate, Operate;
    match step
    case Advance => FifoAdvance(s);
    case Work(ok) => FifoWork(s, ok);
    case _ =>
  }

  lemma BoundsAdvance(s: State)
    requires Counters(s) && Bounds(s) && Flagged(s)
    ensures Bounds(Coordinate(s))
  {
    hide Total;
  }

  lemma BoundsWork(s: State, ok: bool)
    requires Counters(s) && Bounds(s) && Flagged(s)
    ensures Bounds(Operate(s, ok))
  {
    hide Total;
  }

  lemma BoundsStep(s: State, step: Step)
    requires Counters(s) && Bounds(s) && Flagged(s)
    ensures Bounds(Next(s, step))
  {
    hide Total, Coordinate, Operate;
    match step
    case Advance => BoundsAdvance(s);
    case Work(ok) => BoundsWork(s, ok);
    case _ =>
  }

  lemma FlaggedAdvance(s: State)
    requires Counters(s) && Bounds(s) && Flagged(s)
    ensures Flagged(Coordinate(s))
  {
    hide Total;
  }

  lemma FlaggedWork(s: State, ok: bool)
    requires Counters(s) && Bounds(s) && Flagged(s)
    ensures Flagged(Operate(s, ok))
  {
    hide Total;
  }

  lemma FlaggedStep(s: State, step: Step)
    requires Counters(s) && Bounds(s) && Flagged(s)
    ensures Flagged(Next(s, step))
  {
    hide Total, Coordinate, Operate;
    match step
    case Advance => FlaggedAdvance(s);
    case Work(ok) => FlaggedWork(s, ok);
    case _ =>
  }

  lemma DatedAdvance(s: State)
    requires Counters(s) && Bounds(s) && Flagged(s) && Dated(s) && s.armed == 0
    ensures Dated(Coordinate(s)) && Coordinate(s).armed == 0
  {
    hide Total;
  }

  lemma DatedWork(s: State, ok: bool)
    requires Counters(s) && Bounds(s) && Flagged(s) && Dated(s) && s.armed == 0
    ensures Dated(Operate(s, ok)) && Operate(s, ok).armed == 0
  {
    hide Total;
  }

  lemma DatedStep(s: State, step: Step)
    requires Counters(s) && Bounds(s) && Flagged(s) && Dated(s) && s.armed == 0
    ensures Dated(Next(s, step)) && Next(s, step).armed == 0
  {
    hide Total, Coordinate, Operate;
    match step
    case Advance => DatedAdvance(s);
    case Work(ok) => DatedWork(s, ok);
    case _ =>
  }

  predicate Invariant(s: State) {
    Counters(s) && Below(AllIds(s), s.nextId) && Fifo(s) && Bounds(s) && Flagged(s) && Dated(s) && s.armed == 0
  }

  lemma {:induction false} RunKeeps(clock: nat, steps: seq<Step>)
    ensures Invariant(Run(Start(clock), steps))
  {
    hide Next, Counters, Below, Fifo, Bounds, Flagged, Dated, AllIds;
    if steps == [] {
      StartKeeps(clock);
    } else {
      var s, step := Run(Start(clock), steps[..|steps| - 1]), steps[|steps| - 1];
      RunKeeps(clock, steps[..|steps| - 1]);
      CountersStep(s, step);
      NumberingStep(s, step);
      FifoStep(s, step);
      BoundsStep(s, step);
      FlaggedStep(s, step);
      DatedStep(s, step);
    }
  }

  lemma StartKeeps(clock: nat)
    ensures Invariant(Start(clock))
  {
  }

  // ----- what holds in every run

  /** The counters never go below zero, and between two calls they are the frames and bytes that
      are queued or in flight. */
  lemma CountersExact(clock: nat, steps: seq<Step>)
    ensures var s := Run(Start(clock), steps);
            && s.messages >= 0 && s.bytes >= 0
            && (s.coordinator == Idle ==>
                  && s.messages == |s.queue| + HeldMessages(s.worker)
                  && s.bytes == Total(s.queue) + HeldBytes(s.worker))
  {
    hide Run, Below, Fifo, Bounds, Flagged, Dated, AllIds, Total;
    RunKeeps(clock, steps);
  }

  /** Outcomes are published in strictly increasing order of the identifiers that `enqueue`
      returned. */
  lemma OutcomesInOrder(clock: nat, steps: seq<Step>, i: nat, j: nat)
    requires i < j < |Run(Start(clock), steps).events|
    ensures var s := Run(Start(clock), steps);
            s.events[i].id < s.events[j].id <= s.nextId
  {
    hide Run, Counters, Fifo, Bounds, Flagged, Dated;
    RunKeeps(clock, steps);
    var s := Run(Start(clock), steps);
    assert AllIds(s)[i] == s.events[i].id && AllIds(s)[j] == s.events[j].id;
    assert AllIds(s)[j] in AllIds(s);
  }

  /** Between two calls a backlog at either limit is flagged, so `refresh_flag` never has to set
      the flag itself. */
  lemma BacklogFlagged(clock: nat, steps: seq<Step>)
    ensures var s := Run(Start(clock), steps);
            && (s.coordinator == Idle && AtLimit(s.messages, s.bytes) ==> s.flaggedSince.Some?)
            && s.armed == 0
  {
    hide Run, Counters, Bounds, Below, Fifo, Dated;
    RunKeeps(clock, steps);
  }

  /** `timed_out`, once the refresh is done. */
  predicate TimedOut(s: State, now: nat, timeout: nat) {
    s.flaggedSince.Some? && now >= s.flaggedSince.value + timeout
  }

  /** It never fires on a stall shorter than the timeout: every refresh of the last `timeout` saw
      one of the values at its limit. */
  lemma StallIsLong(clock: nat, steps: seq<Step>, now: nat, timeout: nat, k: nat)
    requires var s := Run(Start(clock), steps);
             TimedOut(s, now, timeout) && k < |s.checks| && s.checks[k].at + timeout > now
    ensures !Run(Start(clock), steps).checks[k].below
  {
    hide Run, Counters, Bounds, Below, Fifo, Flagged;
    RunKeeps(clock, steps);
  }

  /** It does fire on a stall that lasts: from a backlog at a limit on, as long as no refresh sees both
      values below their limits, the flag keeps a time that is no later than the backlog. */
  lemma {:induction false} StallIsReported(clock: nat, steps: seq<Step>, t: nat, now: nat, timeout: nat)
    requires t <= |steps|
    requires var start, s := Run(Start(clock), steps[..t]), Run(Start(clock), steps);
             && start.coordinator == Idle && AtLimit(start.messages, start.bytes)
             && (forall k | |start.checks| <= k < |s.checks| :: !s.checks[k].below)
             && now >= start.clock + timeout
    ensures TimedOut(Run(Start(clock), steps), now, timeout)
    decreases |steps|
  {
    hide Run, Next, Counters, Bounds, Below, Fifo, Flagged, Dated;
    var start, s := Run(Start(clock), steps[..t]), Run(Start(clock), steps);
    if t == |steps| {
      assert steps[..t] == steps;
      RunKeeps(clock, steps);
      FlaggedInTime(s);
    } else {
      var front, step := steps[..|steps| - 1], steps[|steps| - 1];
      RunStep(Start(clock), steps);
      assert front[..t] == steps[..t];
      ChecksGrow(Run(Start(clock), front), step);
      ChecksKept(clock, front, t);
      StallIsReported(clock, front, t, now, timeout);
      FlagStands(Run(Start(clock), front), step);
    }
  }

  lemma RunStep(s: State, steps: seq<Step>)
    requires steps != []
    ensures Run(s, steps) == Next(Run(s, steps[..|steps| - 1]), steps[|steps| - 1])
  {
  }

  lemma FlaggedInTime(s: State)
    requires s.coordinator == Idle && AtLimit(s.messages, s.bytes) && Flagged(s) && Dated(s)
    ensures s.flaggedSince.Some? && s.flaggedSince.value <= s.clock
  {
  }

  lemma ChecksGrow(s: State, step: Step)
    ensures s.checks <= Next(s, step).checks
  {
  }

  lemma {:induction false} ChecksKept(clock: nat, steps: seq<Step>, t: nat)
    requires t <= |steps|
    ensures Run(Start(clock), steps[..t]).checks <= Run(Start(clock), steps).checks
    decreases |steps|
  {
    hide Run, Next;
    if t == |steps| {
      assert steps[..t] == steps;
    } else {
      var front := steps[..|steps| - 1];
      RunStep(Start(clock), steps);
      assert front[..t] == steps[..t];
      ChecksKept(clock, front, t);
      ChecksGrow(Run(Start(clock), front), steps[|steps| - 1]);
    }
  }

  /** The flag keeps its time until a refresh sees both values below their limits. */
  lemma FlagStands(s: State, step: Step)
    requires s.flaggedSince.Some?
    requires forall k | |s.checks| <= k < |Next(s, step).checks| :: !Next(s, step).checks[k].below
    ensures Next(s, step).flaggedSince == s.flaggedSince
  {
    var checks := Next(s, step).checks;
    if |checks| > |s.checks| { assert !checks[|s.checks|].below; }
  }

  /** A refresh that starts with both values below their limits sees that, whatever the thread does
      meanwhile; one at whose end a value is at its limit does not. */
  lemma RefreshSees(s: State, now: nat, first: seq<Step>, second: seq<Step>)
    requires s.coordinator == Idle && now <= s.clock && Counters(s)
    requires OnlyThread(first) && OnlyThread(second)
    ensures var s' := Run(s, [Refresh(now)] + first + [Advance] + second + [Advance]);
            && s'.coordinator == Idle && |s'.checks| == |s.checks| + 1
            && (!AtLimit(s.messages, s.bytes) ==> s'.checks[|s.checks|].below && s'.flaggedSince == None)
            && (AtLimit(s'.messages, s'.bytes) ==> !s'.checks[|s.checks|].below && s'.flaggedSince.Some?)
  {
    hide Run, Counters, Next;
    var r0, r1 := [Refresh(now)], [Refresh(now)] + first;
    var r2 := r1 + [Advance];
    var r3 := r2 + second;
    RunMore(s, [], Refresh(now));
    assert [] + r0 == r0;
    RefreshStarts(s, now);
    ThreadOnly(s, r0, first);
    RunMore(s, r1, Advance);
    FirstLoad(Run(s, r1));
    ThreadOnly(s, r2, second);
    RunMore(s, r3, Advance);
    SecondLoad(Run(s, r3));
  }

  predicate OnlyThread(steps: seq<Step>) { forall step | step in steps :: step.Work? || step.Tick? }

  lemma RunMore(s: State, steps: seq<Step>, step: Step)
    ensures Run(s, steps + [step]) == Next(Run(s, steps), step)
    ensures Run(s, []) == s
  {
    assert (steps + [step])[..|steps|] == steps;
  }

  lemma RefreshStarts(s: State, now: nat)
    requires s.coordinator == Idle && now <= s.clock && Counters(s)
    ensures Next(s, Refresh(now)) == s.(coordinator := Refreshing(now)) && Counters(Next(s, Refresh(now)))
  {
    CountersStep(s, Refresh(now));
  }

  lemma FirstLoad(s: State)
    requires s.coordinator.Refreshing? && Counters(s)
    ensures var s' := Next(s, Advance);
            s' == s.(coordinator := Observing(s.coordinator.now, s.messages)) && Counters(s')
  {
    hide Total;
    CountersStep(s, Advance);
  }

  lemma SecondLoad(s: State)
    requires s.coordinator.Observing?
    ensures var s' := Next(s, Advance);
            var below := s.coordinator.messages < MESSAGE_LIMIT && s.bytes < BYTE_LIMIT;
            && s'.coordinator == Idle && s'.messages == s.messages && s'.bytes == s.bytes
            && s'.checks == s.checks + [Check(s.clock, below)] && (below <==> s'.flaggedSince == None)
  {
  }

  /** The thread only takes away. */
  lemma {:induction false} ThreadOnly(s: State, before: seq<Step>, steps: seq<Step>)
    requires OnlyThread(steps) && Counters(Run(s, before))
    ensures var a, b := Run(s, before), Run(s, before + steps);
            && Counters(b) && b.coordinator == a.coordinator && b.checks == a.checks
            && b.messages <= a.messages && b.bytes <= a.bytes
  {
    hide Run, Counters, Next;
    if steps == [] {
      assert before + [] == before;
    } else {
      var front, step := steps[..|steps| - 1], steps[|steps| - 1];
      forall x | x in front ensures x.Work? || x.Tick? { assert x in steps; }
      ThreadOnly(s, before, front);
      assert before + steps == before + front + [step];
      RunMore(s, before + front, step);
      assert step in steps;
      ThreadStep(Run(s, before + front), step);
    }
  }

  lemma ThreadStep(s: State, step: Step)
    requires (step.Work? || step.Tick?) && Counters(s)
    ensures var s' := Next(s, step);
            && Counters(s') && s'.coordinator == s.coordinator && s'.checks == s.checks
            && s'.messages <= s.messages && s'.bytes <= s.bytes
  {
    hide Total;
    CountersStep(s, step);
  }

  /** Nothing is lost and nothing overtakes: as long as the connection is not cancelled, the frames
      handed to the thread are, in order, those it has published, the one in its hands, and those
      still queued; and the thread ends only after a failed write, or when the queue is closed. */
  lemma FramesConserved(clock: nat, steps: seq<Step>)
    ensures var s := Run(Start(clock), steps);
            && (!s.cancelled ==> EventIds(s.events) + HeldIds(s.worker) + QueueIds(s.queue) == s.accepted)
            && (forall k | 0 <= k < |s.events| && !s.events[k].ok :: k == |s.events| - 1 && s.worker == Ended)
            && (s.worker == Ended && !s.closed ==> s.events != [] && !s.events[|s.events| - 1].ok)
  {
    hide Run, Counters, Bounds, Below, Flagged, Dated, EventIds, HeldIds, QueueIds;
    RunKeeps(clock, steps);
  }

  // ----- one call of `enqueue`

  function Twice(s: State): State { Next(Next(s, Advance), Advance) }

  /** A call of `enqueue` that nothing interrupts. */
  function Enqueued(s: State, size: nat): State { Next(Twice(Twice(Twice(Next(s, Enqueue(size))))), Advance) }

  /** What a call of `enqueue` leaves that nothing interrupts. On an open queue whose thread runs, the frame
      is handed over under the next identifier, and the flag is set if the frame brings a value to its
      limit; else the counters are as before, and only the identifier is used up. */
  predicate HandedOver(s: State, size: nat, s': State) {
    var id := s.nextId + 1;
    && s'.coordinator == Idle && s'.nextId == id && s'.worker == s.worker && s'.events == s.events
    && if !s.closed && s.worker != Ended then
         && s'.accepted == s.accepted + [id] && s'.queue == s.queue + [Frame(id, size)]
         && s'.messages == s.messages + 1 && s'.bytes == s.bytes + size
         && s'.flaggedSince == (if s.flaggedSince == None && (s'.messages >= 64 || s'.bytes >= 8 * 1024 * 1024)
                                then Some(s.clock) else s.flaggedSince)
       else
         && s'.accepted == s.accepted && s'.queue == s.queue && s'.flaggedSince == s.flaggedSince
         && s'.messages == s.messages && s'.bytes == s.bytes
  }

  lemma EnqueueHandsOver(s: State, size: nat)
    requires s.coordinator == Idle && Counters(s)
    ensures HandedOver(s, size, Enqueued(s, size))
  {
    hide HandedOver, Total;
    EnqueueLoads(s, size);
    var m, b, id := s.messages + 1, s.bytes + size, s.nextId + 1;
    var s5 := s.(coordinator := Sized(size, m, b, id), nextId := id, messages := m, bytes := b);
    assert Twice(Twice(Next(s, Enqueue(size)))) == s5;
    hide Next;
    Finish(s, size, s5);
  }

  lemma Finish(s: State, size: nat, s5: State)
    requires s.coordinator == Idle && s.messages >= 0 && s.bytes >= 0
    requires s5 == s.(coordinator := Sized(size, s.messages + 1, s.bytes + size, s.nextId + 1), nextId := s.nextId + 1,
                      messages := s.messages + 1, bytes := s.bytes + size)
    ensures HandedOver(s, size, Next(Twice(s5), Advance))
  {
  }

  lemma EnqueueLoads(s: State, size: nat)
    requires s.coordinator == Idle && Counters(s)
    ensures s.messages >= 0 && s.bytes >= 0
  {
    hide Total;
  }

  /** A queue is closed by a cancellation, and by nothing else. */
  lemma {:induction false} ClosedByCancel(clock: nat, steps: seq<Step>)
    ensures var s := Run(Start(clock), steps); s.closed || s.cancelled ==> Cancel in steps
  {
    if steps != [] {
      ClosedByCancel(clock, steps[..|steps| - 1]);
      OnlyCancel(Run(Start(clock), steps[..|steps| - 1]), steps[|steps| - 1]);
    }
  }

  lemma OnlyCancel(s: State, step: Step)
    ensures step != Cancel ==> Next(s, step).closed == s.closed && Next(s, step).cancelled == s.cancelled
    ensures step == Cancel && s.coordinator == Idle ==> Next(s, step).closed && Next(s, step).cancelled
  {
  }
}
