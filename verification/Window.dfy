/** Document symbols of many files, fetched with a bounded number of requests in flight. */
module Window {
  import opened Json

  const I32_MAX: nat := 0x7FFF_FFFF

  datatype Incoming =
    | Response(id: nat, error: bool, result: Value)
    | Other                      // a request or notification of the server
    | Timeout
    | EndOfStream
    | ReadError

  /** A server's answer for one file. */
  datatype Answer = Answer(error: bool, result: Value)

  datatype Pending = Pending(index: nat, started: nat)

  datatype Cause =
    | CannotOpen(index: nat)
    | CannotSend(id: nat)
    | TimedOut(id: nat, now: nat)
    | CannotDecode(index: nat)
    | CannotHandle(at: nat)
    | Closed(at: nat)

  datatype Outcome<+T> = Found(list: seq<T>) | Failed(cause: Cause)

  /** Everything outside: which files can be opened, which requests can be sent, the clock at its
      successive readings, the messages in their order of arrival, which of them can be handled,
      and the decoder. Behind the last message the reader has stopped. */
  datatype Env<!T> = Env(opens: nat -> bool, sends: nat -> bool, clock: nat -> nat, inbox: seq<Incoming>,
                         handles: nat -> bool, decode: (string, Value) -> Option<T>, timeout: nat)

  // ----- what a request is answered with

  predicate Answers(m: Incoming, id: nat) { m.Response? && m.id == id }

  /** The first of the messages `from` to `to` that answers a request. */
  function FirstReply(inbox: seq<Incoming>, from: nat, to: nat, id: nat): (r: Option<nat>)
    requires to <= |inbox|
    ensures r.Some? ==> from <= r.value < to && Answers(inbox[r.value], id)
    ensures r.Some? ==> forall p | from <= p < r.value :: !Answers(inbox[p], id)
    ensures r == None ==> forall p | from <= p < to :: !Answers(inbox[p], id)
  {
    if to <= from then None
    else
      var r := FirstReply(inbox, from, to - 1, id);
      if r.Some? then r else if Answers(inbox[to - 1], id) then Some(to - 1) else None
  }

  /** How far a scan has come: the requests in flight, the decoded replies by file, for each file
      asked for how many messages had been handled by then, and how many have been handled. */
  datatype Progress<T> = Progress(pending: map<nat, Pending>, results: map<nat, T>, issued: seq<nat>, handled: nat)

  /** The reply to file `i`, if it has arrived. */
  function ReplyAt<T>(p: Progress<T>, start: nat, env: Env<T>, i: nat): Option<nat>
    requires i < |p.issued| && p.handled <= |env.inbox|
  {
    FirstReply(env.inbox, p.issued[i], p.handled, start + i)
  }

  /** What file `i` contributes: its decoded reply, or nothing if the server answered with an
      error. */
  function Decoded<T>(p: Progress<T>, start: nat, files: seq<string>, env: Env<T>, i: nat): Option<T>
    requires i < |p.issued| && i < |files| && p.handled <= |env.inbox|
  {
    var at := ReplyAt(p, start, env, i);
    if at == None || env.inbox[at.value].error then None else env.decode(files[i], env.inbox[at.value].result)
  }

  /** A request is in flight exactly as long as its first reply has not arrived, and the results
      are the decoded replies. */
  ghost predicate Tracks<T>(p: Progress<T>, start: nat, files: seq<string>, env: Env<T>) {
    && |p.issued| <= |files| && p.handled <= |env.inbox|
    && (forall id | id in p.pending :: start <= id < start + |p.issued| && p.pending[id].index == id - start)
    && (forall i | 0 <= i < |p.issued| :: Tracked(p, start, files, env, i))
    && (forall i | i in p.results :: i < |p.issued|)
  }

  ghost predicate Tracked<T>(p: Progress<T>, start: nat, files: seq<string>, env: Env<T>, i: nat)
    requires i < |p.issued| && i < |files| && p.handled <= |env.inbox|
  {
    && p.issued[i] <= p.handled
    && (start + i in p.pending <==> ReplyAt(p, start, env, i) == None)
    && (if i in p.results then Some(p.results[i]) else None) == Decoded(p, start, files, env, i)
  }

  lemma Issue<T>(p: Progress<T>, start: nat, files: seq<string>, env: Env<T>, started: nat)
    requires Tracks(p, start, files, env) && |p.issued| < |files|
    ensures Tracks(Issued(p, start, started), start, files, env)
    ensures |Issued(p, start, started).pending| == |p.pending| + 1
    ensures |Issued(p, start, started).issued| == |p.issued| + 1
  {
    hide FirstReply;
    var p' := Issued(p, start, started);
    NothingYet(env.inbox, p.handled, start + |p.issued|);
    forall i | 0 <= i < |p'.issued| ensures Tracked(p', start, files, env, i) {
      if i < |p.issued| { assert Tracked(p, start, files, env, i); }
    }
  }

  function Issued<T>(p: Progress<T>, start: nat, started: nat): Progress<T> {
    p.(pending := p.pending[start + |p.issued| := Pending(|p.issued|, started)], issued := p.issued + [p.handled])
  }

  lemma NothingYet(inbox: seq<Incoming>, at: nat, id: nat)
    requires at <= |inbox|
    ensures FirstReply(inbox, at, at, id) == None
  {
  }

  /** A message that answers no request in flight: somebody else's, or a repeated one. */
  lemma Ignore<T>(p: Progress<T>, start: nat, files: seq<string>, env: Env<T>)
    requires Tracks(p, start, files, env) && p.handled < |env.inbox|
    requires env.inbox[p.handled].Response? ==> env.inbox[p.handled].id !in p.pending
    ensures Tracks(p.(handled := p.handled + 1), start, files, env)
  {
    hide FirstReply;
    var p' := p.(handled := p.handled + 1);
    forall i | 0 <= i < |p'.issued| ensures Tracked(p', start, files, env, i) {
      assert Tracked(p, start, files, env, i);
      NextReply(env.inbox, p.issued[i], p.handled, start + i);
    }
  }

  lemma NextReply(inbox: seq<Incoming>, from: nat, to: nat, id: nat)
    requires from <= to < |inbox|
    ensures FirstReply(inbox, from, to + 1, id)
         == if FirstReply(inbox, from, to, id).Some? then FirstReply(inbox, from, to, id)
            else if Answers(inbox[to], id) then Some(to) else None
  {
  }

  /** The reply to a request in flight. */
  lemma Replied<T>(p: Progress<T>, start: nat, files: seq<string>, env: Env<T>, p': Progress<T>)
    requires Tracks(p, start, files, env) && p.handled < |env.inbox|
    requires env.inbox[p.handled].Response? && env.inbox[p.handled].id in p.pending
    requires var m := env.inbox[p.handled]; var i := m.id - start;
             p' == Received(p, m.id, i, if m.error then None else env.decode(files[i], m.result))
    ensures Tracks(p', start, files, env) && |p'.pending| < |p.pending| && p'.issued == p.issued
  {
    hide FirstReply, Tracked;
    assert p'.pending.Keys == p.pending.Keys - {env.inbox[p.handled].id};
    forall i | 0 <= i < |p'.issued| ensures Tracked(p', start, files, env, i) {
      assert Tracked(p, start, files, env, i);
      RepliedOne(p, start, files, env, p', i);
    }
  }

  lemma RepliedOne<T>(p: Progress<T>, start: nat, files: seq<string>, env: Env<T>, p': Progress<T>, i: nat)
    requires |p.issued| <= |files| && p.handled < |env.inbox| && i < |p.issued| && Tracked(p, start, files, env, i)
    requires env.inbox[p.handled].Response? && env.inbox[p.handled].id in p.pending
    requires start <= env.inbox[p.handled].id < start + |p.issued|
    requires var m := env.inbox[p.handled]; var k := m.id - start;
             p' == Received(p, m.id, k, if m.error then None else env.decode(files[k], m.result))
    ensures Tracked(p', start, files, env, i)
  {
    hide FirstReply;
    NextReply(env.inbox, p.issued[i], p.handled, start + i);
  }

  function Received<T>(p: Progress<T>, id: nat, i: nat, decoded: Option<T>): Progress<T> {
    p.(pending := p.pending - {id}, handled := p.handled + 1,
       results := if decoded.Some? then p.results[i := decoded.value] else p.results)
  }

  // ----- what comes out

  /** The results in file order. */
  function InOrder<T>(results: map<nat, T>, n: nat): seq<T> {
    if n == 0 then []
    else InOrder(results, n - 1) + (if n - 1 in results then [results[n - 1]] else [])
  }

  /** What a scan that asks for one file after the other collects from given answers. */
  function Sequential<T>(files: seq<string>, answers: seq<Answer>, decode: (string, Value) -> Option<T>, n: nat): seq<T>
    requires n <= |files| && n <= |answers|
  {
    if n == 0 then []
    else
      var a := answers[n - 1];
      var x := if a.error then None else decode(files[n - 1], a.result);
      Sequential(files, answers, decode, n - 1) + if x.Some? then [x.value] else []
  }

  /** A server that answers each file in one way, whenever and however often it does. */
  predicate Consistent(inbox: seq<Incoming>, start: nat, answers: seq<Answer>) {
    forall p, i | 0 <= p < |inbox| && 0 <= i < |answers| && Answers(inbox[p], start + i) ::
      inbox[p] == Response(start + i, answers[i].error, answers[i].result)
  }

  predicate Complete<T>(p: Progress<T>, files: seq<string>) { |p.issued| == |files| && p.pending == map[] }

  /** The first reply to the request for file `i`, once there is one. */
  function AnswerTo<T>(p: Progress<T>, start: nat, env: Env<T>, i: nat): Answer
    requires i < |p.issued| && p.handled <= |env.inbox| && ReplyAt(p, start, env, i).Some?
  {
    var m := env.inbox[ReplyAt(p, start, env, i).value];
    Answer(m.error, m.result)
  }

  /** Whatever the window and the order of arrival: a finished scan has collected what the sequential
      one does from the first replies. */
  lemma {:induction false} WindowCollects<T>(p: Progress<T>, start: nat, files: seq<string>, env: Env<T>,
                                             answers: seq<Answer>, n: nat)
    requires Tracks(p, start, files, env) && Complete(p, files) && |answers| == |files| && n <= |files|
    requires forall i | 0 <= i < |files| ::
               ReplyAt(p, start, env, i).Some? && answers[i] == AnswerTo(p, start, env, i)
    ensures InOrder(p.results, n) == Sequential(files, answers, env.decode, n)
  {
    hide ReplyAt;
    if n > 0 {
      WindowCollects(p, start, files, env, answers, n - 1);
      assert Tracked(p, start, files, env, n - 1);
    }
  }

  lemma AllReplied<T>(p: Progress<T>, start: nat, files: seq<string>, env: Env<T>)
    requires Tracks(p, start, files, env) && Complete(p, files)
    ensures |p.issued| == |files| && p.handled <= |env.inbox|
    ensures forall i | 0 <= i < |files| :: ReplyAt(p, start, env, i).Some?
  {
    hide ReplyAt, Decoded;
    forall i | 0 <= i < |files| ensures ReplyAt(p, start, env, i).Some? { assert Tracked(p, start, files, env, i); }
  }

  /** Whatever the window, the order of arrival, the repetitions and the replies to others: a
      finished scan has collected what the sequential one does. */
  lemma WindowIsSequential<T>(p: Progress<T>, start: nat, files: seq<string>, env: Env<T>, answers: seq<Answer>)
    requires Tracks(p, start, files, env) && Complete(p, files)
    requires |answers| == |files| && Consistent(env.inbox, start, answers)
    ensures InOrder(p.results, |files|) == Sequential(files, answers, env.decode, |files|)
  {
    hide FirstReply, Tracks, InOrder, Sequential;
    AllReplied(p, start, files, env);
    forall i | 0 <= i < |files| ensures answers[i] == AnswerTo(p, start, env, i) {
      assert Answers(env.inbox[ReplyAt(p, start, env, i).value], start + i);
    }
    WindowCollects(p, start, files, env, answers, |files|);
  }

  // ----- the schedule

  /** What a scan is given: the messages, its first request identifier, the largest number of requests
      in flight, the number of files, and its first reading of the clock. */
  datatype Plan = Plan(inbox: seq<Incoming>, start: nat, limit: nat, total: nat, first: nat)

  /** The files that the first `h` messages answer, if the window is always kept full: a message
      counts if it answers a request that has been sent by then. */
  function Settled(plan: Plan, h: nat): (r: set<nat>)
    requires h <= |plan.inbox|
    ensures forall i | i in r :: i < plan.total
  {
    if h == 0 then {}
    else
      var before, m := Settled(plan, h - 1), plan.inbox[h - 1];
      if m.Response? && plan.start <= m.id < plan.start + Room(plan, |before|) then before + {m.id - plan.start}
        else before
  }

  /** How many files have been asked for once so many are settled. */
  function Room(plan: Plan, settled: nat): nat {
    if plan.limit + settled <= plan.total then plan.limit + settled else plan.total
  }

  /** How many files have been asked for when the window is full after `h` messages. */
  function Asked(plan: Plan, h: nat): nat
    requires h <= |plan.inbox|
  {
    Room(plan, |Settled(plan, h)|)
  }

  /** Some file is not settled yet. */
  predicate Unfinished(plan: Plan, h: nat)
    requires h <= |plan.inbox|
  {
    |Settled(plan, h)| < plan.total
  }

  /** The request for file `i` is sent as soon as the window has room for it: after message
      `at`, and no earlier. */
  predicate OnTime(plan: Plan, i: nat, at: nat) {
    at <= |plan.inbox| && i < Asked(plan, at) && (at > 0 ==> i >= Asked(plan, at - 1))
  }

  /** The requests in flight are those that the schedule has sent and not settled. */
  ghost predicate OnSchedule<T>(p: Progress<T>, plan: Plan) {
    && p.handled <= |plan.inbox|
    && Sent(p.issued, p.handled, plan)
    && Open(p.pending, plan.start, |p.issued|, Settled(plan, p.handled))
  }

  ghost predicate Sent(issued: seq<nat>, h: nat, plan: Plan)
    requires h <= |plan.inbox|
  {
    && (h > 0 ==> Asked(plan, h - 1) <= |issued|) && |issued| <= Asked(plan, h)
    && (forall i | 0 <= i < |issued| :: OnTime(plan, i, issued[i]))
  }

  ghost predicate Open(pending: map<nat, Pending>, start: nat, asked: nat, settled: set<nat>) {
    && (forall i | i in settled :: i < asked)
    && (forall id :: id in pending <==> start <= id < start + asked && id - start !in settled)
    && |pending| == asked - |settled|
  }

  lemma Close(pending: map<nat, Pending>, start: nat, asked: nat, settled: set<nat>, i: nat)
    requires Open(pending, start, asked, settled) && start + i in pending
    ensures Open(pending - {start + i}, start, asked, settled + {i}) && i !in settled && i < asked
  {
    var closed, more := pending - {start + i}, settled + {i};
    assert start + i - start == i;
    assert |more| == |settled| + 1;
    assert |closed| == |pending| - 1 by { assert closed.Keys == pending.Keys - {start + i}; }
    forall id ensures id in closed <==> start <= id < start + asked && id - start !in more {
      assert id in closed <==> id in pending && id != start + i;
    }
  }

  /** The window is full, or every file has been asked for. */
  ghost predicate Full<T>(p: Progress<T>, plan: Plan) {
    p.handled <= |plan.inbox| && |p.issued| == Asked(plan, p.handled)
  }

  lemma IssueOnSchedule<T>(p: Progress<T>, plan: Plan, started: nat)
    requires OnSchedule(p, plan) && |p.pending| < plan.limit && |p.issued| < plan.total
    ensures OnSchedule(Issued(p, plan.start, started), plan)
    ensures |p.issued| < Asked(plan, p.handled)
  {
    hide Settled;
    var p' := Issued(p, plan.start, started);
    assert plan.start + |p.issued| !in p.pending;
    assert OnTime(plan, |p.issued|, p.handled);
  }

  /** A full window is as far as the schedule. */
  lemma FullOnSchedule<T>(p: Progress<T>, plan: Plan)
    requires OnSchedule(p, plan) && (|p.pending| >= plan.limit || |p.issued| == plan.total)
    ensures Full(p, plan)
  {
    hide Settled, OnTime;
  }

  lemma ReplyOnSchedule<T>(p: Progress<T>, plan: Plan, i: nat, x: Option<T>)
    requires OnSchedule(p, plan) && p.handled < |plan.inbox| && Full(p, plan)
    requires plan.inbox[p.handled].Response? && plan.inbox[p.handled].id == plan.start + i
    requires plan.start + i in p.pending
    ensures OnSchedule(Received(p, plan.start + i, i, x), plan)
    ensures Settled(plan, p.handled + 1) == Settled(plan, p.handled) + {i} && i !in Settled(plan, p.handled)
  {
    hide OnTime, Settled, Room, Asked, Open;
    SettledNext(plan, p.handled);
    AskedGrows(plan, p.handled);
    Close(p.pending, plan.start, |p.issued|, Settled(plan, p.handled), i);
  }

  lemma AskedGrows(plan: Plan, h: nat)
    requires h < |plan.inbox|
    ensures Asked(plan, h) <= Asked(plan, h + 1)
  {
    hide Settled;
    SettledNext(plan, h);
    var before, after := Settled(plan, h), Settled(plan, h + 1);
    assert after == before || exists i :: after == before + {i};
  }

  lemma IgnoreOnSchedule<T>(p: Progress<T>, plan: Plan)
    requires OnSchedule(p, plan) && p.handled < |plan.inbox| && Full(p, plan)
    requires plan.inbox[p.handled].Response? ==> plan.inbox[p.handled].id !in p.pending
    ensures OnSchedule(p.(handled := p.handled + 1), plan)
  {
    hide OnSchedule, OnTime, Settled, Room;
    if plan.inbox[p.handled].Response? { InFlight(p, plan, plan.inbox[p.handled].id); }
    NothingSettled(plan, p.handled);
    SameSettled(p, plan);
  }

  lemma NothingSettled(plan: Plan, h: nat)
    requires h < |plan.inbox|
    requires var m := plan.inbox[h];
             m.Response? && plan.start <= m.id < plan.start + Asked(plan, h) ==> m.id - plan.start in Settled(plan, h)
    ensures Settled(plan, h + 1) == Settled(plan, h)
  {
    hide Settled, Room;
    SettledNext(plan, h);
    var before, m := Settled(plan, h), plan.inbox[h];
    if m.Response? && plan.start <= m.id < plan.start + Asked(plan, h) {
      assert before + {m.id - plan.start} == before;
    }
  }

  lemma InFlight<T>(p: Progress<T>, plan: Plan, id: nat)
    requires OnSchedule(p, plan)
    ensures id in p.pending <==>
            plan.start <= id < plan.start + |p.issued| && id - plan.start !in Settled(plan, p.handled)
    ensures |p.pending| == |p.issued| - |Settled(plan, p.handled)|
    ensures id in p.pending ==> OnTime(plan, id - plan.start, p.issued[id - plan.start]) && id - plan.start < plan.total
  {
  }

  lemma SameSettled<T>(p: Progress<T>, plan: Plan)
    requires OnSchedule(p, plan) && p.handled < |plan.inbox| && Full(p, plan)
    requires Settled(plan, p.handled + 1) == Settled(plan, p.handled)
    ensures OnSchedule(p.(handled := p.handled + 1), plan)
  {
    hide OnTime, Settled, Room;
  }

  lemma SettledNext(plan: Plan, h: nat)
    requires h < |plan.inbox|
    ensures var m := plan.inbox[h];
            Settled(plan, h + 1)
            == Settled(plan, h) + if m.Response? && plan.start <= m.id < plan.start + Asked(plan, h)
              then {m.id - plan.start} else {}
  {
  }

  /** Message `h` settles file `i`, with this answer. */
  predicate SettledBy(plan: Plan, i: nat, h: nat, answer: Answer) {
    && h < |plan.inbox| && i !in Settled(plan, h) && i in Settled(plan, h + 1)
    && plan.inbox[h] == Response(plan.start + i, answer.error, answer.result)
  }

  /** What each file is settled with. It depends on the messages alone: repeated replies, replies to
      others and replies that come before their request do not count. */
  ghost predicate Settling(plan: Plan, answers: seq<Answer>) {
    |answers| == plan.total && forall i: nat | i < plan.total :: SettledWith(plan, i, answers[i])
  }

  ghost predicate SettledWith(plan: Plan, i: nat, answer: Answer) {
    exists h: nat :: SettledBy(plan, i, h, answer)
  }

  /** A file is settled once, so it has one answer. */
  lemma SettlingOnce(plan: Plan, a: seq<Answer>, b: seq<Answer>)
    requires Settling(plan, a) && Settling(plan, b)
    ensures a == b
  {
    hide Settled;
    forall i: nat | i < plan.total ensures a[i] == b[i] {
      assert SettledWith(plan, i, a[i]) && SettledWith(plan, i, b[i]);
      var h: nat :| SettledBy(plan, i, h, a[i]);
      var k: nat :| SettledBy(plan, i, k, b[i]);
      if h < k { StaysSettled(plan, i, h + 1, k); }
      if k < h { StaysSettled(plan, i, k + 1, h); }
    }
  }

  lemma {:induction false} StaysSettled(plan: Plan, i: nat, h: nat, k: nat)
    requires h <= k <= |plan.inbox| && i in Settled(plan, h)
    ensures i in Settled(plan, k)
    decreases k
  {
    if h < k { StaysSettled(plan, i, h, k - 1); }
  }

  /** The first reply after its request settles a file. */
  lemma FirstSettles(plan: Plan, i: nat, from: nat, at: nat)
    requires OnTime(plan, i, from) && from <= at < |plan.inbox| && Answers(plan.inbox[at], plan.start + i)
    requires forall p | from <= p < at :: !Answers(plan.inbox[p], plan.start + i)
    ensures i !in Settled(plan, at) && i in Settled(plan, at + 1)
  {
    hide Settled, Asked;
    NotSettledBefore(plan, i, from);
    NotSettledBetween(plan, i, from, at);
    AskedMonotone(plan, from, at);
    SettledNext(plan, at);
  }

  /** A file is not settled before it is asked for. */
  lemma {:induction false} NotSettledBefore(plan: Plan, i: nat, h: nat)
    requires h <= |plan.inbox| && (h > 0 ==> i >= Asked(plan, h - 1))
    ensures i !in Settled(plan, h)
  {
    hide Settled, Asked;
    if h > 0 {
      if h > 1 { AskedGrows(plan, h - 2); }
      NotSettledBefore(plan, i, h - 1);
      SettledNext(plan, h - 1);
    } else {
      NothingSettledYet(plan);
    }
  }

  lemma NothingSettledYet(plan: Plan)
    ensures Settled(plan, 0) == {}
  {
  }

  lemma {:induction false} NotSettledBetween(plan: Plan, i: nat, from: nat, h: nat)
    requires from <= h <= |plan.inbox| && i !in Settled(plan, from)
    requires forall p | from <= p < h :: !Answers(plan.inbox[p], plan.start + i)
    ensures i !in Settled(plan, h)
    decreases h
  {
    hide Settled, Asked;
    if from < h {
      NotSettledBetween(plan, i, from, h - 1);
      assert !Answers(plan.inbox[h - 1], plan.start + i);
      SettledNext(plan, h - 1);
    }
  }

  lemma NothingOnSchedule<T>(plan: Plan)
    ensures OnSchedule(Progress<T>.Progress(map[], map[], [], 0), plan)
  {
  }

  /** Once nothing is in flight in a full window, every file has been asked for. */
  lemma AllAsked<T>(p: Progress<T>, plan: Plan)
    requires OnSchedule(p, plan) && p.pending == map[] && plan.limit > 0 && Full(p, plan)
    ensures |p.issued| == plan.total
  {
    hide Settled, OnTime;
  }

  /** While a request is in flight, some file is not settled. */
  lemma Unsettled<T>(p: Progress<T>, plan: Plan)
    requires OnSchedule(p, plan) && p.pending != map[]
    ensures Unfinished(plan, p.handled)
  {
    hide Settled, OnTime;
    assert |p.pending| > 0;
  }

  // ----- the clock

  function Elapsed(started: nat, now: nat): nat { if started <= now then now - started else 0 }

  predicate InTime(pending: map<nat, Pending>, now: nat, timeout: nat) {
    forall id | id in pending :: Elapsed(pending[id].started, now) < timeout
  }

  /** How many of the first `h` rounds found every file asked for and the window not full. */
  function Idle(plan: Plan, h: nat): nat
    requires h <= |plan.inbox| + 1
  {
    if h == 0 then 0 else Idle(plan, h - 1) + if plan.limit + |Settled(plan, h - 1)| > plan.total then 1 else 0
  }

  /** The next reading of the clock after `h` messages and `k` requests: a request takes three, a
      message two, and a window that stays open one. */
  function Reading(plan: Plan, h: nat, k: nat): nat
    requires h <= |plan.inbox| + 1
  {
    plan.first + 3 * k + 2 * h + Idle(plan, h)
  }

  /** The reading that starts the request for file `i`, sent after `at` messages. */
  function Start(plan: Plan, i: nat, at: nat): nat
    requires at <= |plan.inbox|
  {
    Reading(plan, at, i) + 2
  }

  /** Every request in flight started at its reading of the clock, before reading `to`. */
  ghost predicate Timed<T>(p: Progress<T>, plan: Plan, clock: nat -> nat, to: nat) {
    forall id | id in p.pending ::
      && plan.start <= id < plan.start + |p.issued| && p.issued[id - plan.start] <= |plan.inbox|
      && Start(plan, id - plan.start, p.issued[id - plan.start]) < to
      && p.pending[id].started == clock(Start(plan, id - plan.start, p.issued[id - plan.start]))
  }

  lemma TimedLater<T>(p: Progress<T>, plan: Plan, clock: nat -> nat, to: nat, later: nat)
    requires Timed(p, plan, clock, to) && to <= later
    ensures Timed(p, plan, clock, later)
  {
  }

  lemma IssueTimed<T>(p: Progress<T>, plan: Plan, clock: nat -> nat)
    requires p.handled <= |plan.inbox| && var at := Start(plan, |p.issued|, p.handled); Timed(p, plan, clock, at + 1)
    ensures var at := Start(plan, |p.issued|, p.handled); Timed(Issued(p, plan.start, clock(at)), plan, clock, at + 1)
  {
    hide Reading;
  }

  lemma ReplyTimed<T>(p: Progress<T>, plan: Plan, clock: nat -> nat, to: nat, id: nat, i: nat, x: Option<T>)
    requires Timed(p, plan, clock, to)
    ensures Timed(Received(p, id, i, x), plan, clock, to)
  {
    hide Reading;
  }

  lemma IgnoreTimed<T>(p: Progress<T>, plan: Plan, clock: nat -> nat, to: nat)
    requires Timed(p, plan, clock, to)
    ensures Timed(p.(handled := p.handled + 1), plan, clock, to)
  {
    hide Reading;
  }

  /** The readings of a round whose window is full. */
  lemma RoundReadings<T>(p: Progress<T>, plan: Plan)
    requires OnSchedule(p, plan) && Full(p, plan) && |p.pending| <= plan.limit
    ensures Reading(plan, p.handled + 1, |p.issued|)
         == Reading(plan, p.handled, |p.issued|) + if |p.pending| < plan.limit then 3 else 2
  {
    hide Settled, OnTime;
  }

  /** A round whose window can still be filled. */
  lemma OpenReadings<T>(p: Progress<T>, plan: Plan)
    requires OnSchedule(p, plan)
    ensures Reading(plan, p.handled, |p.issued|) + 2 <= Reading(plan, p.handled + 1, Asked(plan, p.handled))
    ensures |p.issued| < Asked(plan, p.handled) ==>
              Reading(plan, p.handled, |p.issued| + 1) + 2 <= Reading(plan, p.handled + 1, Asked(plan, p.handled))
  {
    hide Settled, OnTime;
  }

  // ----- a world without failures

  /** At the last reading of the clock before message `h` is handled, no request in flight is out of
      time. */
  ghost predicate NoneLate<T>(plan: Plan, env: Env<T>, h: nat)
    requires h <= |plan.inbox|
  {
    forall i: nat, at: nat | OnTime(plan, i, at) && at <= h && i !in Settled(plan, h) ::
      Elapsed(env.clock(Start(plan, i, at)), env.clock(Last(plan, h))) < env.timeout
  }

  /** The last reading of the round in which message `h` comes. */
  function Last(plan: Plan, h: nat): nat
    requires h <= |plan.inbox|
  {
    Reading(plan, h + 1, Asked(plan, h)) - 1
  }

  /** Message `h` does not end the scan: it can be handled, and a reply that settles a file can be
      decoded. */
  predicate Harmless<T>(plan: Plan, files: seq<string>, env: Env<T>, h: nat)
    requires h < |plan.inbox| && plan.inbox == env.inbox && |files| == plan.total
  {
    var m := plan.inbox[h];
    && m != EndOfStream && m != ReadError
    && (m == Other ==> env.handles(h))
    && (m.Response? && plan.start <= m.id < plan.start + Asked(plan, h) && m.id - plan.start !in Settled(plan, h) ==>
          m.error || env.decode(files[m.id - plan.start], m.result).Some?)
  }

  /** The first `n` files can be opened and asked for, and the first `h` messages do no harm. */
  ghost predicate Passed<T>(n: nat, h: nat, plan: Plan, files: seq<string>, env: Env<T>)
    requires h <= |plan.inbox| && plan.inbox == env.inbox && |files| == plan.total
  {
    && (forall i: nat | i < n :: env.opens(i))
    && (forall id: nat | plan.start <= id < plan.start + n :: env.sends(id))
    && (forall k: nat | k < h && Unfinished(plan, k) :: NoneLate(plan, env, k) && Harmless(plan, files, env, k))
  }

  /** Every file can be opened and asked for; while files are unsettled, no request is late and every
      message is harmless; and the messages settle every file. */
  ghost predicate Smooth<T>(plan: Plan, files: seq<string>, env: Env<T>)
    requires plan.inbox == env.inbox && |files| == plan.total
  {
    Passed(plan.total, |plan.inbox|, plan, files, env) && !Unfinished(plan, |plan.inbox|)
  }

  /** A clock that never goes back. */
  ghost predicate Monotone(clock: nat -> nat) { forall k: nat, l: nat | k <= l :: clock(k) <= clock(l) }

  /** Such a world: two files, one request in flight at a time, and a reply to each, between which a
      notification of the server and a second reply to the first come. */
  lemma SmoothWorld<T>(x: T)
    ensures var inbox := [Response(5, false, Null), Other, Response(5, true, Null), Response(6, true, Null)];
            var env := Env(_ => true, _ => true, _ => 0, inbox, _ => true, (_, _) => Some(x), 1);
            Smooth(Plan(inbox, 5, 1, 2, 0), ["a", "b"], env)
  {
    hide Settled, Asked, Start, Last;
    var plan := Plan([Response(5, false, Null), Other, Response(5, true, Null), Response(6, true, Null)], 5, 1, 2, 0);
    BothSettled(plan);
  }

  lemma BothSettled(plan: Plan)
    requires var inbox := [Response(5, false, Null), Other, Response(5, true, Null), Response(6, true, Null)];
             plan == Plan(inbox, 5, 1, 2, 0)
    ensures !Unfinished(plan, 4)
  {
    assert Settled(plan, 1) == {0};
    assert Settled(plan, 2) == {0};
    assert Settled(plan, 3) == {0};
    assert Settled(plan, 4) == {0, 1};
  }

  /** Why a scan gives up, in terms of where it stands: the next file cannot be opened or asked for;
      at the last reading of the clock a request in flight was out of time; the reply just handled,
      or the message at hand, is not usable; or replies are missing and the messages have ended. */
  ghost predicate Justified<T>(cause: Cause, p: Progress<T>, plan: Plan, readings: nat, files: seq<string>,
                               env: Env<T>) {
    && p.handled <= |plan.inbox|
    && match cause
       case CannotOpen(i) => i == |p.issued| < plan.total && |p.pending| < plan.limit && !env.opens(i)
       case CannotSend(id) =>
         |p.issued| < plan.total && |p.pending| < plan.limit && id == plan.start + |p.issued| && !env.sends(id)
       case TimedOut(id, now) =>
         id in p.pending && readings > 0 && now == env.clock(readings - 1)
           && Elapsed(p.pending[id].started, now) >= env.timeout
       case CannotDecode(i) =>
         && p.handled > 0 && i < |files| && Answers(plan.inbox[p.handled - 1], plan.start + i)
         && i in Settled(plan, p.handled) && i !in Settled(plan, p.handled - 1)
         && !plan.inbox[p.handled - 1].error && env.decode(files[i], plan.inbox[p.handled - 1].result) == None
       case CannotHandle(at) =>
         at == p.handled < |plan.inbox| && p.pending != map[] && plan.inbox[at] == Other && !env.handles(at)
       case Closed(at) =>
         && at == p.handled && p.pending != map[] && Full(p, plan)
         && (at == |plan.inbox| || plan.inbox[at] == EndOfStream || plan.inbox[at] == ReadError)
  }

  /** Where a scan stands: the requests in flight are those that were sent and not answered by any
      message handled so far, each was sent as soon as the window had room, started at its
      reading of the clock, and the clock was read no more often than the round allows. */
  ghost predicate Underway<T>(p: Progress<T>, plan: Plan, readings: nat, files: seq<string>, env: Env<T>) {
    && plan.inbox == env.inbox && plan.total == |files|
    && Tracks(p, plan.start, files, env)
    && OnSchedule(p, plan)
    && Timed(p, plan, env.clock, readings)
    && readings <= Reading(plan, p.handled + 1, Asked(plan, p.handled))
  }

  /** No cause of a failure arises in a world without failures. */
  lemma NotSmooth<T>(cause: Cause, p: Progress<T>, plan: Plan, readings: nat, files: seq<string>, env: Env<T>)
    requires Underway(p, plan, readings, files, env) && Justified(cause, p, plan, readings, files, env)
    requires Monotone(env.clock)
    ensures !Smooth(plan, files, env)
  {
    hide Tracks, OnSchedule, Timed, Settled, Unfinished, NoneLate, Harmless, Reading, OnTime, Asked;
    if cause.CannotDecode? {
      Undecoded(cause, p, plan, readings, files, env);
      NotHarmless(p.handled - 1, plan, files, env);
    } else if !cause.CannotOpen? && !cause.CannotSend? {
      Unsettled(p, plan);
      if p.handled < |plan.inbox| {
        if cause.TimedOut? {
          LateRequest(cause, p, plan, readings, files, env);
        } else {
          Unusable(cause, p, plan, readings, files, env);
        }
        NotHarmless(p.handled, plan, files, env);
      }
    }
  }

  lemma NotHarmless<T>(h: nat, plan: Plan, files: seq<string>, env: Env<T>)
    requires h < |plan.inbox| && plan.inbox == env.inbox && |files| == plan.total && Unfinished(plan, h)
    requires !NoneLate(plan, env, h) || !Harmless(plan, files, env, h)
    ensures !Smooth(plan, files, env)
  {
    hide Unfinished, NoneLate, Harmless;
  }

  lemma Undecoded<T>(cause: Cause, p: Progress<T>, plan: Plan, readings: nat, files: seq<string>, env: Env<T>)
    requires Underway(p, plan, readings, files, env) && Justified(cause, p, plan, readings, files, env)
    requires cause.CannotDecode?
    ensures Unfinished(plan, p.handled - 1) && !Harmless(plan, files, env, p.handled - 1)
  {
    hide OnSchedule, Tracks, Timed, Settled, Reading, Asked, Harmless, Unfinished;
    NoneLost(p, plan);
    SpoiltReply(p.handled - 1, plan, files, env, cause.index);
  }

  lemma SpoiltReply<T>(h: nat, plan: Plan, files: seq<string>, env: Env<T>, i: nat)
    requires h < |plan.inbox| && plan.inbox == env.inbox && |files| == plan.total && i < |files|
    requires Answers(env.inbox[h], plan.start + i) && i in Settled(plan, h + 1) && i !in Settled(plan, h)
    requires !env.inbox[h].error && env.decode(files[i], env.inbox[h].result) == None
    requires |Settled(plan, h + 1)| <= plan.total
    ensures Unfinished(plan, h) && !Harmless(plan, files, env, h)
  {
    hide Settled, Asked;
    SettledNext(plan, h);
    MoreSettled(Settled(plan, h), Settled(plan, h + 1), i);
  }

  lemma NoneLost<T>(p: Progress<T>, plan: Plan)
    requires OnSchedule(p, plan)
    ensures |Settled(plan, p.handled)| <= |p.issued| <= plan.total
  {
    hide Settled, OnTime;
  }

  lemma MoreSettled(before: set<nat>, after: set<nat>, i: nat)
    requires after == before + {i} && i !in before
    ensures |before| < |after|
  {
  }

  lemma Unusable<T>(cause: Cause, p: Progress<T>, plan: Plan, readings: nat, files: seq<string>, env: Env<T>)
    requires plan.inbox == env.inbox && plan.total == |files|
    requires Justified(cause, p, plan, readings, files, env) && (cause.CannotHandle? || cause.Closed?)
    requires p.handled < |plan.inbox|
    ensures !Harmless(plan, files, env, p.handled)
  {
    hide Settled, Asked;
  }

  lemma LateRequest<T>(cause: Cause, p: Progress<T>, plan: Plan, readings: nat, files: seq<string>, env: Env<T>)
    requires Underway(p, plan, readings, files, env) && Justified(cause, p, plan, readings, files, env)
    requires cause.TimedOut?
    requires p.handled < |plan.inbox| && Monotone(env.clock)
    ensures !NoneLate(plan, env, p.handled)
  {
    hide OnSchedule, OnTime, Settled, Start, Last, Reading, Asked, Tracks, NoneLate;
    InFlight(p, plan, cause.id);
    var i := cause.id - plan.start;
    SentBefore(p, plan.start, files, env, i);
    LastReading(readings, p.handled, plan);
    LateAt(plan, env, i, p.issued[i], p.handled);
  }

  lemma SentBefore<T>(p: Progress<T>, start: nat, files: seq<string>, env: Env<T>, i: nat)
    requires Tracks(p, start, files, env) && i < |p.issued|
    ensures p.issued[i] <= p.handled <= |env.inbox|
  {
    hide ReplyAt, Decoded;
    assert Tracked(p, start, files, env, i);
  }

  lemma LastReading(readings: nat, h: nat, plan: Plan)
    requires h <= |plan.inbox| && 0 < readings <= Reading(plan, h + 1, Asked(plan, h))
    ensures readings - 1 <= Last(plan, h)
  {
    hide Reading, Asked;
  }

  lemma LateAt<T>(plan: Plan, env: Env<T>, i: nat, at: nat, h: nat)
    requires OnTime(plan, i, at) && at <= h <= |plan.inbox| && i !in Settled(plan, h)
    requires Elapsed(env.clock(Start(plan, i, at)), env.clock(Last(plan, h))) >= env.timeout
    ensures !NoneLate(plan, env, h)
  {
    hide OnTime, Settled, Start, Last;
  }

  /** A file is asked for once. */
  lemma OnTimeOnce(plan: Plan, i: nat, a: nat, b: nat)
    requires OnTime(plan, i, a) && OnTime(plan, i, b)
    ensures b <= a
  {
    hide Asked;
    if a < b { AskedMonotone(plan, a, b - 1); }
  }

  lemma {:induction false} AskedMonotone(plan: Plan, a: nat, b: nat)
    requires a <= b <= |plan.inbox|
    ensures Asked(plan, a) <= Asked(plan, b)
    decreases b
  {
    hide Asked;
    if a < b {
      AskedMonotone(plan, a, b - 1);
      AskedGrows(plan, b - 1);
    }
  }

  lemma {:induction false} StaysFinished(plan: Plan, a: nat, b: nat)
    requires a <= b <= |plan.inbox| && !Unfinished(plan, a)
    ensures !Unfinished(plan, b)
    decreases b
  {
    hide Settled, Asked;
    if a < b {
      StaysFinished(plan, a, b - 1);
      SettledNext(plan, b - 1);
      CountGrows(Settled(plan, b - 1), Settled(plan, b));
    }
  }

  lemma CountGrows(before: set<nat>, after: set<nat>)
    requires after == before || exists i :: after == before + {i}
    ensures |before| <= |after|
  {
  }

  /** Nothing in flight is out of time at the last reading of a round. */
  lemma RoundInTime<T>(p: Progress<T>, plan: Plan, readings: nat, files: seq<string>, env: Env<T>)
    requires Underway(p, plan, readings, files, env) && Full(p, plan)
    requires InTime(p.pending, env.clock(Last(plan, p.handled)), env.timeout)
    ensures NoneLate(plan, env, p.handled)
  {
    hide OnSchedule, OnTime, Settled, Start, Last, Reading, Asked, Tracks;
    forall i: nat, at: nat | OnTime(plan, i, at) && at <= p.handled && i !in Settled(plan, p.handled)
      ensures Elapsed(env.clock(Start(plan, i, at)), env.clock(Last(plan, p.handled))) < env.timeout
    {
      InFlightAt(p, plan, i, at);
    }
  }

  lemma InFlightAt<T>(p: Progress<T>, plan: Plan, i: nat, at: nat)
    requires OnSchedule(p, plan) && Full(p, plan)
    requires OnTime(plan, i, at) && at <= p.handled && i !in Settled(plan, p.handled)
    ensures plan.start + i in p.pending && i < |p.issued| && at == p.issued[i]
  {
    AskedBy(plan, i, at, p.handled);
    hide OnTime, Settled, Asked;
    InFlight(p, plan, plan.start + i);
    OnTimeOnce(plan, i, at, p.issued[i]);
    OnTimeOnce(plan, i, p.issued[i], at);
  }

  lemma AskedBy(plan: Plan, i: nat, at: nat, h: nat)
    requires OnTime(plan, i, at) && at <= h <= |plan.inbox|
    ensures i < Asked(plan, h)
  {
    hide Asked;
    AskedMonotone(plan, at, h);
  }

  lemma PassedNothing<T>(plan: Plan, files: seq<string>, env: Env<T>)
    requires plan.inbox == env.inbox && |files| == plan.total
    ensures Passed(0, 0, plan, files, env)
  {
  }

  lemma PassedIssue<T>(n: nat, h: nat, plan: Plan, files: seq<string>, env: Env<T>)
    requires h <= |plan.inbox| && plan.inbox == env.inbox && |files| == plan.total && Passed(n, h, plan, files, env)
    requires env.opens(n) && env.sends(plan.start + n)
    ensures Passed(n + 1, h, plan, files, env)
  {
    hide NoneLate, Harmless, Unfinished;
  }

  lemma PassedRound<T>(p: Progress<T>, plan: Plan, readings: nat, files: seq<string>, env: Env<T>)
    requires Underway(p, plan, readings, files, env) && Full(p, plan) && p.handled < |plan.inbox|
    requires readings == Reading(plan, p.handled + 1, |p.issued|) && readings > 0
    requires InTime(p.pending, env.clock(readings - 1), env.timeout) && Harmless(plan, files, env, p.handled)
    requires Passed(|p.issued|, p.handled, plan, files, env)
    ensures Passed(|p.issued|, p.handled + 1, plan, files, env)
  {
    hide Underway, Unfinished, NoneLate, Harmless, Reading, Asked, InTime;
    RoundInTime(p, plan, readings, files, env);
  }

  lemma HarmlessReply<T>(p: Progress<T>, plan: Plan, files: seq<string>, env: Env<T>, i: nat)
    requires plan.inbox == env.inbox && |files| == plan.total && p.handled < |env.inbox| && i < |files|
    requires Answers(env.inbox[p.handled], plan.start + i)
    requires env.inbox[p.handled].error || Decode(files, env, p.handled, i).Some?
    ensures Harmless(plan, files, env, p.handled)
  {
    hide Asked, Settled;
  }

  lemma HarmlessSkip<T>(p: Progress<T>, plan: Plan, readings: nat, files: seq<string>, env: Env<T>)
    requires Underway(p, plan, readings, files, env) && Full(p, plan) && p.handled < |env.inbox|
    requires env.inbox[p.handled].Response? ==> env.inbox[p.handled].id !in p.pending
    requires env.inbox[p.handled] == Other ==> env.handles(p.handled)
    requires env.inbox[p.handled] != EndOfStream && env.inbox[p.handled] != ReadError
    ensures Harmless(plan, files, env, p.handled)
  {
    hide OnSchedule, Tracks, Timed, Asked, Settled, Reading;
    if env.inbox[p.handled].Response? { InFlight(p, plan, env.inbox[p.handled].id); }
  }

  /** A scan that is complete has passed all there was. */
  lemma PassedSmooth<T>(p: Progress<T>, plan: Plan, readings: nat, files: seq<string>, env: Env<T>)
    requires Underway(p, plan, readings, files, env) && Complete(p, files)
    requires Passed(|p.issued|, p.handled, plan, files, env)
    ensures Smooth(plan, files, env)
  {
    hide Tracks, Timed, Reading, Asked, Unfinished, NoneLate, Harmless, Settled;
    Finished(p, plan);
    forall k: nat | p.handled <= k <= |plan.inbox| ensures !Unfinished(plan, k) { StaysFinished(plan, p.handled, k); }
  }

  lemma Finished<T>(p: Progress<T>, plan: Plan)
    requires OnSchedule(p, plan) && p.pending == map[] && |p.issued| == plan.total
    ensures !Unfinished(plan, p.handled)
  {
    hide Settled;
  }

  // ----- the scan

  /** The requests of a range of identifiers that are still in flight and whose identifier a
      cancellation can carry. */
  function Cancellable(pending: set<nat>, lo: nat, hi: nat): seq<nat>
    requires lo <= hi
    decreases hi - lo
  {
    if lo == hi then []
    else Cancellable(pending, lo, hi - 1) + if hi - 1 in pending && hi - 1 <= I32_MAX then [hi - 1] else []
  }

  lemma {:induction false} CancellableAre(pending: set<nat>, lo: nat, hi: nat)
    requires lo <= hi
    ensures forall id :: id in Cancellable(pending, lo, hi) <==> id in pending && lo <= id < hi && id <= I32_MAX
    ensures forall i, j | 0 <= i < j < |Cancellable(pending, lo, hi)| ::
            Cancellable(pending, lo, hi)[i] < Cancellable(pending, lo, hi)[j]
    decreases hi - lo
  {
    if lo < hi {
      CancellableAre(pending, lo, hi - 1);
      var before := Cancellable(pending, lo, hi - 1);
      forall i | 0 <= i < |before| ensures before[i] < hi - 1 { assert before[i] in before; }
    }
  }

  lemma Sizes<T>(p: Progress<T>, plan: Plan, readings: nat, files: seq<string>, env: Env<T>)
    requires Underway(p, plan, readings, files, env)
    ensures plan.inbox == env.inbox && plan.total == |files|
    ensures |p.issued| <= |files| && p.handled <= |env.inbox|
    ensures forall id | id in p.pending ::
            plan.start <= id < plan.start + |p.issued| && p.pending[id].index == id - plan.start
    ensures readings <= Reading(plan, p.handled + 1, Asked(plan, p.handled))
  {
  }

  lemma NothingUnderway<T>(plan: Plan, readings: nat, files: seq<string>, env: Env<T>)
    requires plan.inbox == env.inbox && plan.total == |files| && readings == plan.first
    ensures Underway(Progress<T>.Progress(map[], map[], [], 0), plan, readings, files, env)
    ensures readings == Reading(plan, 0, 0)
  {
    NothingOnSchedule<T>(plan);
  }

  /** The clock is read once more in a round. */
  lemma Later<T>(p: Progress<T>, plan: Plan, readings: nat, files: seq<string>, env: Env<T>)
    requires Underway(p, plan, readings, files, env)
    requires readings < Reading(plan, p.handled + 1, Asked(plan, p.handled))
    ensures Underway(p, plan, readings + 1, files, env)
  {
    TimedLater(p, plan, env.clock, readings, readings + 1);
  }

  lemma IssueUnderway<T>(p: Progress<T>, plan: Plan, files: seq<string>, env: Env<T>)
    requires p.handled <= |plan.inbox| && |p.issued| < |files| && |p.pending| < plan.limit
    requires var at := Start(plan, |p.issued|, p.handled); Underway(p, plan, at + 1, files, env)
    ensures var at := Start(plan, |p.issued|, p.handled);
            Underway(Issued(p, plan.start, env.clock(at)), plan, at + 1, files, env)
    ensures var p' := Issued(p, plan.start, env.clock(Start(plan, |p.issued|, p.handled)));
            |p'.pending| == |p.pending| + 1 && |p'.issued| == |p.issued| + 1 && p'.handled == p.handled
  {
    hide Tracks, OnSchedule, Timed, Start, Reading, Asked;
    var started := env.clock(Start(plan, |p.issued|, p.handled));
    Issue(p, plan.start, files, env, started);
    IssueOnSchedule(p, plan, started);
    IssueTimed(p, plan, env.clock);
  }

  /** What the message `at` says about file `i`: nothing if it is an error. */
  function Decode<T>(files: seq<string>, env: Env<T>, at: nat, i: nat): Option<T>
    requires at < |env.inbox| && env.inbox[at].Response? && i < |files|
  {
    if env.inbox[at].error then None else env.decode(files[i], env.inbox[at].result)
  }

  lemma ReplyUnderway<T>(p: Progress<T>, plan: Plan, readings: nat, files: seq<string>, env: Env<T>, i: nat)
    requires Underway(p, plan, readings, files, env) && p.handled < |env.inbox| && Full(p, plan)
    requires i < |files| && plan.start + i in p.pending && Answers(env.inbox[p.handled], plan.start + i)
    requires readings == Reading(plan, p.handled + 1, |p.issued|)
    ensures var x := Decode(files, env, p.handled, i);
            var p' := Received(p, plan.start + i, i, x);
            && Underway(p', plan, readings, files, env) && p'.issued == p.issued && |p'.pending| < |p.pending|
            && (!env.inbox[p.handled].error && x == None ==> Justified(CannotDecode(i), p', plan, readings, files, env))
  {
    hide Tracks, OnSchedule, Timed, Reading, Asked, Settled;
    var x := Decode(files, env, p.handled, i);
    Replied(p, plan.start, files, env, Received(p, plan.start + i, i, x));
    ReplyOnSchedule(p, plan, i, x);
    ReplyTimed(p, plan, env.clock, readings, plan.start + i, i, x);
    NextRound(Received(p, plan.start + i, i, x), plan);
  }

  lemma IgnoreUnderway<T>(p: Progress<T>, plan: Plan, readings: nat, files: seq<string>, env: Env<T>)
    requires Underway(p, plan, readings, files, env) && p.handled < |env.inbox| && Full(p, plan)
    requires env.inbox[p.handled].Response? ==> env.inbox[p.handled].id !in p.pending
    requires readings == Reading(plan, p.handled + 1, |p.issued|)
    ensures Underway(p.(handled := p.handled + 1), plan, readings, files, env)
  {
    hide Tracks, OnSchedule, Timed, Reading, Asked, Settled;
    Ignore(p, plan.start, files, env);
    IgnoreOnSchedule(p, plan);
    IgnoreTimed(p, plan, env.clock, readings);
    NextRound(p.(handled := p.handled + 1), plan);
  }

  /** A request that a window with room is about to send: the clock may be read once more. */
  lemma OneMore<T>(p: Progress<T>, plan: Plan, readings: nat, files: seq<string>, env: Env<T>)
    requires Underway(p, plan, readings, files, env) && |p.pending| < plan.limit && |p.issued| < |files|
    requires p.handled <= |plan.inbox| && readings == Start(plan, |p.issued|, p.handled)
    ensures Underway(p, plan, readings + 1, files, env)
  {
    hide Tracks, OnSchedule, Timed, Idle, Asked;
    StillOpen(p, plan);
    OpenReadings(p, plan);
    TimedLater(p, plan, env.clock, readings, readings + 1);
  }

  lemma StillOpen<T>(p: Progress<T>, plan: Plan)
    requires OnSchedule(p, plan) && |p.pending| < plan.limit && |p.issued| < plan.total
    ensures |p.issued| < Asked(plan, p.handled)
  {
    hide Settled, OnTime;
  }

  lemma NextRound<T>(p: Progress<T>, plan: Plan)
    requires OnSchedule(p, plan)
    ensures p.handled <= |plan.inbox|
    ensures Reading(plan, p.handled, |p.issued|) <= Reading(plan, p.handled + 1, Asked(plan, p.handled))
  {
    hide Settled, OnTime;
  }

  lemma Unopened<T>(p: Progress<T>, plan: Plan, readings: nat, files: seq<string>, env: Env<T>)
    requires p.handled <= |plan.inbox| && |p.issued| < plan.total && |p.pending| < plan.limit && !env.opens(|p.issued|)
    ensures Justified(CannotOpen(|p.issued|), p, plan, readings, files, env)
  {
  }

  lemma Unsent<T>(p: Progress<T>, plan: Plan, readings: nat, files: seq<string>, env: Env<T>)
    requires p.handled <= |plan.inbox| && |p.issued| < plan.total && |p.pending| < plan.limit
    requires !env.sends(plan.start + |p.issued|)
    ensures Justified(CannotSend(plan.start + |p.issued|), p, plan, readings, files, env)
  {
  }

  lemma AskReadings(plan: Plan, h: nat, k: nat)
    requires h <= |plan.inbox|
    ensures Reading(plan, h, k) + 2 == Start(plan, k, h) && Start(plan, k, h) + 1 == Reading(plan, h, k + 1)
  {
    hide Idle;
  }

  /** A window with room leaves readings for another look at the clock. */
  lemma RoomLeft<T>(p: Progress<T>, plan: Plan, readings: nat, files: seq<string>, env: Env<T>)
    requires Underway(p, plan, readings, files, env) && p.handled <= |plan.inbox|
    requires readings <= Reading(plan, p.handled, |p.issued|) + 1
    ensures readings < Reading(plan, p.handled + 1, Asked(plan, p.handled))
  {
    hide Tracks, OnSchedule, Timed, Idle, Asked;
    OpenReadings(p, plan);
  }

  lemma FullUnderway<T>(p: Progress<T>, plan: Plan, readings: nat, files: seq<string>, env: Env<T>)
    requires Underway(p, plan, readings, files, env) && |p.pending| <= plan.limit && p.handled <= |plan.inbox|
    requires if |p.pending| < plan.limit
             then |p.issued| == |files| && readings == Reading(plan, p.handled, |p.issued|) + 1
             else readings == Reading(plan, p.handled, |p.issued|)
    ensures Full(p, plan) && readings + 2 == Reading(plan, p.handled + 1, |p.issued|)
  {
    hide Tracks, OnSchedule, Timed, Reading, Asked;
    FullOnSchedule(p, plan);
    RoundReadings(p, plan);
  }

  lemma AllAskedFor<T>(p: Progress<T>, plan: Plan, readings: nat, files: seq<string>, env: Env<T>)
    requires Underway(p, plan, readings, files, env) && p.pending == map[] && plan.limit > 0 && Full(p, plan)
    ensures Complete(p, files)
  {
    hide Tracks, OnSchedule, Timed, Reading, Asked, Full;
    AllAsked(p, plan);
  }

  lemma Sequentially<T>(p: Progress<T>, plan: Plan, readings: nat, files: seq<string>, env: Env<T>,
                        answers: seq<Answer>)
    requires Underway(p, plan, readings, files, env) && Complete(p, files)
    requires |answers| == |files| && Consistent(env.inbox, plan.start, answers)
    ensures InOrder(p.results, |files|) == Sequential(files, answers, env.decode, |files|)
  {
    hide Tracks, OnSchedule, Timed, Reading, Asked;
    WindowIsSequential(p, plan.start, files, env, answers);
  }

  /** A complete scan has collected what the sequential one does from the answers that settle the
      files. */
  lemma CollectsSettling<T>(p: Progress<T>, plan: Plan, readings: nat, files: seq<string>, env: Env<T>)
    returns (answers: seq<Answer>)
    requires Underway(p, plan, readings, files, env) && Complete(p, files)
    ensures Settling(plan, answers) && InOrder(p.results, |files|) == Sequential(files, answers, env.decode, |files|)
  {
    hide Tracks, OnSchedule, Timed, Reading, Asked, ReplyAt, AnswerTo, SettledWith, InOrder, Sequential;
    AllReplied(p, plan.start, files, env);
    answers := seq(|files|, i requires 0 <= i < |files| && i < |p.issued| && p.handled <= |env.inbox|
                                       && ReplyAt(p, plan.start, env, i).Some? => AnswerTo(p, plan.start, env, i));
    WindowCollects(p, plan.start, files, env, answers, |files|);
    forall i: nat | i < plan.total ensures SettledWith(plan, i, answers[i]) { FirstReplySettles(p, plan, env, i); }
  }

  lemma FirstReplySettles<T>(p: Progress<T>, plan: Plan, env: Env<T>, i: nat)
    requires plan.inbox == env.inbox && OnSchedule(p, plan) && i < |p.issued| && ReplyAt(p, plan.start, env, i).Some?
    ensures SettledWith(plan, i, AnswerTo(p, plan.start, env, i))
  {
    hide FirstReply, Settled, Asked, Open, OnTime;
    assert OnTime(plan, i, p.issued[i]);
    FirstSettles(plan, i, p.issued[i], ReplyAt(p, plan.start, env, i).value);
    assert SettledBy(plan, i, ReplyAt(p, plan.start, env, i).value, AnswerTo(p, plan.start, env, i));
  }


  class Client<T> {
    var nextRequestId: nat
    var cancelled: seq<nat>      // the cancellations sent
    var readings: nat            // how often the clock has been read

    var pending: map<nat, Pending>
    var results: map<nat, T>
    var next: nat                // how many files have been asked for
    var received: nat            // how many messages have been handled
    ghost var issued: seq<nat>   // for each file asked for, how many messages had been handled
    ghost var most: nat          // the largest number of requests that were in flight

    ghost function At(): Progress<T>
      reads this`pending, this`results, this`issued, this`received
    {
      Progress(pending, results, issued, received)
    }

    /** A scan that goes on: nothing has failed, and identifiers and files are counted alike. */
    ghost predicate Scanning(plan: Plan, files: seq<string>, env: Env<T>)
      reads this`pending, this`results, this`issued, this`received, this`readings, this`next, this`nextRequestId,
        this`most
    {
      && Underway(At(), plan, readings, files, env)
      && received <= |plan.inbox| && Passed(|issued|, received, plan, files, env)
      && next == |issued| && nextRequestId == plan.start + next
      && |pending| <= most <= plan.limit
    }

    /** What a failed scan leaves: the cause, and a request that could not be sent has used up its
        identifier. */
    ghost predicate GaveUp(cause: Cause, plan: Plan, files: seq<string>, env: Env<T>)
      reads this`pending, this`results, this`issued, this`received, this`readings, this`nextRequestId, this`most
    {
      && Underway(At(), plan, readings, files, env)
      && Justified(cause, At(), plan, readings, files, env)
      && nextRequestId == plan.start + |issued| + (if cause.CannotSend? then 1 else 0)
      && most <= plan.limit
    }

    /** `document_window_timeout`: it fails exactly if, at this reading of the clock, some request in
        flight has used up its time. */
    method WindowTimeout(env: Env<T>) returns (expired: Option<Cause>)
      modifies this`readings
      ensures readings == old(readings) + 1
      ensures expired == None <==> InTime(pending, env.clock(old(readings)), env.timeout)
      ensures expired.Some? ==>
                && expired.value.TimedOut? && expired.value.now == env.clock(old(readings))
                && expired.value.id in pending
                && Elapsed(pending[expired.value.id].started, expired.value.now) >= env.timeout
    {
      var now := env.clock(readings);
      readings := readings + 1;
      var ids := pending.Keys;
      while ids != {}
        invariant ids <= pending.Keys
        invariant forall id | id in pending && id !in ids :: Elapsed(pending[id].started, now) < env.timeout
      {
        var id :| id in ids;
        if Elapsed(pending[id].started, now) >= env.timeout { return Some(TimedOut(id, now)); }
        ids := ids - {id};
      }
      return None;
    }

    /** The same within a round of a scan. */
    method CheckWindow(ghost plan: Plan, files: seq<string>, env: Env<T>) returns (expired: Option<Cause>)
      requires Scanning(plan, files, env) && received <= |plan.inbox|
      requires readings < Reading(plan, received + 1, Asked(plan, received))
      modifies this`readings
      ensures readings == old(readings) + 1 && Scanning(plan, files, env)
      ensures expired == None <==> InTime(pending, env.clock(old(readings)), env.timeout)
      ensures expired.Some? ==> GaveUp(expired.value, plan, files, env)
    {
      hide Underway, Passed, InTime, Reading, Asked;
      expired := WindowTimeout(env);
      Later(At(), plan, readings - 1, files, env);
    }

    /** The entry of a request that was sent. */
    method Register(ghost start: nat, id: nat, started: nat)
      requires id == start + |issued| && next == |issued|
      modifies this`pending, this`issued, this`next, this`most
      ensures At() == Issued(old(At()), start, started)
      ensures next == old(next) + 1
      ensures most == if |pending| > old(most) then |pending| else old(most)
    {
      pending := pending[id := Pending(next, started)];
      issued := issued + [received];
      next := next + 1;
      most := if |pending| > most then |pending| else most;
    }

    /** The request for the next file is sent under a fresh id. */
    method Send(ghost plan: Plan, files: seq<string>, env: Env<T>) returns (failure: Option<Cause>)
      requires Scanning(plan, files, env) && received <= |plan.inbox| && |pending| < plan.limit && next < |files|
      requires readings == Start(plan, next, received) && env.opens(next)
      modifies this`pending, this`issued, this`next, this`most, this`readings, this`nextRequestId
      ensures failure == None <==> env.sends(old(nextRequestId))
      ensures nextRequestId == old(nextRequestId) + 1 && readings == old(readings) + 1
      ensures failure == None ==> Scanning(plan, files, env) && next == old(next) + 1
      ensures failure == None ==> At() == Issued(old(At()), plan.start, env.clock(old(readings)))
      ensures failure.Some? ==> GaveUp(failure.value, plan, files, env)
    {
      hide Underway, Justified, Passed, Reading, Asked;
      ghost var p := At();
      Sizes(p, plan, readings, files, env);
      OneMore(p, plan, readings, files, env);
      var started := env.clock(readings);
      readings := readings + 1;
      var id := nextRequestId;
      nextRequestId := nextRequestId + 1;
      if !env.sends(id) {
        Unsent(p, plan, readings, files, env);
        return Some(CannotSend(id));
      }
      IssueUnderway(p, plan, files, env);
      PassedIssue(next, received, plan, files, env);
      Register(plan.start, id, started);
      return None;
    }

    /** The request for the next file: it is opened, nothing is out of time, and it is sent. */
    method Ask(ghost plan: Plan, files: seq<string>, env: Env<T>) returns (failure: Option<Cause>)
      requires Scanning(plan, files, env) && received <= |plan.inbox| && |pending| < plan.limit && next < |files|
      requires readings == Reading(plan, received, next) + 1
      modifies this`pending, this`issued, this`next, this`most, this`readings, this`nextRequestId
      ensures failure == None <==>
                env.opens(old(next)) && InTime(old(pending), env.clock(old(readings)), env.timeout)
                  && env.sends(old(nextRequestId))
      ensures failure == None ==>
                && Scanning(plan, files, env) && next == old(next) + 1 && readings == Reading(plan, received, next)
                && At() == Issued(old(At()), plan.start, env.clock(old(readings) + 1))
      ensures failure.Some? ==> GaveUp(failure.value, plan, files, env)
    {
      hide Underway, Justified, Passed, InTime, Idle, Asked, Issued, Reading;
      Sizes(At(), plan, readings, files, env);
      if !env.opens(next) {
        Unopened(At(), plan, readings, files, env);
        return Some(CannotOpen(next));
      }
      AskReadings(plan, received, next);
      RoomLeft(At(), plan, readings, files, env);
      failure := CheckWindow(plan, files, env);
      if failure.Some? { return; }
      failure := Send(plan, files, env);
    }

    /** The filling loop: it asks for the next files until the window is full. */
    method Fill(ghost plan: Plan, files: seq<string>, limit: nat, env: Env<T>) returns (failure: Option<Cause>)
      requires Scanning(plan, files, env) && limit == plan.limit && received <= |plan.inbox|
      requires readings == Reading(plan, received, next)
      modifies this`pending, this`issued, this`next, this`most, this`readings, this`nextRequestId
      ensures failure == None ==>
                Scanning(plan, files, env) && Full(At(), plan) && readings + 2 == Reading(plan, received + 1, next)
      ensures failure.Some? ==> GaveUp(failure.value, plan, files, env)
    {
      hide Underway, Justified, Passed, InTime, Reading, Asked, Issued, Full;
      Sizes(At(), plan, readings, files, env);
      while |pending| < limit
        invariant Scanning(plan, files, env) && readings == Reading(plan, received, next) && next <= |files|
        decreases |files| - next
      {
        RoomLeft(At(), plan, readings, files, env);
        failure := CheckWindow(plan, files, env);
        if failure.Some? { return; }
        if next == |files| { break; }
        failure := Ask(plan, files, env);
        if failure.Some? { return; }
      }
      FullUnderway(At(), plan, readings, files, env);
      return None;
    }

    /** The entry of a reply that was decoded. */
    method Settle(id: nat, i: nat, decoded: Option<T>)
      modifies this`pending, this`received, this`results
      ensures At() == Received(old(At()), id, i, decoded)
      ensures received == old(received) + 1
    {
      pending := pending - {id};
      received := received + 1;
      if decoded.Some? { results := results[i := decoded.value]; }
    }

    /** The reply to a request in flight. */
    method Reply(ghost plan: Plan, files: seq<string>, env: Env<T>) returns (failure: Option<Cause>)
      requires Scanning(plan, files, env) && Full(At(), plan) && received < |env.inbox|
      requires env.inbox[received].Response? && env.inbox[received].id in pending
      requires readings == Reading(plan, received + 1, next) && readings > 0
      requires InTime(pending, env.clock(readings - 1), env.timeout)
      modifies this`pending, this`received, this`results
      ensures received == old(received) + 1
      ensures var i := env.inbox[old(received)].id - plan.start;
              && 0 <= i < |files|
              && At() == Received(old(At()), plan.start + i, i, Decode(files, env, old(received), i))
              && (failure == None <==> env.inbox[old(received)].error || Decode(files, env, old(received), i).Some?)
      ensures if failure == None then Scanning(plan, files, env) else GaveUp(failure.value, plan, files, env)
    {
      hide Underway, Justified, Passed, Harmless, InTime, Reading, Received, Full;
      Sizes(At(), plan, readings, files, env);
      var m := env.inbox[received];
      var i := pending[m.id].index;
      var decoded := if m.error then None else env.decode(files[i], m.result);
      ReplyUnderway(At(), plan, readings, files, env, i);
      if m.error || decoded.Some? {
        HarmlessReply(At(), plan, files, env, i);
        PassedRound(At(), plan, readings, files, env);
      }
      Settle(m.id, i, decoded);
      if !m.error && decoded.None? { return Some(CannotDecode(i)); }
      return None;
    }

    /** One message is handled: a reply as above, and anything else leaves the scan as it was; or the wait
        for a message ends. */
    method Receive(ghost plan: Plan, files: seq<string>, env: Env<T>) returns (failure: Option<Cause>)
      requires Scanning(plan, files, env) && Full(At(), plan) && pending != map[]
      requires readings + 2 == Reading(plan, received + 1, next) && received <= |env.inbox|
      modifies this`pending, this`received, this`results, this`readings
      ensures failure == None ==>
                && Scanning(plan, files, env) && readings == Reading(plan, received, next)
                && received == old(received) + 1
                && received <= |env.inbox|
                && var m := env.inbox[received - 1];
                   !(m.Response? && m.id in old(pending)) ==> pending == old(pending) && results == old(results)
      ensures failure.Some? ==> GaveUp(failure.value, plan, files, env)
    {
      hide Underway, Passed, InTime, Reading, Asked, Received;
      Sizes(At(), plan, readings, files, env);
      failure := CheckWindow(plan, files, env);
      if failure.Some? { return; }
      if received == |env.inbox| { return Some(Closed(received)); }
      var m := env.inbox[received];
      if m == EndOfStream || m == ReadError { return Some(Closed(received)); }
      failure := CheckWindow(plan, files, env);
      if failure.Some? { return; }
      if m.Response? && m.id in pending {
        failure := Reply(plan, files, env);
      } else {
        failure := Skip(plan, files, env);
      }
    }

    /** Any other message: a request or notification of the server is handled, a response to
        something else is dropped. */
    method Skip(ghost plan: Plan, files: seq<string>, env: Env<T>) returns (failure: Option<Cause>)
      requires Scanning(plan, files, env) && Full(At(), plan) && received < |env.inbox|
      requires env.inbox[received].Response? ==> env.inbox[received].id !in pending
      requires env.inbox[received] != EndOfStream && env.inbox[received] != ReadError && pending != map[]
      requires readings == Reading(plan, received + 1, next) && readings > 0
      requires InTime(pending, env.clock(readings - 1), env.timeout)
      modifies this`received
      ensures failure == None <==> (env.inbox[old(received)] == Other ==> env.handles(old(received)))
      ensures failure == None ==> Scanning(plan, files, env) && received == old(received) + 1
      ensures failure.Some? ==> GaveUp(failure.value, plan, files, env)
    {
      hide Underway, Passed, Harmless, InTime, Reading, Full;
      Sizes(At(), plan, readings, files, env);
      if env.inbox[received] == Other && !env.handles(received) { return Some(CannotHandle(received)); }
      HarmlessSkip(At(), plan, readings, files, env);
      PassedRound(At(), plan, readings, files, env);
      IgnoreUnderway(At(), plan, readings, files, env);
      received := received + 1;
      return None;
    }

    /** `collect_document_symbols`. */
    method Collect(ghost plan: Plan, files: seq<string>, limit: nat, env: Env<T>) returns (r: Outcome<T>)
      requires limit > 0 && plan == Plan(env.inbox, nextRequestId, limit, |files|, readings)
      modifies this
      ensures cancelled == old(cancelled)
      ensures r.Found? ==> Scanning(plan, files, env) && Complete(At(), files) && r.list == InOrder(results, |files|)
      ensures r.Failed? ==> GaveUp(r.cause, plan, files, env)
    {
      hide Underway, Reading, Asked, Full, Justified, Passed;
      pending, results, next, received, issued, most := map[], map[], 0, 0, [], 0;
      PassedNothing(plan, files, env);
      NothingUnderway<T>(plan, readings, files, env);
      while true
        invariant Scanning(plan, files, env) && cancelled == old(cancelled)
        invariant received <= |env.inbox| && readings == Reading(plan, received, next)
        decreases |env.inbox| - received
      {
        var failure := Fill(plan, files, limit, env);
        if failure.Some? { return Outcome.Failed(failure.value); }
        if pending == map[] {
          AllAskedFor(At(), plan, readings, files, env);
          return Found(InOrder(results, |files|));
        }
        failure := Receive(plan, files, env);
        if failure.Some? { return Outcome.Failed(failure.value); }
      }
    }

    /** The cancellation of what is in flight, in ascending order. */
    method CancelPending(start: nat)
      requires start <= nextRequestId
      modifies this`cancelled
      ensures cancelled == old(cancelled) + Cancellable(pending.Keys, start, nextRequestId)
    {
      for id := start to nextRequestId
        invariant cancelled == old(cancelled) + Cancellable(pending.Keys, start, id)
      {
        if id in pending && id <= I32_MAX { cancelled := cancelled + [id]; }
      }
    }

    /** `document_symbols_window`: a success is the list of the sequential scan over the answers that
        settle the files, with never more than `limit` requests in flight. A failure has a cause
        where the scan stands, and exactly the requests that are sent and unanswered are cancelled,
        as far as their identifiers can be. On a clock that never goes back, the scan succeeds
        exactly in a world without failures. */
    method DocumentSymbolsWindow(files: seq<string>, limit: nat, env: Env<T>) returns (r: Outcome<T>)
      requires limit > 0
      modifies this
      ensures var plan := Plan(env.inbox, old(nextRequestId), limit, |files|, old(readings));
              && (r.Found? ==> Scanning(plan, files, env) && Complete(At(), files) && cancelled == old(cancelled))
              && (r.Found? ==> exists answers ::
                                 Settling(plan, answers) && r.list == Sequential(files, answers, env.decode, |files|))
              && (r.Failed? ==> GaveUp(r.cause, plan, files, env)
                                && cancelled == old(cancelled)
                                   + Cancellable(pending.Keys, old(nextRequestId), nextRequestId))
              && (Monotone(env.clock) ==> (r.Found? <==> Smooth(plan, files, env)))
      ensures r.Found? ==> forall answers: seq<Answer>
                             | |answers| == |files| && Consistent(env.inbox, old(nextRequestId), answers) ::
                             r.list == Sequential(files, answers, env.decode, |files|)
    {
      hide Underway, Justified, Passed, Smooth, Monotone, Consistent, Settling, Sequential, InOrder, Complete;
      ghost var plan := Plan(env.inbox, nextRequestId, limit, |files|, readings);
      ghost var monotone := Monotone(env.clock);
      var start := nextRequestId;
      r := Collect(plan, files, limit, env);
      Sizes(At(), plan, readings, files, env);
      if r.Failed? {
        if monotone { NotSmooth(r.cause, At(), plan, readings, files, env); }
        CancelPending(start);
      } else {
        PassedSmooth(At(), plan, readings, files, env);
        ghost var settling := CollectsSettling(At(), plan, readings, files, env);
        forall answers: seq<Answer> | |answers| == |files| && Consistent(env.inbox, start, answers)
          ensures r.list == Sequential(files, answers, env.decode, |files|)
        {
          Sequentially(At(), plan, readings, files, env, answers);
        }
      }
    }
  }
}
