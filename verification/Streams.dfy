/** Messages between the daemon, its clients and the language server, and what a sequence of
    messages written to a server or a client amounts to. */
module Streams {
  import opened Json
  import opened Protocol

  /** The members of a JSON-RPC message that the coordinator looks at. */
  datatype Method =
    | Missing        // no "method" member
    | NotAString     // a "method" member that is not a string
    | Initialize | Initialized | ShutdownMethod | ExitMethod | StopMethod
    | DidOpen | DidClose
    | Registration   // client/registerCapability or client/unregisterCapability
    | Other

  datatype Message = Message(
    id: Option<Value>,
    name: Method,
    params: Option<Value>,
    uri: Option<string>,      // params.textDocument.uri when it is a string
    error: bool,              // has an "error" member
    result: Option<Value>,
    decodable: bool)          // a status or progress notification decodes
  {
    function RequestId(): Option<Value> { if name != Missing then id else None }
    function ResponseId(): Option<Value> { if name == Missing then id else None }
    /** `stop_request_id`. */
    function StopId(): Option<Value> { if name == StopMethod then id else None }
  }

  /** What the daemon writes to a language server, by origin. */
  datatype ToServer =
    | InitializeRequest(id: Value, params: Value)
    | InitializedNotice(m: Message)     // the notification that completes a forwarded initialize
    | Forwarded(m: Message)             // anything else a ready client sends
    | Answer(m: Message)                // a client's answer to a server request
    | CloseDocument(uri: string)
    | CancelRequest(id: Value)
    | CancelledAnswer(id: Value)        // answered for a client that left
    | LocalAnswer(id: Value)            // answered by the daemon itself
    | ShutdownRequest
    | ExitNotice

  /** What the daemon writes to a client, by origin. */
  datatype ToClient =
    | Routed(key: string)                        // a server's response to a forwarded request
    | Relayed(m: Message)                        // a server request or notification
    | CachedInitialize(id: Value, result: Value)
    | Success(id: Value)
    | Failure(id: Value)
    | BackgroundReady

  function InitSent(log: seq<ToServer>): bool {
    log != [] && (InitSent(log[..|log| - 1]) || log[|log| - 1].InitializeRequest?)
  }

  function InitializedSent(log: seq<ToServer>): bool {
    log != [] && (InitializedSent(log[..|log| - 1]) || log[|log| - 1].InitializedNotice?)
  }

  function ForwardedAny(log: seq<ToServer>): bool {
    log != [] && (ForwardedAny(log[..|log| - 1]) || log[|log| - 1].Forwarded?)
  }

  /** The first initialize request of a stream. */
  function FirstInit(log: seq<ToServer>): Option<(Value, Value)> {
    if log == [] then None else
      var before, last := FirstInit(log[..|log| - 1]), log[|log| - 1];
      if before == None && last.InitializeRequest? then Some((last.id, last.params)) else before
  }

  /** Whether `e` may follow `log`: one initialize, one initialized after it, and no client
      traffic before the initialize. */
  predicate MayFollow(log: seq<ToServer>, e: ToServer) {
    match e
    case InitializeRequest(_, _) => !InitSent(log)
    case InitializedNotice(_) => InitSent(log) && !InitializedSent(log)
    case Forwarded(_) => InitSent(log)
    case CloseDocument(_) => InitSent(log)
    case CancelRequest(_) => InitSent(log)
    case _ => true
  }

  predicate InitOrder(log: seq<ToServer>) {
    log == [] || (InitOrder(log[..|log| - 1]) && MayFollow(log[..|log| - 1], log[|log| - 1]))
  }

  /** How one message changes the documents a server holds open. */
  function OpenStep(before: set<string>, e: ToServer): set<string> {
    if e.CloseDocument? then before - {e.uri}
    else if e.Forwarded? && e.m.uri.Some? && e.m.name == DidOpen then before + {e.m.uri.value}
    else if e.Forwarded? && e.m.uri.Some? && e.m.name == DidClose then before - {e.m.uri.value}
    else before
  }

  /** The documents a server holds open after reading a stream. */
  function OpenAt(log: seq<ToServer>): set<string> {
    if log == [] then {} else OpenStep(OpenAt(log[..|log| - 1]), log[|log| - 1])
  }

  function AnsweredStep(before: multiset<string>, e: ToServer): multiset<string> {
    if e.Answer? && e.m.id.Some? then before + multiset{IdKey(e.m.id.value)}
    else if e.CancelledAnswer? || e.LocalAnswer? then before + multiset{IdKey(e.id)}
    else before
  }

  /** The ids of server requests that a stream answers, with multiplicity. */
  function Answered(log: seq<ToServer>): multiset<string> {
    if log == [] then multiset{} else AnsweredStep(Answered(log[..|log| - 1]), log[|log| - 1])
  }

  function RequestStep(before: set<string>, e: ToServer): set<string> {
    if e.InitializeRequest? then before + {IdKey(e.id)}
    else if e.Forwarded? && e.m.RequestId().Some? then before + {IdKey(e.m.RequestId().value)}
    else before
  }

  /** The ids of the client requests that a stream puts to the server. */
  function RequestKeys(log: seq<ToServer>): set<string> {
    if log == [] then {} else RequestStep(RequestKeys(log[..|log| - 1]), log[|log| - 1])
  }

  /** The responses that were routed to a client, with multiplicity. */
  function Delivered(log: seq<ToClient>): multiset<string> {
    if log == [] then multiset{} else
      var before := Delivered(log[..|log| - 1]);
      if log[|log| - 1].Routed? then before + multiset{log[|log| - 1].key} else before
  }

  /** Whether a server reads this as a message of the given name that a session sent after its
      initialize: `initialized` when the handshake ends, or anything a ready client sends. */
  function Weight(name: Method, e: ToServer): nat {
    if e.Forwarded? then (if e.m.name == name then 1 else 0)
    else if e.InitializedNotice? && name == Initialized then 1
    else 0
  }

  /** How often a server reads such a message. */
  function Tally(name: Method, log: seq<ToServer>): nat {
    if log == [] then 0 else Tally(name, log[..|log| - 1]) + Weight(name, log[|log| - 1])
  }

  /** What the daemon writes to a server for its sessions and in answer to it: all but the settlement of
      departures and the shutdown. */
  predicate OfSession(e: ToServer) {
    e.InitializeRequest? || e.InitializedNotice? || e.Forwarded? || e.Answer? || e.LocalAnswer?
  }

  function Traffic(log: seq<ToServer>): seq<ToServer> {
    if log == [] then []
    else Traffic(log[..|log| - 1]) + if OfSession(log[|log| - 1]) then [log[|log| - 1]] else []
  }

  /** What the daemon writes to a server to shut it down. */
  predicate IsLetter(e: ToServer) { e.ShutdownRequest? || e.ExitNotice? }

  function Letters(log: seq<ToServer>): seq<ToServer> {
    if log == [] then []
    else Letters(log[..|log| - 1]) + if IsLetter(log[|log| - 1]) then [log[|log| - 1]] else []
  }

  // ----- one step of each fold

  lemma Letters1(log: seq<ToServer>, e: ToServer)
    ensures Letters(log + [e]) == Letters(log) + if IsLetter(e) then [e] else []
  {
    assert (log + [e])[..|log|] == log;
  }

  lemma Traffic1(log: seq<ToServer>, e: ToServer)
    ensures Traffic(log + [e]) == Traffic(log) + if OfSession(e) then [e] else []
  {
    assert (log + [e])[..|log|] == log;
  }

  lemma {:induction false} TallyOfTraffic(name: Method, log: seq<ToServer>)
    ensures Tally(name, Traffic(log)) == Tally(name, log)
  {
    if log != [] {
      hide Traffic, Tally, Weight, OfSession;
      var front, e := log[..|log| - 1], log[|log| - 1];
      TallyOfTraffic(name, front);
      assert log == front + [e];
      Traffic1(front, e);
      Tally1(name, front, e);
      if OfSession(e) {
        Tally1(name, Traffic(front), e);
      } else {
        Weightless(name, e);
        assert Traffic(front) + [] == Traffic(front);
      }
    }
  }

  lemma Weightless(name: Method, e: ToServer)
    requires !OfSession(e)
    ensures Weight(name, e) == 0
  {
  }

  lemma {:induction false} TallyAdds(name: Method, a: seq<ToServer>, b: seq<ToServer>)
    ensures Tally(name, a + b) == Tally(name, a) + Tally(name, b)
  {
    if b == [] {
      assert a + b == a;
    } else {
      TallyAdds(name, a, b[..|b| - 1]);
      assert a + b == (a + b[..|b| - 1]) + [b[|b| - 1]];
      Tally1(name, a + b[..|b| - 1], b[|b| - 1]);
    }
  }

  lemma Init1(log: seq<ToServer>, e: ToServer)
    ensures InitSent(log + [e]) == (InitSent(log) || e.InitializeRequest?)
    ensures InitializedSent(log + [e]) == (InitializedSent(log) || e.InitializedNotice?)
    ensures ForwardedAny(log + [e]) == (ForwardedAny(log) || e.Forwarded?)
  {
    assert (log + [e])[..|log|] == log;
  }

  lemma FirstInit1(log: seq<ToServer>, e: ToServer)
    ensures FirstInit(log + [e])
         == if FirstInit(log) == None && e.InitializeRequest? then Some((e.id, e.params)) else FirstInit(log)
  {
    assert (log + [e])[..|log|] == log;
  }

  lemma InitOrder1(log: seq<ToServer>, e: ToServer)
    ensures InitOrder(log + [e]) == (InitOrder(log) && MayFollow(log, e))
  {
    assert (log + [e])[..|log|] == log;
  }

  lemma OpenAt1(log: seq<ToServer>, e: ToServer)
    ensures OpenAt(log + [e]) == OpenStep(OpenAt(log), e)
  {
    assert (log + [e])[..|log|] == log;
  }

  lemma Answered1(log: seq<ToServer>, e: ToServer)
    ensures Answered(log + [e]) == AnsweredStep(Answered(log), e)
  {
    assert (log + [e])[..|log|] == log;
  }

  lemma Delivered1(log: seq<ToClient>, e: ToClient)
    ensures Delivered(log + [e]) == if e.Routed? then Delivered(log) + multiset{e.key} else Delivered(log)
  {
    assert (log + [e])[..|log|] == log;
  }

  lemma Tally1(name: Method, log: seq<ToServer>, e: ToServer)
    ensures Tally(name, log + [e]) == Tally(name, log) + Weight(name, e)
  {
    assert (log + [e])[..|log|] == log;
  }
}
