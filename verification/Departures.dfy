/** What a departing client leaves to the server, message by message. */
module Departures {
  import opened Json
  import opened Order
  import opened Protocol
  import opened Streams
  import opened Coordinator
  import opened Invariants
  import opened DepartureProofs
  import opened Turns

  /** Of messages offered one after the other, those that are accepted. */
  function Taken(es: seq<ToServer>, from: nat, env: Env): seq<ToServer> {
    if es == [] then []
    else Taken(es[..|es| - 1], from, env) + if env.write(from + |es| - 1) then [es[|es| - 1]] else []
  }

  lemma {:induction false} TakenTwice(a: seq<ToServer>, b: seq<ToServer>, from: nat, env: Env)
    ensures Taken(a + b, from, env) == Taken(a, from, env) + Taken(b, from + |a|, env)
  {
    if b == [] {
      assert a + b == a;
    } else {
      TakenTwice(a, b[..|b| - 1], from, env);
      assert (a + b)[..|a + b| - 1] == a + b[..|b| - 1];
    }
  }

  /** The state after messages were offered to the server. */
  predicate Offered(s: State, s': State, es: seq<ToServer>, env: Env) {
    && s.upstream.Some? && s'.upstream.Some? && s'.attempts == s.attempts + |es|
    && s'.upstream.value.log.sent == s.upstream.value.log.sent + Taken(es, s.attempts, env)
  }

  lemma OfferedTwice(a: State, b: State, c: State, d: seq<ToServer>, e: seq<ToServer>, env: Env)
    requires Offered(a, b, d, env) && Offered(b, c, e, env)
    ensures Offered(a, c, d + e, env)
  {
    hide Taken;
    TakenTwice(d, e, a.attempts, env);
    var sent := a.upstream.value.log.sent;
    assert sent + Taken(d, a.attempts, env) + Taken(e, b.attempts, env)
        == sent + (Taken(d, a.attempts, env) + Taken(e, b.attempts, env));
  }

  lemma OfferedOne(s: State, e: ToServer, env: Env)
    requires s.upstream.Some?
    ensures Offered(s, WriteUpstream(s, e, env).s, [e], env)
    ensures WriteUpstream(s, e, env).s.orphaned == s.orphaned
  {
    assert [e][..0] == [];
  }

  lemma OfferedNone(s: State, env: Env)
    requires s.upstream.Some?
    ensures Offered(s, s, [], env)
  {
  }

  function Closing(uris: seq<string>): seq<ToServer> {
    if uris == [] then [] else [CloseDocument(uris[0])] + Closing(uris[1..])
  }

  function Cancelling(keys: seq<string>): seq<ToServer> {
    if keys == [] then [] else [CancelRequest(RequestIdFromKey(keys[0]))] + Cancelling(keys[1..])
  }

  function Refusing(requests: map<string, Value>, keys: seq<string>): seq<ToServer>
    requires forall k | k in keys :: k in requests
  {
    if keys == [] then [] else [CancelledAnswer(requests[keys[0]])] + Refusing(requests, keys[1..])
  }

  lemma {:induction false} CloseOffers(s: State, uris: seq<string>, env: Env)
    requires s.upstream.Some? && CloseAll(s, uris, env).ok
    ensures Offered(s, CloseAll(s, uris, env).s, Closing(uris), env) && CloseAll(s, uris, env).s.orphaned == s.orphaned
    decreases |uris|
  {
    hide Offered, WriteUpstream;
    if uris == [] {
      OfferedNone(s, env);
    } else {
      var s1 := WriteUpstream(s, CloseDocument(uris[0]), env).s;
      OfferedOne(s, CloseDocument(uris[0]), env);
      Attached(s, s1, [CloseDocument(uris[0])], env);
      CloseOffers(s1, uris[1..], env);
      OfferedTwice(s, s1, CloseAll(s1, uris[1..], env).s, [CloseDocument(uris[0])], Closing(uris[1..]), env);
    }
  }

  lemma Attached(s: State, s': State, es: seq<ToServer>, env: Env)
    requires Offered(s, s', es, env)
    ensures s'.upstream.Some?
  {
  }

  lemma {:induction false} CancelOffers(s: State, keys: seq<string>, env: Env)
    requires s.upstream.Some? && CancelAll(s, keys, env).ok
    ensures Offered(s, CancelAll(s, keys, env).s, Cancelling(keys), env)
    ensures CancelAll(s, keys, env).s.orphaned == s.orphaned + set k | k in keys
    decreases |keys|
  {
    hide Offered, WriteUpstream, RequestIdFromKey, IsNumberOrString;
    if keys == [] {
      OfferedNone(s, env);
    } else {
      var e := CancelRequest(RequestIdFromKey(keys[0]));
      var s1 := WriteUpstream(s, e, env).s;
      var s2 := s1.(orphaned := s1.orphaned + {keys[0]});
      OfferedOne(s, e, env);
      Attached(s, s1, [e], env);
      CancelOffers(s2, keys[1..], env);
      OfferedOn(s, s1, s2, [e], env);
      OfferedTwice(s, s2, CancelAll(s2, keys[1..], env).s, [e], Cancelling(keys[1..]), env);
      assert keys == [keys[0]] + keys[1..];
    }
  }

  lemma OfferedOn(s: State, s1: State, s2: State, es: seq<ToServer>, env: Env)
    requires Offered(s, s1, es, env) && s2.upstream == s1.upstream && s2.attempts == s1.attempts
    ensures Offered(s, s2, es, env)
  {
  }

  lemma {:induction false} AnswerOffers(s: State, requests: map<string, Value>, keys: seq<string>, env: Env)
    requires s.upstream.Some? && forall k | k in keys :: k in requests
    ensures var s' := AnswerAll(s, requests, keys, env);
            Offered(s, s', Refusing(requests, keys), env) && s'.orphaned == s.orphaned
    decreases |keys|
  {
    hide Offered, WriteUpstream;
    if keys == [] {
      OfferedNone(s, env);
    } else {
      var e := CancelledAnswer(requests[keys[0]]);
      var s1 := WriteUpstream(s, e, env).s;
      OfferedOne(s, e, env);
      Attached(s, s1, [e], env);
      AnswerOffers(s1, requests, keys[1..], env);
      OfferedTwice(s, s1, AnswerAll(s1, requests, keys[1..], env), [e], Refusing(requests, keys[1..]), env);
    }
  }

  /** Everything a departing client leaves to the server: each document it has open is closed, each
      request it waits for is cancelled and its response will be dropped, and each request that waits
      for it is answered. */
  lemma DepartureOffers(s: State, c: Client, env: Env)
    requires s.upstream.Some? && Settle(s, c, env).ok
    ensures var s' := Settle(s, c, env).s;
            && Offered(s, s', Closing(SortedKeys(c.openDocuments)) + Cancelling(SortedKeys(c.forwarded))
                              + Refusing(c.serverRequests, SortedKeys(c.serverRequests.Keys)), env)
            && s'.orphaned == s.orphaned + c.forwarded
  {
    hide Offered, CloseAll, CancelAll, AnswerAll;
    var docs, asked := SortedKeys(c.openDocuments), SortedKeys(c.forwarded);
    var open := SortedKeys(c.serverRequests.Keys);
    var s1 := CloseAll(s, docs, env).s;
    CloseOffers(s, docs, env);
    Attached(s, s1, Closing(docs), env);
    var s2 := CancelAll(s1, asked, env).s;
    CancelOffers(s1, asked, env);
    Attached(s1, s2, Cancelling(asked), env);
    OfferedTwice(s, s1, s2, Closing(docs), Cancelling(asked), env);
    AnswerOffers(s2, c.serverRequests, open, env);
    OfferedTwice(s, s2, AnswerAll(s2, c.serverRequests, open, env), Closing(docs) + Cancelling(asked),
                 Refusing(c.serverRequests, open), env);
    assert (set k | k in asked) == c.forwarded;
  }

  // ----- which messages these are

  lemma {:induction false} ClosingHolds(uris: seq<string>)
    ensures |Closing(uris)| == |uris| && forall e :: e in Closing(uris) <==> e.CloseDocument? && e.uri in uris
  {
    if uris != [] {
      ClosingHolds(uris[1..]);
      assert uris == [uris[0]] + uris[1..];
    }
  }

  /** Requests are known by their keys, so what is cancelled is what was asked. */
  lemma {:induction false} CancellingHolds(keys: seq<string>, id: Value)
    ensures |Cancelling(keys)| == |keys| && (IdKey(id) in keys ==> CancelRequest(id) in Cancelling(keys))
    ensures forall e | e in Cancelling(keys) :: e.CancelRequest? && exists k | k in keys :: e.id == RequestIdFromKey(k)
  {
    hide IdKey, RequestIdFromKey;
    if keys != [] {
      CancellingHolds(keys[1..], id);
      IdKeyInverse(id);
      forall e | e in Cancelling(keys) ensures e.CancelRequest? && exists k | k in keys :: e.id == RequestIdFromKey(k) {
        if e in Cancelling(keys[1..]) {
          var k :| k in keys[1..] && e.id == RequestIdFromKey(k);
          assert k in keys;
        } else {
          assert keys[0] in keys;
        }
      }
    }
  }

  lemma {:induction false} RefusingHolds(requests: map<string, Value>, keys: seq<string>)
    requires forall k | k in keys :: k in requests
    ensures |Refusing(requests, keys)| == |keys|
    ensures forall k | k in keys :: CancelledAnswer(requests[k]) in Refusing(requests, keys)
  {
    if keys != [] {
      RefusingHolds(requests, keys[1..]);
      assert keys == [keys[0]] + keys[1..];
    }
  }

  // ----- what becomes of the cancelled requests

  /** The response to a request whose client has left is dropped, once: the next response with that id
      belongs to the client that waits for it. */
  lemma LateAnswerDropped(s: State, m: Message, next: Message, now: nat, later: nat, env: Env)
    requires s.upstream.Some? && Answers(m) && IdKey(m.id.value) in s.orphaned
    requires Answers(next) && next.id == m.id
    ensures var key, from := IdKey(m.id.value), FromServer(s.upstream.value.generation);
            var r := Dispatch(s, Reader(from, Received(m)), now, env);
            var d := Dispatch(r.s, Reader(from, Received(next)), later, env);
            && r.ok && r.s.orphaned == s.orphaned - {key} && r.s.client == s.client
            && (d.s.client.Some? <==> s.client.Some?)
            && (s.client.Some? ==>
                  d.s.client.value.log.sent
                  == s.client.value.log.sent
                     + if key in s.client.value.forwarded && env.write(s.attempts) then [Routed(key)] else [])
  {
    hide IdKey, ExpirePending, HandleUpstreamMessage, Dispatch;
    ExpireIs(s, now);
    ExpireOrphans(s, now);
    AnswerIs(s, m, now, env);
    var r := HandleUpstreamMessage(ExpirePending(s, now), m, env);
    LateAnswer(ExpirePending(s, now), m, env);
    ExpireIs(r.s, later);
    ExpireOrphans(r.s, later);
    AnswerIs(r.s, next, later, env);
    OwnAnswer(ExpirePending(r.s, later), next, env);
  }

  lemma AnswerIs(s: State, m: Message, now: nat, env: Env)
    requires s.upstream.Some? && Answers(m)
    ensures Dispatch(s, Reader(FromServer(s.upstream.value.generation), Received(m)), now, env)
         == HandleUpstreamMessage(ExpirePending(s, now), m, env)
  {
    hide HandleUpstreamMessage, ExpirePending;
    ExpireIs(s, now);
  }

  lemma LateAnswer(s: State, m: Message, env: Env)
    requires s.upstream.Some? && Answers(m) && IdKey(m.id.value) in s.orphaned
    ensures var r := HandleUpstreamMessage(s, m, env);
            && r.ok && r.s.orphaned == s.orphaned - {IdKey(m.id.value)} && r.s.client == s.client
            && Generation(r.s.upstream) == Generation(s.upstream) && r.s.attempts == s.attempts
  {
    hide IdKey, RequestKeys;
  }

  lemma OwnAnswer(s: State, m: Message, env: Env)
    requires Answers(m) && IdKey(m.id.value) !in s.orphaned
    ensures var key, s' := IdKey(m.id.value), HandleUpstreamMessage(s, m, env).s;
            && (s'.client.Some? <==> s.client.Some?)
            && (s.client.Some? ==>
                  s'.client.value.log.sent
                  == s.client.value.log.sent
                     + if key in s.client.value.forwarded && env.write(s.attempts) then [Routed(key)] else [])
  {
    hide IdKey, RequestKeys;
  }

  /** A response that is none to the shutdown request. */
  predicate Answers(m: Message) { m.decodable && m.name == Missing && m.id.Some? && m.id != Some(SHUTDOWN_ID) }

  lemma ExpireOrphans(s: State, now: nat)
    ensures ExpirePending(s, now).orphaned == s.orphaned
  {
  }
}
