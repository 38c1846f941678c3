/**
 The transport, seen from the client: every call appends the requests it
 issues to a log, and the value it returns is the gateway's reply, already
 decoded from JSON. The gateway together with the decoder is an oracle
 `server` that gives the decoded reply to the last request of a log; it sees
 the whole log, so two identical requests may be answered differently.
 */
module Http {

  datatype Verb = Get | Post

  datatype Request = Request(verb: Verb, url: string)

  /** What a call returns, together with the request log after the call. */
  datatype Reply<T> = Reply(value: T, log: seq<Request>)

  /** True iff `after` is `before` followed by exactly `n` GET requests. */
  predicate AppendsGets(before: seq<Request>, after: seq<Request>, n: nat) {
    && |after| == |before| + n
    && after[..|before|] == before
    && forall i :: |before| <= i < |after| ==> after[i].verb == Get
  }

  /** One GET of `url`, answered by `server`. */
  function Fetch<T>(log: seq<Request>, url: string, server: seq<Request> -> T): (r: Reply<T>)
    ensures AppendsGets(log, r.log, 1)
    ensures r.log[|log|].url == url
    ensures r.value == server(r.log)
  {
    var after := log + [Request(Get, url)];
    assert after[..|log|] == log;
    Reply(server(after), after)
  }

}
