/**
 * The port-fallback proxy of server/tranceiver/main.go.
 *
 * Every request is forwarded to the local ports 1000, 2000, ..., 8000 in
 * turn; the first answer that is not 404 goes back to the client, and if
 * every port fails or answers 404 the client gets a 404 of the proxy's own.
 * What each port answers is an input: a function from the forwarded request
 * to its outcome.
 */
module Tranceiver {
  import opened Text

  const TargetPorts: seq<nat> := [1000, 2000, 3000, 4000, 5000, 6000, 7000, 8000]

  type Header = map<string, seq<string>>

  datatype Request = Request(verb: string, path: string, rawQuery: string, header: Header, body: seq<byte>)

  datatype ProxyRequest = ProxyRequest(verb: string, url: string, header: Header, body: seq<byte>)

  /** What trying one port gives: the request could not be built or sent, or a response. */
  datatype Upstream = BuildFailed | SendFailed | Response(status: int, header: Header, body: seq<byte>)

  datatype Reply = Reply(status: int, header: Header, body: seq<byte>)

  const StatusNotFound: int := 404

  const UrlPrefix: string := "http://localhost:"

  /** The address a request is forwarded to on one port, with `?` and the query only when there is a query. */
  function TargetUrl(port: nat, path: string, rawQuery: string): (url: string)
    ensures |url| > |UrlPrefix| && url[..|UrlPrefix|] == UrlPrefix
    ensures rawQuery == "" ==> url == UrlPrefix + NatToString(port) + path
    ensures rawQuery != "" ==> url == UrlPrefix + NatToString(port) + path + "?" + rawQuery
  {
    var base := UrlPrefix + NatToString(port) + path;
    if rawQuery != "" then base + "?" + rawQuery else base
  }

  /** Requests for the same path and query on different ports go to different addresses. */
  lemma TargetUrlNamesPort(p1: nat, p2: nat, path: string, rawQuery: string)
    requires |path| > 0 && path[0] == '/'
    requires TargetUrl(p1, path, rawQuery) == TargetUrl(p2, path, rawQuery)
    ensures p1 == p2
  {
    var d1 := NatToString(p1);
    var d2 := NatToString(p2);
    var tail := path + (if rawQuery != "" then "?" + rawQuery else "");
    var url := TargetUrl(p1, path, rawQuery);
    assert url == UrlPrefix + d1 + tail && url == UrlPrefix + d2 + tail;
    if |d1| != |d2| {
      assert false;
    } else {
      assert d1 == url[|UrlPrefix|..|UrlPrefix| + |d1|] == d2;
      NatToStringInjective(p1, p2);
    }
  }

  /**
   * The forwarded request: same verb, headers and body, new address. The body
   * is the incoming request's own reader, so only the first attempt that is
   * sent can read it (see Attempt).
   */
  function ProxyFor(r: Request, port: nat): (p: ProxyRequest)
    ensures p.verb == r.verb && p.header == r.header && p.body == r.body
    ensures p.url == TargetUrl(port, r.path, r.rawQuery)
  {
    ProxyRequest(r.verb, TargetUrl(port, r.path, r.rawQuery), r.header, r.body)
  }

  /** An outcome the proxy passes back: a response that is not 404. */
  predicate Accepted(u: Upstream)
  {
    u.Response? && u.status != StatusNotFound
  }

  /** Whether an attempt reached the client's Do, which reads and closes the body even when it fails. */
  predicate ReadsBody(u: Upstream)
  {
    !u.BuildFailed?
  }

  function Relay(u: Upstream): Reply
    requires u.Response?
  {
    Reply(u.status, u.header, u.body)
  }

  const AllNotFound: Reply := Reply(StatusNotFound, map[], Ascii("404 - All endpoints returned not found"))

  /**
   * What trying one port gives once `bodyRead` says whether an earlier attempt
   * already reached the client's Do. A non-empty body read by then is closed,
   * so the send fails; an empty body is never read and every port sees the
   * request as it is.
   */
  function Attempt(r: Request, upstream: ProxyRequest -> Upstream, port: nat, bodyRead: bool): (u: Upstream)
    ensures ReadsBody(u) == ReadsBody(upstream(ProxyFor(r, port)))
    ensures bodyRead && r.body != [] ==> !u.Response?
    ensures !(bodyRead && r.body != []) ==> u == upstream(ProxyFor(r, port))
  {
    var u := upstream(ProxyFor(r, port));
    if bodyRead && r.body != [] && ReadsBody(u) then SendFailed else u
  }

  /** The outcome of every port in turn, had each been tried, with the body read at most once. */
  function Outcomes(r: Request, upstream: ProxyRequest -> Upstream, ports: seq<nat>, bodyRead: bool): (o: seq<Upstream>)
    ensures |o| == |ports|
    decreases |ports|
  {
    if ports == [] then []
    else
      var u := Attempt(r, upstream, ports[0], bodyRead);
      [u] + Outcomes(r, upstream, ports[1..], bodyRead || ReadsBody(u))
  }

  /** The reply, and how many ports were tried to get it. */
  datatype Proxied = Proxied(reply: Reply, tried: nat)

  /** The answer to a run of outcomes: the first accepted one, or the proxy's 404 after all of them. */
  function Pick(o: seq<Upstream>): (x: Proxied)
    ensures x.tried <= |o|
  {
    if o == [] then Proxied(AllNotFound, 0)
    else if Accepted(o[0]) then Proxied(Relay(o[0]), 1)
    else
      var rest := Pick(o[1..]);
      Proxied(rest.reply, rest.tried + 1)
  }

  /**
   * The handler over the ports left to try: the first port whose outcome is
   * accepted answers, and no port after it is tried.
   */
  function Forward(r: Request, upstream: ProxyRequest -> Upstream, ports: seq<nat>, bodyRead: bool): (x: Proxied)
    ensures x.tried <= |ports|
  {
    Pick(Outcomes(r, upstream, ports, bodyRead))
  }

  lemma {:induction false} PickChoice(o: seq<Upstream>)
    ensures var x := Pick(o);
      (x.reply.status != StatusNotFound ==> (x.tried > 0 && Accepted(o[x.tried - 1]) &&
        x.reply == Relay(o[x.tried - 1]) && forall j :: 0 <= j < x.tried - 1 ==> !Accepted(o[j]))) &&
      (x.reply.status == StatusNotFound ==> (x.tried == |o| && x.reply == AllNotFound &&
        forall j :: 0 <= j < |o| ==> !Accepted(o[j])))
  {
    if o != [] && !Accepted(o[0]) {
      PickChoice(o[1..]);
      assert forall j :: 1 <= j < |o| ==> o[j] == o[1..][j - 1];
    }
  }

  /**
   * A reply other than 404 relays the first accepted outcome, after every
   * earlier port was rejected; a 404 is the fixed message, after every port
   * was tried and rejected.
   */
  lemma ForwardChoice(r: Request, upstream: ProxyRequest -> Upstream, ports: seq<nat>, bodyRead: bool)
    ensures var x, o := Forward(r, upstream, ports, bodyRead), Outcomes(r, upstream, ports, bodyRead);
      (x.reply.status != StatusNotFound ==> (x.tried > 0 && Accepted(o[x.tried - 1]) &&
        x.reply == Relay(o[x.tried - 1]) && forall j :: 0 <= j < x.tried - 1 ==> !Accepted(o[j]))) &&
      (x.reply.status == StatusNotFound ==> (x.tried == |ports| && x.reply == AllNotFound &&
        forall j :: 0 <= j < |ports| ==> !Accepted(o[j])))
  {
    PickChoice(Outcomes(r, upstream, ports, bodyRead));
  }

  lemma {:induction false} PickFirstAccepted(o: seq<Upstream>, i: nat)
    requires i < |o| && Accepted(o[i])
    requires forall j :: 0 <= j < i ==> !Accepted(o[j])
    ensures Pick(o) == Proxied(Relay(o[i]), i + 1)
  {
    if i > 0 {
      assert forall j :: 0 <= j < i - 1 ==> o[1..][j] == o[j + 1];
      PickFirstAccepted(o[1..], i - 1);
    }
  }

  /** The first accepted outcome always answers, whatever the ports after it would say. */
  lemma ForwardFirstAccepted(r: Request, upstream: ProxyRequest -> Upstream, ports: seq<nat>, bodyRead: bool, i: nat)
    requires i < |ports| && Accepted(Outcomes(r, upstream, ports, bodyRead)[i])
    requires forall j :: 0 <= j < i ==> !Accepted(Outcomes(r, upstream, ports, bodyRead)[j])
    ensures Forward(r, upstream, ports, bodyRead) == Proxied(Relay(Outcomes(r, upstream, ports, bodyRead)[i]), i + 1)
  {
    PickFirstAccepted(Outcomes(r, upstream, ports, bodyRead), i);
  }

  /** Without a body, every port tried sees the request as it is. */
  lemma {:induction false} OutcomesWithoutBody(r: Request, upstream: ProxyRequest -> Upstream, ports: seq<nat>, bodyRead: bool)
    requires r.body == []
    ensures forall j :: 0 <= j < |ports| ==> Outcomes(r, upstream, ports, bodyRead)[j] == upstream(ProxyFor(r, ports[j]))
    decreases |ports|
  {
    if ports != [] {
      var u := Attempt(r, upstream, ports[0], bodyRead);
      var next := bodyRead || ReadsBody(u);
      var o, rest := Outcomes(r, upstream, ports, bodyRead), Outcomes(r, upstream, ports[1..], next);
      assert o == [u] + rest;
      OutcomesWithoutBody(r, upstream, ports[1..], next);
      forall j | 0 <= j < |ports|
        ensures o[j] == upstream(ProxyFor(r, ports[j]))
      {
        if j > 0 {
          assert o[j] == rest[j - 1] && ports[j] == ports[1..][j - 1];
        }
      }
    }
  }

  /** Until some attempt reaches the client's Do, the next port sees the request as it is. */
  lemma {:induction false} OutcomeBeforeRead(r: Request, upstream: ProxyRequest -> Upstream, ports: seq<nat>, j: nat)
    requires j < |ports|
    requires forall i :: 0 <= i < j ==> !ReadsBody(Outcomes(r, upstream, ports, false)[i])
    ensures Outcomes(r, upstream, ports, false)[j] == upstream(ProxyFor(r, ports[j]))
    decreases j
  {
    if j > 0 {
      var u := Attempt(r, upstream, ports[0], false);
      var o, rest := Outcomes(r, upstream, ports, false), Outcomes(r, upstream, ports[1..], false);
      assert !ReadsBody(o[0]);
      assert o == [u] + rest;
      forall i | 0 <= i < j - 1
        ensures !ReadsBody(rest[i])
      {
        assert rest[i] == o[i + 1];
      }
      OutcomeBeforeRead(r, upstream, ports[1..], j - 1);
      assert ports[j] == ports[1..][j - 1];
    }
  }

  /** Once a non-empty body has been read, no later port gets a response. */
  lemma {:induction false} NoResponseAfterRead(r: Request, upstream: ProxyRequest -> Upstream, ports: seq<nat>)
    requires r.body != []
    ensures forall j :: 0 <= j < |ports| ==> !Outcomes(r, upstream, ports, true)[j].Response?
    decreases |ports|
  {
    if ports != [] {
      var o, rest := Outcomes(r, upstream, ports, true), Outcomes(r, upstream, ports[1..], true);
      assert o == [Attempt(r, upstream, ports[0], true)] + rest;
      NoResponseAfterRead(r, upstream, ports[1..]);
    }
  }

  /**
   * A non-empty body reaches at most one port: after the first attempt that
   * reaches the client's Do, every later attempt fails without a response.
   */
  lemma {:induction false} BodyReadOnce(r: Request, upstream: ProxyRequest -> Upstream, ports: seq<nat>, bodyRead: bool, i: nat, j: nat)
    requires r.body != [] && i < j < |ports|
    requires ReadsBody(Outcomes(r, upstream, ports, bodyRead)[i])
    ensures !Outcomes(r, upstream, ports, bodyRead)[j].Response?
    decreases i
  {
    var u := Attempt(r, upstream, ports[0], bodyRead);
    var o := Outcomes(r, upstream, ports, bodyRead);
    var next := bodyRead || ReadsBody(u);
    assert o == [u] + Outcomes(r, upstream, ports[1..], next);
    if i == 0 {
      NoResponseAfterRead(r, upstream, ports[1..]);
      assert o[j] == Outcomes(r, upstream, ports[1..], true)[j - 1];
    } else {
      BodyReadOnce(r, upstream, ports[1..], next, i - 1, j - 1);
    }
  }

  /**
   * A request with a body that the first port answers with 404, or fails to
   * receive, gets the proxy's own 404 after every port was tried, whatever
   * the later ports would have answered.
   */
  lemma BodyRejectedByFirstPort(r: Request, upstream: ProxyRequest -> Upstream, ports: seq<nat>)
    requires r.body != [] && ports != []
    requires ReadsBody(upstream(ProxyFor(r, ports[0]))) && !Accepted(upstream(ProxyFor(r, ports[0])))
    ensures Forward(r, upstream, ports, false) == Proxied(AllNotFound, |ports|)
  {
    ForwardChoice(r, upstream, ports, false);
    var o := Outcomes(r, upstream, ports, false);
    forall j | 0 <= j < |ports|
      ensures !Accepted(o[j])
    {
      if j > 0 {
        BodyReadOnce(r, upstream, ports, false, 0, j);
      }
    }
  }

  /** The "/" handler: try the ports in order, skip failures, stop at the first accepted answer. */
  method Handle(r: Request, upstream: ProxyRequest -> Upstream) returns (reply: Reply, tried: nat)
    ensures Proxied(reply, tried) == Forward(r, upstream, TargetPorts, false)
  {
    reply, tried := TryPorts(r, upstream, TargetPorts);
  }

  /** The handler's loop over the list of ports. */
  method TryPorts(r: Request, upstream: ProxyRequest -> Upstream, ports: seq<nat>) returns (reply: Reply, tried: nat)
    ensures Proxied(reply, tried) == Forward(r, upstream, ports, false)
  {
    var k := 0;
    var bodyRead := false;
    while k < |ports|
      invariant 0 <= k <= |ports|
      invariant Forward(r, upstream, ports, false) == Shifted(Forward(r, upstream, ports[k..], bodyRead), k)
    {
      assert ports[k..][1..] == ports[k + 1..];
      ghost var u := Attempt(r, upstream, ports[k], bodyRead);
      assert Outcomes(r, upstream, ports[k..], bodyRead) == [u] + Outcomes(r, upstream, ports[k + 1..], bodyRead || ReadsBody(u));
      var port := ports[k];
      var url := UrlPrefix + NatToString(port) + r.path;
      if r.rawQuery != "" {
        url := url + "?" + r.rawQuery;
      }
      var proxyReq := ProxyRequest(r.verb, url, r.header, r.body);
      assert proxyReq == ProxyFor(r, port);
      var resp := upstream(proxyReq);
      k := k + 1;
      if resp.BuildFailed? {
        continue;
      }
      // Do reads the incoming body and closes it, whether or not it succeeds.
      if bodyRead && r.body != [] {
        resp := SendFailed;
      }
      bodyRead := true;
      if resp.SendFailed? {
        continue;
      }
      if resp.status != StatusNotFound {
        return Reply(resp.status, resp.header, resp.body), k;
      }
    }
    return AllNotFound, k;
  }

  /** A result over the later ports, seen from k ports earlier. */
  function Shifted(x: Proxied, k: nat): Proxied
  {
    x.(tried := x.tried + k)
  }
}
