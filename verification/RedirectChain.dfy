/**
 * bindings/python/chrome_client/_python_impl/sessions.py: Session.send with its
 * retry loop, and the redirect chain driven from Python.
 *
 * The network is a function from the number of a transfer to its reply. The
 * cookie header of each hop is the subject of module CookiePolicy.
 */
module RedirectChain {
  import opened Prelude

  /** A parsed URL: hostname, and everything else. */
  datatype Url = Url(host: Option<string>, rest: string)

  /** The headers the redirect policy touches; `others` are the remaining ones. */
  datatype Headers = Headers(
    authorization: Option<string>,
    contentLength: Option<string>,
    contentType: Option<string>,
    transferEncoding: Option<string>,
    cookie: Option<string>,
    others: seq<(string, string)>)

  datatype Prepared = Prepared(verb: string, url: Url, body: Option<Chunk>, headers: Headers)

  /** `location` is the Location header resolved against `url`. */
  datatype Response = Response(url: Url, status: int, location: Option<Url>)

  datatype Reply = Answer(status: int, location: Option<Url>) | Failure(tooLarge: Flag)

  type Network = nat -> Reply

  datatype Error = TooLarge | Failed | TooManyRedirects

  datatype Outcome = Delivered(response: Response, history: seq<Response>) | Raised(error: Error)

  /** _finalize without native hops: the response's URL is the request's. */
  function Received(p: Prepared, reply: Reply): Response
    requires reply.Answer?
  {
    Response(p.url, reply.status, reply.location)
  }

  predicate IsRedirect(r: Response) {
    r.location.Some? && r.status in {301, 302, 303, 307, 308}
  }

  function RebuildMethod(verb: string, status: int): string {
    var after303 := if status == 303 && verb != "HEAD" then "GET" else verb;
    var after302 := if status == 302 && after303 != "HEAD" then "GET" else after303;
    if status == 301 && after302 == "POST" then "GET" else after302
  }

  predicate Safe(verb: string) { verb == "GET" || verb == "HEAD" }

  function NextHop(r: Response, p: Prepared): Prepared
    requires IsRedirect(r)
  {
    var verb, url := RebuildMethod(p.verb, r.status), r.location.value;
    var drop := Safe(verb) || r.status == 303;
    Prepared(verb, url, if drop then None else p.body,
             p.headers.(
               contentLength := if drop then None else p.headers.contentLength,
               contentType := if drop then None else p.headers.contentType,
               transferEncoding := if drop then None else p.headers.transferEncoding,
               authorization := if r.url.host != url.host then None else p.headers.authorization,
               cookie := None))
  }

  /** Hop i got the redirect history[i], the reply to transfer first + i, and hop i + 1 obeys it. */
  predicate Link(net: Network, first: nat, hops: seq<Prepared>, history: seq<Response>, i: nat)
    requires i < |history| < |hops|
  {
    && net(first + i).Answer?
    && history[i] == Received(hops[i], net(first + i))
    && IsRedirect(history[i])
    && hops[i + 1] == NextHop(history[i], hops[i])
  }

  predicate Chain(net: Network, first: nat, hops: seq<Prepared>, history: seq<Response>) {
    && |hops| == |history| + 1
    && (forall i :: 0 <= i < |history| ==> Link(net, first, hops, history, i))
  }

  lemma ChainExtends(net: Network, first: nat, hops: seq<Prepared>, history: seq<Response>,
                     r: Response)
    requires Chain(net, first, hops, history)
    requires net(first + |history|).Answer? && IsRedirect(r)
    requires r == Received(hops[|history|], net(first + |history|))
    ensures Chain(net, first, hops + [NextHop(r, hops[|history|])], history + [r])
  {
    var longer, more := hops + [NextHop(r, hops[|history|])], history + [r];
    forall i | 0 <= i < |more| ensures Link(net, first, longer, more, i) {
      if i < |history| { assert Link(net, first, hops, history, i); }
    }
  }

  /** The end of a chain whose last hop was transfer `last`. */
  predicate Concludes(net: Network, last: nat, hop: Prepared, history: seq<Response>, limit: int,
                      outcome: Outcome) {
    match net(last)
    case Failure(tooLarge) => outcome == Raised(if tooLarge.Yes? then TooLarge else Failed)
    case Answer(_, _) =>
      var r := Received(hop, net(last));
      if !IsRedirect(r) then outcome == Delivered(r, history)
      else |history| >= limit && outcome == Raised(TooManyRedirects)
  }

  /** _follow_in_python; `first` is the number of the transfer that brought `response`. */
  method FollowInPython(net: Network, first: nat, request: Prepared, limit: int)
    returns (hops: seq<Prepared>, followed: seq<Response>, outcome: Outcome)
    requires net(first).Answer?
    ensures |hops| > 0 && hops[0] == request && Chain(net, first, hops, followed)
    ensures Concludes(net, first + |followed|, hops[|followed|], followed, limit, outcome)
    ensures |followed| <= if limit < 0 then 0 else limit
  {
    var response := Received(request, net(first));
    hops, followed := [request], [];
    while IsRedirect(response)
      invariant Chain(net, first, hops, followed) && hops[0] == request
      invariant net(first + |followed|).Answer?
      invariant response == Received(hops[|followed|], net(first + |followed|))
      invariant |followed| <= if limit < 0 then 0 else limit
      decreases limit - |followed|
    {
      if |followed| >= limit {
        return hops, followed, Raised(TooManyRedirects);
      }
      var next := NextHop(response, hops[|followed|]);
      ChainExtends(net, first, hops, followed, response);
      hops, followed := hops + [next], followed + [response];
      match net(first + |followed|) {
        case Failure(tooLarge) =>
          outcome := Raised(if tooLarge.Yes? then TooLarge else Failed);
          return;
        case Answer(_, _) => response := Received(next, net(first + |followed|));
      }
    }
    outcome := Delivered(response, followed);
  }

  /**
   * Session.send: the transfers repeated are those that failed, unless the body was
   * too large, or were answered with a status to retry, while retries are left; the
   * first other one, or the last allowed, starts the chain.
   */
  method Send(net: Network, request: Prepared, count: nat, codes: set<int>, pythonRedirects: bool,
              limit: int)
    returns (attempts: nat, hops: seq<Prepared>, followed: seq<Response>, outcome: Outcome)
    ensures 1 <= attempts <= count + 1
    ensures forall k :: 0 <= k < attempts - 1 ==>
      net(k) == Failure(No) || (net(k).Answer? && net(k).status in codes)
    ensures attempts == count + 1 || net(attempts - 1) == Failure(Yes)
            || (net(attempts - 1).Answer? && net(attempts - 1).status !in codes)
    ensures |hops| > 0 && hops[0] == request && Chain(net, attempts - 1, hops, followed)
    ensures pythonRedirects || net(attempts - 1).Failure? ==>
      Concludes(net, attempts - 1 + |followed|, hops[|followed|], followed, limit, outcome)
    ensures !pythonRedirects && net(attempts - 1).Answer? ==>
      outcome == Delivered(Received(request, net(attempts - 1)), [])
    ensures attempts + |followed| <= count + 1 + if limit < 0 then 0 else limit
  {
    attempts, hops, followed := 0, [request], [];
    while true
      invariant attempts <= count && hops == [request] && followed == []
      invariant forall k :: 0 <= k < attempts ==>
        net(k) == Failure(No) || (net(k).Answer? && net(k).status in codes)
      decreases count - attempts
    {
      attempts := attempts + 1;
      match net(attempts - 1) {
        case Failure(tooLarge) =>
          if tooLarge.Yes? {
            return attempts, hops, followed, Raised(TooLarge);
          }
          if attempts > count {
            return attempts, hops, followed, Raised(Failed);
          }
        case Answer(status, _) =>
          if !(status in codes && attempts <= count) {
            break;
          }
      }
    }
    if pythonRedirects {
      hops, followed, outcome := FollowInPython(net, attempts - 1, request, limit);
    } else {
      outcome := Delivered(Received(request, net(attempts - 1)), []);
    }
  }

  // ---- what a chain keeps -----------------------------------------------------------------

  /** The replies that send a chain on, in the network's terms. */
  predicate SendsOn(reply: Reply) {
    reply.Answer? && reply.location.Some? && reply.status in {301, 302, 303, 307, 308}
  }

  /**
   * Where a chain goes: each hop requests exactly the Location of the reply before it, the history
   * lists the replies under the URLs requested, and all headers the policy does not name stay.
   */
  lemma ChainFollows(net: Network, first: nat, hops: seq<Prepared>, history: seq<Response>, i: nat)
    requires Chain(net, first, hops, history) && i < |history|
    ensures SendsOn(net(first + i)) && net(first + i).location == Some(hops[i + 1].url)
    ensures history[i] == Response(hops[i].url, net(first + i).status, net(first + i).location)
    ensures hops[i + 1].headers.others == hops[i].headers.others && hops[i + 1].headers.cookie == None
    ensures if Safe(hops[i + 1].verb) then Bare(hops[i + 1]) else SameBody(hops[i + 1], hops[i])
  {
    assert Link(net, first, hops, history, i);
    HopBody(history[i], hops[i]);
  }

  /**
   * Where it stops: a reply that does not send it on is delivered with the whole history, one that
   * does is refused exactly if the limit is used up, and a failed transfer is raised.
   */
  lemma ChainStops(net: Network, last: nat, hop: Prepared, history: seq<Response>, limit: int,
                   outcome: Outcome)
    requires Concludes(net, last, hop, history, limit, outcome)
    ensures outcome.Delivered? <==> net(last).Answer? && !SendsOn(net(last))
    ensures outcome.Delivered? ==>
      outcome == Delivered(Response(hop.url, net(last).status, net(last).location), history)
    ensures outcome == Raised(TooManyRedirects) <==> SendsOn(net(last))
    ensures SendsOn(net(last)) ==> |history| >= limit
    ensures net(last).Failure? ==> outcome == Raised(if net(last).tooLarge.Yes? then TooLarge else Failed)
  {
  }

  predicate SameHost(hops: seq<Prepared>) {
    forall i :: 0 <= i < |hops| ==> hops[i].url.host == hops[0].url.host
  }

  /**
   * Credentials: hop k carries the caller's Authorization exactly while no hop so
   * far has left the first one's host; once dropped it does not come back.
   */
  lemma {:induction false} AuthorizationStaysHome(net: Network, first: nat, hops: seq<Prepared>,
                                                  history: seq<Response>, k: nat)
    requires Chain(net, first, hops, history) && k < |hops|
    ensures hops[k].headers.authorization
            == if SameHost(hops[..k + 1]) then hops[0].headers.authorization else None
  {
    if k > 0 {
      AuthorizationStaysHome(net, first, hops, history, k - 1);
      assert Link(net, first, hops, history, k - 1);
      var before, upto := hops[..k], hops[..k + 1];
      assert upto == before + [hops[k]];
      assert SameHost(upto) <==> SameHost(before) && hops[k].url.host == hops[k - 1].url.host by {
        assert before[k - 1] == hops[k - 1] && before[0] == hops[0] == upto[0];
        assert upto[k] == hops[k] && upto[k - 1] == hops[k - 1];
        assert forall i :: 0 <= i < k ==> upto[i] == before[i];
      }
    }
  }

  predicate Bare(p: Prepared) {
    && p.body.None? && p.headers.contentLength.None? && p.headers.contentType.None?
    && p.headers.transferEncoding.None?
  }

  predicate SameBody(p: Prepared, q: Prepared) {
    && p.body == q.body && p.headers.contentLength == q.headers.contentLength
    && p.headers.contentType == q.headers.contentType
    && p.headers.transferEncoding == q.headers.transferEncoding
  }

  /** One hop: the body goes exactly if the hop's method is GET or HEAD, else all of it stays. */
  lemma HopBody(r: Response, p: Prepared)
    requires IsRedirect(r)
    ensures var next := NextHop(r, p);
      && (if Safe(next.verb) then Bare(next) else SameBody(next, p))
      && next.headers.cookie.None? && next.headers.others == p.headers.others
      && (next.verb != p.verb ==> next.verb == "GET" && r.status in {301, 302, 303})
      && (Safe(p.verb) ==> next.verb == p.verb)
      && (r.status in {307, 308} ==> next.verb == p.verb)
  {
  }

  /** Once the method is GET or HEAD it never changes and no body comes back. */
  lemma {:induction false} SafeStaysSafe(net: Network, first: nat, hops: seq<Prepared>,
                                         history: seq<Response>, k: nat, j: nat)
    requires Chain(net, first, hops, history) && k < j < |hops| && Safe(hops[k].verb)
    ensures hops[j].verb == hops[k].verb && Bare(hops[j])
  {
    if k < j - 1 { SafeStaysSafe(net, first, hops, history, k, j - 1); }
    assert Link(net, first, hops, history, j - 1);
    HopBody(history[j - 1], hops[j - 1]);
  }

  /** A chain of 307 and 308 repeats any other method with its body. */
  lemma {:induction false} PreservingChain(net: Network, first: nat, hops: seq<Prepared>,
                                           history: seq<Response>, k: nat)
    requires Chain(net, first, hops, history) && k < |hops|
    requires forall i :: 0 <= i < k ==> history[i].status == 307 || history[i].status == 308
    ensures hops[k].verb == hops[0].verb
    ensures !Safe(hops[0].verb) ==> SameBody(hops[k], hops[0])
  {
    if k > 0 {
      PreservingChain(net, first, hops, history, k - 1);
      assert Link(net, first, hops, history, k - 1);
      HopBody(history[k - 1], hops[k - 1]);
    }
  }

  /** The exact method of every hop: GET once a redirect demands it, else the original. */
  predicate Demotes(verb: string, status: int) {
    verb != "HEAD" && (status == 302 || status == 303 || (status == 301 && verb == "POST"))
  }

  lemma {:induction false} MethodOfHop(net: Network, first: nat, hops: seq<Prepared>,
                                       history: seq<Response>, k: nat)
    requires Chain(net, first, hops, history) && k < |hops|
    ensures hops[k].verb ==
      if exists i :: 0 <= i < k && Demotes(hops[0].verb, history[i].status) then "GET"
      else hops[0].verb
  {
    if k > 0 {
      MethodOfHop(net, first, hops, history, k - 1);
      assert Link(net, first, hops, history, k - 1);
      assert Demotes(hops[0].verb, history[k - 1].status)
        || !Demotes(hops[0].verb, history[k - 1].status);
    }
  }
}
