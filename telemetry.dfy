// Per-page request telemetry of utils/browser.py: the `log_request` and
// `log_response` handlers a page gets when request tracking is on, and the
// counts `print_network_summary` prints.

module Telemetry {
  import opened Wrappers
  import opened BrowserPool

  /** What the `request` event carries that the handler reads; `verb` is the HTTP method. */
  datatype Request = Request(url: string, verb: string, resourceType: string)

  /**
   * One entry of `page.requests`. `status`, `endTime` and `duration` are the
   * keys `log_response` adds; `None` is a key not (yet) present. Times are
   * clock readings taken as parameters.
   */
  datatype RequestRecord = RequestRecord(
    url: string, verb: string, resourceType: string, startTime: int, browserType: PoolKind,
    status: Option<int>, endTime: Option<int>, duration: Option<int>)

  /** The record `log_request` appends. */
  function NewRecord(req: Request, kind: PoolKind, now: int): (r: RequestRecord)
    ensures r.url == req.url && r.verb == req.verb && r.resourceType == req.resourceType
    ensures r.startTime == now && r.browserType == kind
    ensures r.status.None? && r.endTime.None? && r.duration.None?
  {
    RequestRecord(req.url, req.verb, req.resourceType, now, kind, None, None, None)
  }

  /** A record after `log_response` wrote status, end time and duration into it. */
  function Completed(r: RequestRecord, status: int, now: int): (c: RequestRecord)
    ensures c.status == Some(status) && c.endTime == Some(now)
    ensures c.duration == Some(now - r.startTime)
    ensures c.url == r.url && c.verb == r.verb && c.resourceType == r.resourceType
    ensures c.startTime == r.startTime && c.browserType == r.browserType
  {
    r.(status := Some(status), endTime := Some(now), duration := Some(now - r.startTime))
  }

  /** The index of the first record for `url`, if any. */
  function FirstWithUrl(rs: seq<RequestRecord>, url: string): (r: Option<nat>)
    ensures r.None? <==> forall i :: 0 <= i < |rs| ==> rs[i].url != url
    ensures r.Some? ==> r.value < |rs| && rs[r.value].url == url
    ensures r.Some? ==> forall i :: 0 <= i < r.value ==> rs[i].url != url
  {
    if rs == [] then None
    else if rs[0].url == url then Some(0)
    else match FirstWithUrl(rs[1..], url)
      case None => None
      case Some(i) => Some(i + 1)
  }

  /**
   * The list after a response for `url`: the first record with that url is
   * completed, the search stops there, and every other record is kept.
   */
  function Responded(rs: seq<RequestRecord>, url: string, status: int, now: int): (r: seq<RequestRecord>)
    ensures |r| == |rs|
  {
    if rs == [] then []
    else if rs[0].url == url then [Completed(rs[0], status, now)] + rs[1..]
    else [rs[0]] + Responded(rs[1..], url, status, now)
  }

  /** A response changes exactly the first record with its url, or nothing when there is none. */
  lemma {:induction false} RespondedUpdatesFirstMatch(rs: seq<RequestRecord>, url: string, status: int, now: int)
    ensures var i := FirstWithUrl(rs, url);
            && (i.None? ==> Responded(rs, url, status, now) == rs)
            && (i.Some? ==> Responded(rs, url, status, now) == rs[i.value := Completed(rs[i.value], status, now)])
  {
    if rs != [] && rs[0].url != url {
      RespondedUpdatesFirstMatch(rs[1..], url, status, now);
      var i := FirstWithUrl(rs[1..], url);
      if i.Some? {
        assert [rs[0]] + rs[1..][i.value := Completed(rs[1..][i.value], status, now)]
            == rs[i.value + 1 := Completed(rs[i.value + 1], status, now)];
      } else {
        assert [rs[0]] + rs[1..] == rs;
      }
    }
  }

  /** A response keeps the length of the list and every record but one. */
  lemma RespondedFrame(rs: seq<RequestRecord>, url: string, status: int, now: int)
    ensures var t := Responded(rs, url, status, now);
            && |t| == |rs|
            && forall i :: 0 <= i < |rs| && Some(i) != FirstWithUrl(rs, url) ==> t[i] == rs[i]
  {
    RespondedUpdatesFirstMatch(rs, url, status, now);
  }

  /**
   * A second response for a url that was requested twice completes the first
   * record again and leaves the later record without a status.
   */
  lemma RepeatedUrlOverwritesFirst(a: RequestRecord, b: RequestRecord, s1: int, t1: int, s2: int, t2: int)
    requires a.url == b.url
    ensures var once := Responded([a, b], a.url, s1, t1);
            var twice := Responded(once, a.url, s2, t2);
            && twice[0].status == Some(s2) && twice[0].endTime == Some(t2)
            && twice[1] == b
  {
  }

  // ---------------------------------------------------------------------------
  // The counts of print_network_summary
  // ---------------------------------------------------------------------------

  /** `req.get('status', 0)`. */
  function StatusOrZero(r: RequestRecord): int
  {
    if r.status.Some? then r.status.value else 0
  }

  /** The records with status 200; a record without status counts as status 0. */
  function CountSuccessful(rs: seq<RequestRecord>): (n: nat)
    ensures n <= |rs|
    ensures n == |rs| <==> forall i :: 0 <= i < |rs| ==> rs[i].status == Some(200)
    ensures n == 0 <==> forall i :: 0 <= i < |rs| ==> rs[i].status != Some(200)
  {
    if rs == [] then 0
    else (if StatusOrZero(rs[0]) == 200 then 1 else 0) + CountSuccessful(rs[1..])
  }

  /** The records made on a page of the given pool. */
  function CountKind(rs: seq<RequestRecord>, kind: PoolKind): (n: nat)
    ensures n <= |rs|
    ensures n == 0 <==> forall i :: 0 <= i < |rs| ==> rs[i].browserType != kind
  {
    if rs == [] then 0
    else (if rs[0].browserType == kind then 1 else 0) + CountKind(rs[1..], kind)
  }

  /** Every record is either a proxy or a no_proxy request. */
  lemma {:induction false} CountKindPartition(rs: seq<RequestRecord>)
    ensures CountKind(rs, Proxy) + CountKind(rs, NoProxy) == |rs|
  {
    if rs != [] {
      CountKindPartition(rs[1..]);
    }
  }

  /** Appending a record adds it to the counts it belongs to and to no other. */
  lemma {:induction false} CountsOfAppend(rs: seq<RequestRecord>, r: RequestRecord)
    ensures CountSuccessful(rs + [r]) == CountSuccessful(rs) + (if StatusOrZero(r) == 200 then 1 else 0)
    ensures forall k :: CountKind(rs + [r], k) == CountKind(rs, k) + (if r.browserType == k then 1 else 0)
  {
    if rs == [] {
      assert rs + [r] == [r];
    } else {
      assert (rs + [r])[1..] == rs[1..] + [r];
      CountsOfAppend(rs[1..], r);
    }
  }

  /** One more record of the log, counted. */
  lemma CountsOfPrefixStep(rs: seq<RequestRecord>, i: nat)
    requires i < |rs|
    ensures CountSuccessful(rs[..i + 1]) == CountSuccessful(rs[..i]) + (if StatusOrZero(rs[i]) == 200 then 1 else 0)
    ensures CountKind(rs[..i + 1], Proxy) == CountKind(rs[..i], Proxy) + (if rs[i].browserType == Proxy then 1 else 0)
    ensures CountKind(rs[..i + 1], NoProxy) == CountKind(rs[..i], NoProxy) + (if rs[i].browserType == NoProxy then 1 else 0)
  {
    assert rs[..i + 1] == rs[..i] + [rs[i]];
    CountsOfAppend(rs[..i], rs[i]);
  }

  /** A response never moves a record between the proxy and no_proxy counts. */
  lemma {:induction false} RespondedKeepsKindCounts(rs: seq<RequestRecord>, url: string, status: int, now: int, kind: PoolKind)
    ensures CountKind(Responded(rs, url, status, now), kind) == CountKind(rs, kind)
  {
    if rs != [] && rs[0].url != url {
      RespondedKeepsKindCounts(rs[1..], url, status, now, kind);
    }
  }

  /**
   * A 200 response for a url whose first record has no status yet adds one
   * successful request; a response for a url not in the list changes nothing.
   */
  lemma {:induction false} RespondedSuccessCount(rs: seq<RequestRecord>, url: string, now: int)
    ensures var i := FirstWithUrl(rs, url);
            && (i.None? ==> CountSuccessful(Responded(rs, url, 200, now)) == CountSuccessful(rs))
            && (i.Some? && rs[i.value].status.None? ==>
                  CountSuccessful(Responded(rs, url, 200, now)) == CountSuccessful(rs) + 1)
  {
    if rs == [] {
    } else if rs[0].url == url {
      var t := [Completed(rs[0], 200, now)] + rs[1..];
      assert Responded(rs, url, 200, now) == t;
      assert t[1..] == rs[1..];
    } else {
      var t := [rs[0]] + Responded(rs[1..], url, 200, now);
      assert Responded(rs, url, 200, now) == t;
      assert t[1..] == Responded(rs[1..], url, 200, now);
      RespondedSuccessCount(rs[1..], url, now);
    }
  }

  /** The numbers `print_network_summary` reports (the cache-hit rate is left out). */
  datatype Summary = Summary(total: nat, successful: nat, cacheHits: nat, proxyRequests: nat, noProxyRequests: nat)

  /** The summary, or nothing when detailed logging or request tracking is off. */
  function NetworkSummary(detailedLogging: bool, trackRequests: bool, rs: seq<RequestRecord>, cacheHits: nat): (s: Option<Summary>)
    ensures s.Some? <==> detailedLogging && trackRequests
    ensures s.Some? ==> s.value.total == |rs| && s.value.cacheHits == cacheHits
    ensures s.Some? ==> s.value.successful == CountSuccessful(rs)
    ensures s.Some? ==> s.value.proxyRequests == CountKind(rs, Proxy) && s.value.noProxyRequests == CountKind(rs, NoProxy)
    ensures s.Some? ==> s.value.successful <= s.value.total
    ensures s.Some? ==> s.value.proxyRequests + s.value.noProxyRequests == s.value.total
  {
    if !detailedLogging || !trackRequests then None
    else
      CountKindPartition(rs);
      Some(Summary(|rs|, CountSuccessful(rs), cacheHits, CountKind(rs, Proxy), CountKind(rs, NoProxy)))
  }

  /**
   * A page with the attributes `new_context_page` sets on it. The request and
   * response handlers only run when they were registered (`tracksRequests`).
   */
  class Page {
    var requests: seq<RequestRecord>
    var cacheHits: nat
    const browserType: PoolKind
    const userAgent: string
    const tracksRequests: bool

    constructor (browserType: PoolKind, userAgent: string, tracksRequests: bool)
      ensures requests == [] && cacheHits == 0
      ensures this.browserType == browserType && this.userAgent == userAgent
      ensures this.tracksRequests == tracksRequests
    {
      this.browserType := browserType;
      this.userAgent := userAgent;
      this.tracksRequests := tracksRequests;
      requests := [];
      cacheHits := 0;
    }

    /** `log_request`: one new record, stamped with the page's pool and the start time. */
    method LogRequest(req: Request, now: int)
      modifies this
      ensures requests == old(requests) + (if tracksRequests then [NewRecord(req, browserType, now)] else [])
      ensures cacheHits == old(cacheHits)
    {
      if tracksRequests {
        requests := requests + [NewRecord(req, browserType, now)];
      }
    }

    /** `log_response`: complete the first record for the response's url and stop. */
    method LogResponse(url: string, status: int, now: int)
      modifies this
      ensures requests == (if tracksRequests then Responded(old(requests), url, status, now) else old(requests))
      ensures cacheHits == old(cacheHits)
    {
      if !tracksRequests {
        return;
      }
      RespondedUpdatesFirstMatch(requests, url, status, now);
      var i := 0;
      while i < |requests|
        invariant 0 <= i <= |requests|
        invariant requests == old(requests)
        invariant forall k :: 0 <= k < i ==> requests[k].url != url
      {
        if requests[i].url == url {
          requests := requests[i := Completed(requests[i], status, now)];
          return;
        }
        i := i + 1;
      }
    }
  }
}
