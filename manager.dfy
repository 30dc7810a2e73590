// The `PlaywrightManager` of utils/browser.py: the two browser pools and their
// round-robin cursors, updated in place, and the per-page wiring of the cache
// interceptor and the request log. Browser launches, the cache directory and
// the network are passed in as the outcomes of those foreign calls.

module Manager {
  import opened Wrappers
  import opened BrowserPool
  import opened ResourceCache
  import opened Telemetry
  import opened Proxy

  /** The Chromium command-line switches every launch passes. */
  const ChromiumArgs: seq<string> := ["--disable-gpu", "--disable-dev-shm-usage", "--no-sandbox", "--disable-setuid-sandbox"]

  /** The `launch_options` dictionary of `create_browser`. */
  datatype LaunchOptions = LaunchOptions(headless: bool, args: seq<string>, proxy: Option<ProxyConfig>)

  /**
   * `create_browser`'s options for a launch into pool `kind`. `useProxies` is
   * the `USE_PROXIES` setting and `created` what `create_proxy()` gives when it
   * is called.
   */
  function LaunchOptionsFor(kind: PoolKind, useProxies: bool, created: Option<ProxyConfig>): (o: LaunchOptions)
    ensures o.headless && o.args == ChromiumArgs
    ensures o.proxy.Some? <==> kind == Proxy && useProxies && created.Some?
    ensures o.proxy.Some? ==> o.proxy == created
  {
    var base := LaunchOptions(true, ChromiumArgs, None);
    if kind == Proxy && useProxies && created.Some? then base.(proxy := created) else base
  }

  /**
   * A browser is launched through a proxy only into the proxy pool, and only
   * through the parse of a proxy-file line whose check passed.
   */
  lemma LaunchProxyWasChecked(kind: PoolKind, useProxies: bool, file: Option<seq<string>>, shuffled: seq<string>, probe: string -> bool)
    requires file.Some? ==> multiset(shuffled) == multiset(Candidates(file.value))
    ensures var o := LaunchOptionsFor(kind, useProxies, CreateProxy(file, shuffled, probe));
            o.proxy.Some? ==>
              && kind == Proxy && useProxies && file.Some?
              && exists line :: line in Candidates(file.value) && CheckProxy(line, probe) && ParseProxy(line) == Ok(o.proxy.value)
  {
    CreateProxyChoice(file, shuffled, probe);
  }

  class PlaywrightManager {
    const poolSize: nat
    /** `self.browsers`: the `proxy` and `no_proxy` pools. */
    var browsers: map<PoolKind, seq<Browser>>
    /** `self.indices`: the round-robin cursor of each pool. */
    var indices: map<PoolKind, nat>
    const trackRequests: bool
    const trackCache: bool
    const detailedLogging: bool
    /** `CACHE_DIR`. */
    const cacheDir: string

    /** Both dictionaries have an entry for each pool. */
    predicate Valid()
      reads this
    {
      Proxy in browsers && NoProxy in browsers && Proxy in indices && NoProxy in indices
    }

    /** The pools and cursors as one value. */
    function State(): PoolState
      reads this
      requires Valid()
    {
      PoolState(browsers[Proxy], browsers[NoProxy], indices[Proxy], indices[NoProxy])
    }

    /** `__init__`: empty pools, cursors at 0, request tracking on. */
    constructor (poolSize: nat, enableCaching: bool, detailedLogging: bool, cacheDir: string)
      ensures Valid() && State() == EmptyPools && CursorsInRange(State())
      ensures this.poolSize == poolSize && trackRequests
      ensures trackCache == enableCaching && this.detailedLogging == detailedLogging
      ensures this.cacheDir == cacheDir
    {
      this.poolSize := poolSize;
      browsers := map[Proxy := [], NoProxy := []];
      indices := map[Proxy := 0, NoProxy := 0];
      trackRequests := true;
      trackCache := enableCaching;
      this.detailedLogging := detailedLogging;
      this.cacheDir := cacheDir;
    }

    /** `add_browser(kind)` given the launch's outcome: append the browser, if any. */
    method AddBrowser(kind: PoolKind, launched: Option<Browser>)
      requires Valid()
      modifies this
      ensures Valid() && State() == AddLaunched(old(State()), kind, launched)
    {
      if launched.Some? {
        browsers := browsers[kind := browsers[kind] + [launched.value]];
      }
      assert kind == Proxy || kind == NoProxy;
    }

    /**
     * `initialize_browser_pool`: `pool_size` proxy launches, then
     * `max(1, pool_size // 3)` no_proxy launches, each through `add_browser`.
     */
    method InitializeBrowserPool(proxyOutcomes: seq<Option<Browser>>, noProxyOutcomes: seq<Option<Browser>>)
      requires Valid()
      requires |proxyOutcomes| == poolSize && |noProxyOutcomes| == NoProxyLaunchCount(poolSize)
      modifies this
      ensures Valid() && State() == InitPools(old(State()), proxyOutcomes, noProxyOutcomes)
    {
      var i := 0;
      while i < poolSize
        invariant 0 <= i <= poolSize
        invariant Valid() && State() == InitPools(old(State()), proxyOutcomes[..i], [])
      {
        InitPoolsSnoc(old(State()), proxyOutcomes[..i], [], proxyOutcomes[i]);
        assert proxyOutcomes[..i + 1] == proxyOutcomes[..i] + [proxyOutcomes[i]];
        AddBrowser(Proxy, proxyOutcomes[i]);
        i := i + 1;
      }
      assert proxyOutcomes[..i] == proxyOutcomes;
      var j := 0;
      while j < NoProxyLaunchCount(poolSize)
        invariant 0 <= j <= |noProxyOutcomes|
        invariant Valid() && State() == InitPools(old(State()), proxyOutcomes, noProxyOutcomes[..j])
      {
        InitPoolsSnoc(old(State()), proxyOutcomes, noProxyOutcomes[..j], noProxyOutcomes[j]);
        assert noProxyOutcomes[..j + 1] == noProxyOutcomes[..j] + [noProxyOutcomes[j]];
        AddBrowser(NoProxy, noProxyOutcomes[j]);
        j := j + 1;
      }
      assert noProxyOutcomes[..j] == noProxyOutcomes;
    }

    /**
     * `get_browser(use_proxy)`. `first` and `fallback` are the outcomes of the
     * launches the call may attempt; `launches` says which it attempted.
     */
    method GetBrowser(useProxy: bool, first: Option<Browser>, fallback: Option<Browser>)
        returns (r: Result<Lease, AcquireError>, launches: seq<PoolKind>)
      requires Valid()
      modifies this
      ensures Valid() && Acquired(r, State(), launches) == Acquire(old(State()), useProxy, first, fallback)
    {
      ghost var s0 := State();
      var browserType := if useProxy then Proxy else NoProxy;
      launches := [];
      if browsers[browserType] == [] {
        launches := [browserType];
        if first.Some? {
          browsers := browsers[browserType := browsers[browserType] + [first.value]];
          assert State() == Append(s0, browserType, first.value);
        } else {
          browserType := NoProxy;
          if browsers[NoProxy] == [] {
            launches := launches + [NoProxy];
            if fallback.Some? {
              browsers := browsers[NoProxy := browsers[NoProxy] + [fallback.value]];
              assert State() == Append(s0, NoProxy, fallback.value);
            }
          }
        }
      }
      var pool := browsers[browserType];
      if pool == [] {
        r := Err(NoBrowsersAvailable);
        return;
      }
      ghost var mid := State();
      assert Acquire(s0, useProxy, first, fallback) == Pick(mid, browserType, launches);
      var index := indices[browserType];
      if index >= |pool| {
        r := Err(IndexOutOfRange);
        return;
      }
      indices := indices[browserType := (index + 1) % |pool|];
      r := Ok(Lease(pool[index], browserType));
    }

    /**
     * `close_all_browsers`: every browser is closed, proxy pool first, and both
     * pools are replaced by empty lists; the cursors are not reset.
     */
    method CloseAllBrowsers() returns (closed: seq<Browser>)
      requires Valid()
      modifies this
      ensures Valid() && State() == CloseAll(old(State()))
      ensures closed == old(State()).proxy + old(State()).noProxy
    {
      var pools := [browsers[Proxy], browsers[NoProxy]];
      closed := [];
      for k := 0 to |pools|
        invariant closed == if k == 0 then [] else if k == 1 then pools[0] else pools[0] + pools[1]
      {
        var pool := pools[k];
        var before := closed;
        for j := 0 to |pool|
          invariant closed == before + pool[..j]
        {
          closed := closed + [pool[j]];
        }
        assert pool[..|pool|] == pool;
      }
      browsers := map k | k in browsers :: [];
    }

    /**
     * `intercept_route` for a request to `url` on `page`, against the cache
     * files on `disk`; `io` holds the outcomes of the fetch, the write and
     * the fulfil.
     */
    method InterceptRoute(url: string, page: Page, disk: CacheDisk, io: RouteIo) returns (action: RouteAction)
      modifies page, disk
      ensures var x := Intercept(trackCache, cacheDir, url, old(disk.files), io);
              && action == x.action && disk.files == x.files
              && page.cacheHits == old(page.cacheHits) + (if x.hit then 1 else 0)
              && page.requests == old(page.requests)
    {
      action := Continue;
      if !(ShouldCache(url) && trackCache) {
        return;
      }
      var fileName := FileName(url);
      var cacheFile := CachePath(cacheDir, url);
      if NamesDirectory(fileName) {
        return;
      }
      if cacheFile in disk.files {
        if io.fulfillOk {
          action := Fulfill(200, CacheHitHeaders, disk.files[cacheFile]);
          page.cacheHits := page.cacheHits + 1;
        }
      } else {
        match io.fetch
        case Fetched(response) =>
          if io.writeOk {
            disk.files := disk.files[cacheFile := response.body];
          }
          if io.fulfillOk {
            action := Fulfill(response.status, response.headers, response.body);
          }
        case _ =>
      }
    }

    /**
     * `new_context_page(use_proxy)`: lease a browser, open a page on it with
     * the user agent `UserAgents[uaPick]`, an empty request log and no hits.
     */
    method NewContextPage(useProxy: bool, first: Option<Browser>, fallback: Option<Browser>, uaPick: nat)
        returns (r: Result<Page, AcquireError>, launches: seq<PoolKind>)
      requires Valid() && uaPick < |UserAgents|
      modifies this
      ensures Valid()
      ensures var a := Acquire(old(State()), useProxy, first, fallback);
              && State() == a.state && launches == a.launches
              && (a.result.Err? ==> r == Err(a.result.error))
              && (a.result.Ok? ==>
                    && r.Ok? && fresh(r.value)
                    && r.value.requests == [] && r.value.cacheHits == 0
                    && r.value.browserType == a.result.value.kind
                    && r.value.userAgent == UserAgents[uaPick]
                    && r.value.tracksRequests == trackRequests)
    {
      var lease;
      lease, launches := GetBrowser(useProxy, first, fallback);
      if lease.Err? {
        r := Err(lease.error);
        return;
      }
      var page := new Page(lease.value.kind, CreateUserAgent(uaPick), trackRequests);
      r := Ok(page);
    }

    /**
     * The counting part of `print_network_summary(page)`: nothing when detailed
     * logging or request tracking is off, otherwise one pass over the request
     * log counting status-200 records and the records of each pool.
     */
    method PrintNetworkSummary(page: Page) returns (s: Option<Summary>)
      ensures s == NetworkSummary(detailedLogging, trackRequests, page.requests, page.cacheHits)
    {
      if !detailedLogging || !trackRequests {
        s := None;
        return;
      }
      var rs := page.requests;
      var successful: nat, proxyRequests: nat, noProxyRequests: nat := 0, 0, 0;
      for i := 0 to |rs|
        invariant successful == CountSuccessful(rs[..i])
        invariant proxyRequests == CountKind(rs[..i], Proxy)
        invariant noProxyRequests == CountKind(rs[..i], NoProxy)
      {
        CountsOfPrefixStep(rs, i);
        if StatusOrZero(rs[i]) == 200 {
          successful := successful + 1;
        }
        if rs[i].browserType == Proxy {
          proxyRequests := proxyRequests + 1;
        }
        if rs[i].browserType == NoProxy {
          noProxyRequests := noProxyRequests + 1;
        }
      }
      assert rs[..|rs|] == rs;
      assert NetworkSummary(detailedLogging, trackRequests, rs, page.cacheHits).Some?;
      s := Some(Summary(|rs|, successful, page.cacheHits, proxyRequests, noProxyRequests));
    }
  }

  /**
   * From a fresh manager, after `initialize_browser_pool` the cursors are in
   * range, and they stay in range across any number of `get_browser` calls.
   */
  lemma InitThenAcquireKeepsCursors(poolSize: nat, proxyOutcomes: seq<Option<Browser>>, noProxyOutcomes: seq<Option<Browser>>,
                                    useProxy: bool, first: Option<Browser>, fallback: Option<Browser>)
    requires |proxyOutcomes| == poolSize && |noProxyOutcomes| == NoProxyLaunchCount(poolSize)
    ensures var s := InitPools(EmptyPools, proxyOutcomes, noProxyOutcomes);
            && CursorsInRange(s)
            && CursorsInRange(Acquire(s, useProxy, first, fallback).state)
  {
    InitPoolsBounds(poolSize, proxyOutcomes, noProxyOutcomes);
    AcquireKeepsCursorsInRange(InitPools(EmptyPools, proxyOutcomes, noProxyOutcomes), useProxy, first, fallback);
  }
}
