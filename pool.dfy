/**
 * The browser pools of `PlaywrightManager` (utils/browser.py) as values: the
 * two lists `browsers['proxy']` and `browsers['no_proxy']`, their round-robin
 * cursors `indices`, and what `get_browser`, `add_browser`,
 * `initialize_browser_pool` and `close_all_browsers` do to them. A browser
 * launch is an oracle outcome: a browser, or `None` when the launch failed.
 */
module BrowserPool {
  import opened Wrappers

  /** The two keys of `browsers` and `indices`. */
  datatype PoolKind = Proxy | NoProxy

  /** An opaque handle to a launched browser. */
  datatype Browser = Browser(id: nat)

  /**
   * The pool lists and cursors: `browsers['proxy']`, `browsers['no_proxy']`,
   * `indices['proxy']` and `indices['no_proxy']`.
   */
  datatype PoolState = PoolState(proxy: seq<Browser>, noProxy: seq<Browser>, proxyIndex: nat, noProxyIndex: nat)
  {
    /** `browsers[kind]`. */
    function Pool(kind: PoolKind): seq<Browser>
    {
      if kind == Proxy then proxy else noProxy
    }

    /** `indices[kind]`. */
    function Index(kind: PoolKind): nat
    {
      if kind == Proxy then proxyIndex else noProxyIndex
    }

    /** `browsers[kind] = pool`. */
    function WithPool(kind: PoolKind, pool: seq<Browser>): (t: PoolState)
      ensures t.Pool(kind) == pool && t.Pool(Other(kind)) == Pool(Other(kind))
      ensures t.proxyIndex == proxyIndex && t.noProxyIndex == noProxyIndex
    {
      if kind == Proxy then this.(proxy := pool) else this.(noProxy := pool)
    }

    /** `indices[kind] = index`. */
    function WithIndex(kind: PoolKind, index: nat): (t: PoolState)
      ensures t.Index(kind) == index && t.Index(Other(kind)) == Index(Other(kind))
      ensures t.proxy == proxy && t.noProxy == noProxy
    {
      if kind == Proxy then this.(proxyIndex := index) else this.(noProxyIndex := index)
    }
  }

  /** The kind that is not `kind`. */
  function Other(kind: PoolKind): (o: PoolKind)
    ensures o != kind
  {
    if kind == Proxy then NoProxy else Proxy
  }

  /** The state `__init__` builds. */
  const EmptyPools: PoolState := PoolState([], [], 0, 0)

  /** The cursor of every non-empty pool indexes into it; an empty pool's cursor is 0. */
  predicate CursorsInRange(s: PoolState)
  {
    (s.proxyIndex < |s.proxy| || s.proxyIndex == 0)
    && (s.noProxyIndex < |s.noProxy| || s.noProxyIndex == 0)
  }

  /** Errors `get_browser` raises: its own "No browsers available", and the `IndexError` of `pool[index]`. */
  datatype AcquireError = NoBrowsersAvailable | IndexOutOfRange

  /** The `(browser, browser_type)` pair `get_browser` returns. */
  datatype Lease = Lease(browser: Browser, kind: PoolKind)

  /** One `get_browser` call: its result, the new pool state and the kinds of the launches it attempted, in order. */
  datatype Acquired = Acquired(result: Result<Lease, AcquireError>, state: PoolState, launches: seq<PoolKind>)

  /** `self.browsers[kind].append(browser)`. */
  function Append(s: PoolState, kind: PoolKind, b: Browser): (t: PoolState)
    ensures t.proxyIndex == s.proxyIndex && t.noProxyIndex == s.noProxyIndex
    ensures t.Pool(kind) == s.Pool(kind) + [b]
    ensures t.Pool(Other(kind)) == s.Pool(Other(kind))
  {
    s.WithPool(kind, s.Pool(kind) + [b])
  }

  /** `add_browser(kind)` after a launch with outcome `launched`: a failed launch adds nothing. */
  function AddLaunched(s: PoolState, kind: PoolKind, launched: Option<Browser>): (t: PoolState)
    ensures t.proxyIndex == s.proxyIndex && t.noProxyIndex == s.noProxyIndex
    ensures t.Pool(kind) == s.Pool(kind) + (if launched.Some? then [launched.value] else [])
    ensures t.Pool(Other(kind)) == s.Pool(Other(kind))
  {
    if launched.Some? then Append(s, kind, launched.value) else s
  }

  /**
   * The end of `get_browser` (utils/browser.py, lines 104-107): hand out
   * `pool[index]` and advance the cursor modulo the pool length; a cursor past
   * the end is the `IndexError`.
   */
  function Pick(s: PoolState, kind: PoolKind, launches: seq<PoolKind>): (a: Acquired)
    requires s.Pool(kind) != []
    ensures a.launches == launches
    ensures a.result.Ok? <==> s.Index(kind) < |s.Pool(kind)|
    ensures a.result.Ok? ==> a.result.value == Lease(s.Pool(kind)[s.Index(kind)], kind)
    ensures a.result.Ok? ==> a.state.Pool(Proxy) == s.Pool(Proxy) && a.state.Pool(NoProxy) == s.Pool(NoProxy)
  {
    var pool := s.Pool(kind);
    var index := s.Index(kind);
    if index < |pool| then
      Acquired(Ok(Lease(pool[index], kind)), s.WithIndex(kind, (index + 1) % |pool|), launches)
    else
      Acquired(Err(IndexOutOfRange), s, launches)
  }

  /**
   * `get_browser(use_proxy)`. `first` is the outcome of the launch into the
   * empty target pool, `fallback` that of the launch into an empty `no_proxy`
   * pool after the first failed; each is consulted only when the call reaches
   * that launch.
   */
  function Acquire(s: PoolState, useProxy: bool, first: Option<Browser>, fallback: Option<Browser>): (a: Acquired)
    ensures a.state.proxy == s.proxy || a.state.noProxy == s.noProxy
    ensures s.proxy <= a.state.proxy && |a.state.proxy| <= |s.proxy| + 1
    ensures s.noProxy <= a.state.noProxy && |a.state.noProxy| <= |s.noProxy| + 1
  {
    var target := if useProxy then Proxy else NoProxy;
    if s.Pool(target) != [] then
      Pick(s, target, [])
    else if first.Some? then
      Pick(Append(s, target, first.value), target, [target])
    else if s.Pool(NoProxy) != [] then
      Pick(s, NoProxy, [target])
    else if fallback.Some? then
      Pick(Append(s, NoProxy, fallback.value), NoProxy, [target, NoProxy])
    else
      Acquired(Err(NoBrowsersAvailable), s, [target, NoProxy])
  }

  /** On a non-empty target pool with its cursor in range: `pool[indices[t]]` is returned, the cursor moves on by one modulo the length, no launch happens and the pools stay as they are. */
  lemma AcquireRoundRobinStep(s: PoolState, useProxy: bool, first: Option<Browser>, fallback: Option<Browser>)
    requires var t := if useProxy then Proxy else NoProxy;
             s.Pool(t) != [] && s.Index(t) < |s.Pool(t)|
    ensures var t := if useProxy then Proxy else NoProxy;
            var a := Acquire(s, useProxy, first, fallback);
            && a.result == Ok(Lease(s.Pool(t)[s.Index(t)], t))
            && a.state == s.WithIndex(t, (s.Index(t) + 1) % |s.Pool(t)|)
            && a.launches == []
  {
  }

  /**
   * "No browsers available" is raised exactly when the target pool is empty, its
   * launch failed, `no_proxy` is empty too and the fallback launch failed; the
   * call then attempted two launches, and the pools are unchanged.
   */
  lemma AcquireExhausted(s: PoolState, useProxy: bool, first: Option<Browser>, fallback: Option<Browser>)
    ensures var t := if useProxy then Proxy else NoProxy;
            var a := Acquire(s, useProxy, first, fallback);
            a.result == Err(NoBrowsersAvailable)
            <==> s.Pool(t) == [] && first.None? && s.Pool(NoProxy) == [] && fallback.None?
    ensures var a := Acquire(s, useProxy, first, fallback);
            a.result == Err(NoBrowsersAvailable) ==> a.state == s && |a.launches| == 2
  {
  }

  /**
   * The fallback: a failed launch into an empty target pool switches to
   * `no_proxy`, which launches only when itself empty. With `use_proxy=False`
   * this is a second `no_proxy` launch attempt.
   */
  lemma AcquireFallback(s: PoolState, useProxy: bool, fallback: Option<Browser>)
    requires s.Pool(if useProxy then Proxy else NoProxy) == []
    ensures var a := Acquire(s, useProxy, None, fallback);
            && (s.Pool(NoProxy) != [] ==> a.launches == [if useProxy then Proxy else NoProxy])
            && (s.Pool(NoProxy) == [] ==> a.launches == [if useProxy then Proxy else NoProxy, NoProxy])
            && (a.result.Ok? ==> a.result.value.kind == NoProxy)
            && (s.Pool(NoProxy) == [] && fallback.Some? ==>
                  a.result == Ok(Lease(fallback.value, NoProxy)) || s.Index(NoProxy) > 0)
    ensures !useProxy && s.Pool(NoProxy) == [] ==> Acquire(s, useProxy, None, fallback).launches == [NoProxy, NoProxy]
  {
  }

  /** The returned kind names the pool the browser sits in, and is the target kind or `no_proxy`. */
  lemma AcquireKindNamesPool(s: PoolState, useProxy: bool, first: Option<Browser>, fallback: Option<Browser>)
    ensures var a := Acquire(s, useProxy, first, fallback);
            a.result.Ok? ==>
              && a.result.value.browser in a.state.Pool(a.result.value.kind)
              && (a.result.value.kind == (if useProxy then Proxy else NoProxy) || a.result.value.kind == NoProxy)
  {
  }

  /** With cursors in range, `get_browser` never hits `IndexError`, and keeps the cursors in range. */
  lemma AcquireKeepsCursorsInRange(s: PoolState, useProxy: bool, first: Option<Browser>, fallback: Option<Browser>)
    requires CursorsInRange(s)
    ensures var a := Acquire(s, useProxy, first, fallback);
            CursorsInRange(a.state) && a.result != Err(IndexOutOfRange)
  {
  }

  /** `add_browser` only appends, and keeps the cursors in range. */
  lemma AddLaunchedKeepsCursorsInRange(s: PoolState, kind: PoolKind, launched: Option<Browser>)
    requires CursorsInRange(s)
    ensures CursorsInRange(AddLaunched(s, kind, launched))
  {
  }

  /** The browsers among the launch outcomes, in order. */
  function Launched(outcomes: seq<Option<Browser>>): (bs: seq<Browser>)
    ensures |bs| <= |outcomes|
    ensures forall b :: b in bs <==> Some(b) in outcomes
  {
    if outcomes == [] then []
    else
      assert forall o :: o in outcomes <==> o == outcomes[0] || o in outcomes[1..];
      (if outcomes[0].Some? then [outcomes[0].value] else []) + Launched(outcomes[1..])
  }

  /** Launched distributes over appending one more outcome. */
  lemma {:induction false} LaunchedSnoc(outcomes: seq<Option<Browser>>, o: Option<Browser>)
    ensures Launched(outcomes + [o]) == Launched(outcomes) + (if o.Some? then [o.value] else [])
    decreases |outcomes|
  {
    if outcomes != [] {
      assert (outcomes + [o])[1..] == outcomes[1..] + [o];
      LaunchedSnoc(outcomes[1..], o);
    } else {
      assert outcomes + [o] == [o];
    }
  }

  /** `max(1, pool_size // 3)`: how many `no_proxy` launches `initialize_browser_pool` issues. */
  function NoProxyLaunchCount(poolSize: nat): (n: nat)
    ensures n >= 1 && n * 3 <= poolSize + 3
  {
    if poolSize / 3 > 1 then poolSize / 3 else 1
  }

  /** `initialize_browser_pool` with the outcome of each of its launches: every successful launch is appended to its pool. */
  function InitPools(s: PoolState, proxyOutcomes: seq<Option<Browser>>, noProxyOutcomes: seq<Option<Browser>>): (t: PoolState)
    ensures t.proxyIndex == s.proxyIndex && t.noProxyIndex == s.noProxyIndex
  {
    s.(proxy := s.proxy + Launched(proxyOutcomes), noProxy := s.noProxy + Launched(noProxyOutcomes))
  }

  /** One more launch outcome in either series is one more `add_browser` on that pool. */
  lemma InitPoolsSnoc(s: PoolState, ps: seq<Option<Browser>>, ns: seq<Option<Browser>>, o: Option<Browser>)
    ensures InitPools(s, ps + [o], ns) == AddLaunched(InitPools(s, ps, ns), Proxy, o)
    ensures InitPools(s, ps, ns + [o]) == AddLaunched(InitPools(s, ps, ns), NoProxy, o)
  {
    LaunchedSnoc(ps, o);
    LaunchedSnoc(ns, o);
  }

  /**
   * From the empty pools, `pool_size` proxy launches and `max(1, pool_size // 3)`
   * `no_proxy` launches leave at most that many browsers in each pool (failed
   * launches are omitted), every launched browser present, and cursors in range.
   */
  lemma InitPoolsBounds(poolSize: nat, proxyOutcomes: seq<Option<Browser>>, noProxyOutcomes: seq<Option<Browser>>)
    requires |proxyOutcomes| == poolSize && |noProxyOutcomes| == NoProxyLaunchCount(poolSize)
    ensures var t := InitPools(EmptyPools, proxyOutcomes, noProxyOutcomes);
            && |t.Pool(Proxy)| <= poolSize
            && |t.Pool(NoProxy)| <= NoProxyLaunchCount(poolSize)
            && (forall b :: b in t.Pool(Proxy) <==> Some(b) in proxyOutcomes)
            && (forall b :: b in t.Pool(NoProxy) <==> Some(b) in noProxyOutcomes)
            && CursorsInRange(t)
  {
    var t := InitPools(EmptyPools, proxyOutcomes, noProxyOutcomes);
    assert t.Pool(Proxy) == Launched(proxyOutcomes);
    assert t.Pool(NoProxy) == Launched(noProxyOutcomes);
  }

  /** `close_all_browsers`: both pools emptied, the cursors left as they were. */
  function CloseAll(s: PoolState): (t: PoolState)
    ensures t.proxyIndex == s.proxyIndex && t.noProxyIndex == s.noProxyIndex
    ensures t.Pool(Proxy) == [] && t.Pool(NoProxy) == []
  {
    s.(proxy := [], noProxy := [])
  }

  /**
   * Closing does not re-establish the cursor invariant: a proxy cursor left at 2
   * makes the next `get_browser` launch one browser and then index it at 2,
   * which raises `IndexError` (after appending the launched browser).
   */
  lemma CloseAllLeavesStaleCursor(s: PoolState, b: Browser)
    requires s.proxyIndex == 2
    ensures var t := CloseAll(s);
            var a := Acquire(t, true, Some(b), None);
            a.result == Err(IndexOutOfRange) && a.state.Pool(Proxy) == [b]
  {
  }

  /** The results of `n` consecutive `get_browser(use_proxy)` calls that launch nothing. */
  function AcquireRun(s: PoolState, useProxy: bool, n: nat): (rs: seq<Result<Lease, AcquireError>>)
    ensures |rs| == n
    decreases n
  {
    if n == 0 then []
    else
      var a := Acquire(s, useProxy, None, None);
      [a.result] + AcquireRun(a.state, useProxy, n - 1)
  }

  /** The cursor after `(index + 1) % len(pool)` for an index in range. */
  function Advance(i: nat, k: nat): nat
  {
    if i + 1 < k then i + 1 else 0
  }

  /** The cursor after `j` advances from `i` in a pool of `k`. */
  function Cursor(i: nat, j: nat, k: nat): nat
  {
    if j == 0 then i else Advance(Cursor(i, j - 1, k), k)
  }

  /** Within one lap the cursor is `i + j`, wrapped once. */
  lemma {:induction false} CursorOneLap(i: nat, j: nat, k: nat)
    requires i < k && j < k
    ensures Cursor(i, j, k) == if i + j < k then i + j else i + j - k
  {
    if j > 0 {
      CursorOneLap(i, j - 1, k);
    }
  }

  /** One call on a non-empty target pool with its cursor in range, in the terms of `Cursor`. */
  lemma AcquireAdvances(s: PoolState, useProxy: bool)
    requires var t := if useProxy then Proxy else NoProxy;
             s.Pool(t) != [] && s.Index(t) < |s.Pool(t)|
    ensures var t := if useProxy then Proxy else NoProxy;
            var a := Acquire(s, useProxy, None, None);
            && a.result == Ok(Lease(s.Pool(t)[s.Index(t)], t))
            && a.state.Pool(t) == s.Pool(t)
            && a.state.Index(t) == Advance(s.Index(t), |s.Pool(t)|)
  {
    AcquireRoundRobinStep(s, useProxy, None, None);
  }

  /** Round robin: on an unchanging non-empty pool the j-th of consecutive calls returns the browser at the cursor advanced j times. */
  lemma {:induction false} AcquireRunRotates(s: PoolState, useProxy: bool, n: nat, j: nat)
    requires var t := if useProxy then Proxy else NoProxy;
             s.Pool(t) != [] && s.Index(t) < |s.Pool(t)|
    requires j < n
    ensures var t := if useProxy then Proxy else NoProxy;
            var pool := s.Pool(t);
            && Cursor(s.Index(t), j, |pool|) < |pool|
            && AcquireRun(s, useProxy, n)[j] == Ok(Lease(pool[Cursor(s.Index(t), j, |pool|)], t))
    decreases j
  {
    var t := if useProxy then Proxy else NoProxy;
    var a := Acquire(s, useProxy, None, None);
    AcquireAdvances(s, useProxy);
    if j > 0 {
      AcquireRunRotates(a.state, useProxy, n - 1, j - 1);
      CursorShift(s.Index(t), j - 1, |s.Pool(t)|);
    }
  }

  /** Advancing once and then `j` times is advancing `j + 1` times. */
  lemma {:induction false} CursorShift(i: nat, j: nat, k: nat)
    ensures Cursor(Advance(i, k), j, k) == Cursor(i, j + 1, k)
    decreases j
  {
    if j > 0 {
      CursorShift(i, j - 1, k);
    }
  }

  /**
   * K consecutive calls on an unchanging pool of K distinct browsers return
   * each of them exactly once.
   */
  lemma AcquireRunEachOnce(s: PoolState, useProxy: bool)
    requires var t := if useProxy then Proxy else NoProxy;
             s.Pool(t) != [] && s.Index(t) < |s.Pool(t)|
    requires var pool := s.Pool(if useProxy then Proxy else NoProxy);
             forall x, y :: 0 <= x < y < |pool| ==> pool[x] != pool[y]
    ensures var t := if useProxy then Proxy else NoProxy;
            var pool := s.Pool(t);
            var rs := AcquireRun(s, useProxy, |pool|);
            && (forall m :: 0 <= m < |pool| ==> Ok(Lease(pool[m], t)) in rs)
            && (forall x, y :: 0 <= x < y < |rs| ==> rs[x] != rs[y])
  {
    var t := if useProxy then Proxy else NoProxy;
    var pool := s.Pool(t);
    var k := |pool|;
    var i := s.Index(t);
    var rs := AcquireRun(s, useProxy, k);
    forall m | 0 <= m < k ensures Ok(Lease(pool[m], t)) in rs {
      var j := if m >= i then m - i else m + k - i;
      CursorOneLap(i, j, k);
      AcquireRunRotates(s, useProxy, k, j);
      assert rs[j] == Ok(Lease(pool[m], t));
    }
    forall x, y | 0 <= x < y < k ensures rs[x] != rs[y] {
      AcquireRunRotates(s, useProxy, k, x);
      AcquireRunRotates(s, useProxy, k, y);
      CursorOneLap(i, x, k);
      CursorOneLap(i, y, k);
    }
  }

  /** Pool size 3 with every launch succeeding: three proxy browsers and one `no_proxy` browser, cursors at 0. */
  lemma InitThreeProxies(b0: Browser, b1: Browser, b2: Browser, d: Browser)
    ensures NoProxyLaunchCount(3) == 1
    ensures InitPools(EmptyPools, [Some(b0), Some(b1), Some(b2)], [Some(d)]) == PoolState([b0, b1, b2], [d], 0, 0)
  {
    var outcomes := [Some(b0), Some(b1), Some(b2)];
    assert outcomes[1..] == [Some(b1), Some(b2)];
    assert outcomes[1..][1..] == [Some(b2)];
    assert outcomes[1..][1..][1..] == [];
    assert Launched([Some(b2)]) == [b2] by {
      assert [Some(b2)][1..] == [];
    }
    assert Launched(outcomes[1..]) == [b1, b2];
    assert Launched(outcomes) == [b0, b1, b2];
    assert Launched([Some(d)]) == [d] by {
      assert [Some(d)][1..] == [];
    }
  }

  /**
   * Three proxy browsers and four `get_browser()` calls from cursor 0: the cursor
   * goes 0, 1, 2, 0.
   */
  lemma ThreeProxiesFourCalls(s: PoolState, b0: Browser, b1: Browser, b2: Browser)
    requires s.proxy == [b0, b1, b2] && s.proxyIndex == 0
    ensures AcquireRun(s, true, 4)
            == [Ok(Lease(b0, Proxy)), Ok(Lease(b1, Proxy)), Ok(Lease(b2, Proxy)), Ok(Lease(b0, Proxy))]
  {
    var rs := AcquireRun(s, true, 4);
    AcquireRunRotates(s, true, 4, 0);
    AcquireRunRotates(s, true, 4, 1);
    AcquireRunRotates(s, true, 4, 2);
    AcquireRunRotates(s, true, 4, 3);
    assert Cursor(0, 1, 3) == 1 && Cursor(0, 2, 3) == 2 && Cursor(0, 3, 3) == 0;
  }
}
