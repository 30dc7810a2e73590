/**
 * The resource cache behind `intercept_route` (utils/browser.py): which
 * requests are cacheable, the file a response is kept in, and the decision the
 * interceptor takes against the cache directory. The disk is a map from file
 * path to bytes; `route.fetch()`, the file write and `route.fulfill()` are
 * oracle outcomes.
 */
module ResourceCache {
  import opened Wrappers
  import opened PyStr

  newtype byte = x: int | 0 <= x < 256

  type Bytes = seq<byte>

  /**
   * `cache_patterns`, in order, by the extension each matches: the pattern for
   * `.js` is the regular expression `\.js$`.
   */
  const CacheSuffixes: seq<string> := [".js", ".css", ".woff2", ".png", ".jpg", ".gif"]

  /** The source text of the pattern for `suffix`: a backslash, the suffix, a dollar sign. */
  function PatternSource(suffix: string): string
  {
    "\\" + suffix + "$"
  }

  /** `re.search(r'\.ext$', s)` for the suffix `.ext`: `s` ends with it. */
  predicate Searches(suffix: string, s: string)
  {
    EndsWith(s, suffix)
  }

  /** `any(re.search(pattern, url) for pattern in cache_patterns)`. */
  predicate ShouldCache(url: string)
  {
    exists i :: 0 <= i < |CacheSuffixes| && Searches(CacheSuffixes[i], url)
  }

  /** A URL is cacheable exactly when it ends in one of the six extensions. */
  lemma ShouldCacheSuffixes(url: string)
    ensures ShouldCache(url) <==>
              EndsWith(url, ".js") || EndsWith(url, ".css") || EndsWith(url, ".woff2")
              || EndsWith(url, ".png") || EndsWith(url, ".jpg") || EndsWith(url, ".gif")
  {
    if EndsWith(url, ".js") { assert Searches(CacheSuffixes[0], url); }
    if EndsWith(url, ".css") { assert Searches(CacheSuffixes[1], url); }
    if EndsWith(url, ".woff2") { assert Searches(CacheSuffixes[2], url); }
    if EndsWith(url, ".png") { assert Searches(CacheSuffixes[3], url); }
    if EndsWith(url, ".jpg") { assert Searches(CacheSuffixes[4], url); }
    if EndsWith(url, ".gif") { assert Searches(CacheSuffixes[5], url); }
  }

  /** No extension contains `?`. */
  lemma SuffixesHaveNoQueryMark(i: nat)
    requires i < |CacheSuffixes|
    ensures '?' !in CacheSuffixes[i]
  {
  }

  /** A suffix of `u?q` either reaches back over the `?` or is a suffix of `q`. */
  lemma SuffixAfterQueryMark(u: string, q: string, suffix: string)
    requires EndsWith(u + "?" + q, suffix)
    ensures '?' in suffix || EndsWith(q, suffix)
  {
    var url := u + "?" + q;
    if |suffix| > |q| {
      assert suffix[|u| - (|url| - |suffix|)] == url[|u|];
    } else {
      assert url[|url| - |suffix|..] == q[|q| - |suffix|..];
    }
  }

  /**
   * The patterns are matched against the whole URL, query included: a URL with
   * a query is cacheable only when the query itself ends in one of the
   * extensions, so `a.js?v=1` is not cached and `a.js?v=b.js` is.
   */
  lemma QueryDefeatsCaching(u: string, q: string)
    ensures ShouldCache(u + "?" + q) <==> exists i :: 0 <= i < |CacheSuffixes| && EndsWith(q, CacheSuffixes[i])
  {
    var url := u + "?" + q;
    forall i | 0 <= i < |CacheSuffixes| && Searches(CacheSuffixes[i], url)
      ensures EndsWith(q, CacheSuffixes[i])
    {
      SuffixesHaveNoQueryMark(i);
      SuffixAfterQueryMark(u, q, CacheSuffixes[i]);
    }
    forall i | 0 <= i < |CacheSuffixes| && EndsWith(q, CacheSuffixes[i])
      ensures Searches(CacheSuffixes[i], url)
    {
      assert url[|url| - |CacheSuffixes[i]|..] == q[|q| - |CacheSuffixes[i]|..];
    }
  }

  /** The characters `p.strip('.$^')` removes. */
  const CategoryStripChars: set<char> := {'.', '$', '^'}

  /** The category directory of a pattern: its source text with `.`, `$` and `^` stripped from its ends. */
  function Category(suffix: string): string
  {
    Strip(PatternSource(suffix), CategoryStripChars)
  }

  /** Stripping a pattern keeps its backslash and its suffix. */
  lemma StripEscapedPattern(suffix: string)
    requires |suffix| > 0 && suffix[|suffix| - 1] !in CategoryStripChars
    ensures Category(suffix) == "\\" + suffix
  {
    var body := "\\" + suffix;
    var s := PatternSource(suffix);
    assert s == body + "$";
    assert s[0] == '\\';
    assert LStrip(s, CategoryStripChars) == s;
    assert s[..|s| - 1] == body;
    assert body[|body| - 1] == suffix[|suffix| - 1];
    assert RStrip(body, CategoryStripChars) == body;
  }

  /** The category directories are `\.js`, `\.css`, ...: the backslash stays, so they are not the bare extensions, and none is `misc` or holds a `/`. */
  lemma CategoriesKeepBackslash(i: nat)
    requires i < |CacheSuffixes|
    ensures Category(CacheSuffixes[i]) == "\\" + CacheSuffixes[i]
    ensures Category(CacheSuffixes[i]) != "" && Category(CacheSuffixes[i]) != "misc"
    ensures '/' !in Category(CacheSuffixes[i])
  {
    var x := CacheSuffixes[i];
    assert |x| > 0 && x[|x| - 1] !in CategoryStripChars && '/' !in x by {
      if i == 0 { } else if i == 1 { } else if i == 2 { } else if i == 3 { } else if i == 4 { } else { }
    }
    StripEscapedPattern(x);
    var c := "\\" + x;
    assert c[0] == '\\';
  }

  /** The category of the first pattern of `ps` that matches `fileName`, or `misc`. */
  function FirstCategory(ps: seq<string>, fileName: string): string
  {
    if ps == [] then "misc"
    else if Searches(ps[0], fileName) then Category(ps[0])
    else FirstCategory(ps[1..], fileName)
  }

  /** `next((p.strip('.$^') for p in cache_patterns if re.search(p, file_name)), 'misc')`. */
  function ResourceType(fileName: string): string
  {
    FirstCategory(CacheSuffixes, fileName)
  }

  /** First match over a suffix of the pattern list, for the lemma below. */
  lemma {:induction false} FirstCategoryFrom(k: nat, fileName: string)
    requires k <= |CacheSuffixes|
    ensures FirstCategory(CacheSuffixes[k..], fileName) == "misc"
            <==> forall i :: k <= i < |CacheSuffixes| ==> !Searches(CacheSuffixes[i], fileName)
    ensures forall i :: k <= i < |CacheSuffixes| && Searches(CacheSuffixes[i], fileName)
                        && (forall j :: k <= j < i ==> !Searches(CacheSuffixes[j], fileName))
                        ==> FirstCategory(CacheSuffixes[k..], fileName) == Category(CacheSuffixes[i])
    decreases |CacheSuffixes| - k
  {
    if k < |CacheSuffixes| {
      FirstCategoryFrom(k + 1, fileName);
      assert CacheSuffixes[k..][1..] == CacheSuffixes[k + 1..];
      CategoriesKeepBackslash(k);
    }
  }

  /** The category is that of the first pattern matching the file name, and `misc` exactly when none does. */
  lemma ResourceTypeFirstMatch(fileName: string)
    ensures ResourceType(fileName) == "misc"
            <==> forall i :: 0 <= i < |CacheSuffixes| ==> !Searches(CacheSuffixes[i], fileName)
    ensures forall i :: 0 <= i < |CacheSuffixes| && Searches(CacheSuffixes[i], fileName)
                        && (forall j :: 0 <= j < i ==> !Searches(CacheSuffixes[j], fileName))
                        ==> ResourceType(fileName) == Category(CacheSuffixes[i])
    ensures '/' !in ResourceType(fileName)
  {
    FirstCategoryFrom(0, fileName);
    assert CacheSuffixes[0..] == CacheSuffixes;
    if ResourceType(fileName) != "misc" {
      var i :| 0 <= i < |CacheSuffixes| && Searches(CacheSuffixes[i], fileName);
      var i0 := FirstMatchIndex(fileName, i);
      CategoriesKeepBackslash(i0);
    }
  }

  /** A `.js` file is kept under the directory `\.js` (backslash, dot, `js`), not under a friendly name. */
  lemma ScriptsGoToEscapedDirectory(fileName: string)
    requires EndsWith(fileName, ".js")
    ensures CacheSuffixes[0] == ".js" && ResourceType(fileName) == "\\" + CacheSuffixes[0]
  {
    assert Searches(CacheSuffixes[0], fileName);
    FirstCategoryHead(CacheSuffixes, fileName);
    CategoriesKeepBackslash(0);
  }

  /** The first pattern, when it matches, gives the category. */
  lemma FirstCategoryHead(ps: seq<string>, fileName: string)
    requires ps != [] && Searches(ps[0], fileName)
    ensures FirstCategory(ps, fileName) == Category(ps[0])
  {
  }

  /** The first matching pattern at or before a matching one. */
  function FirstMatchIndex(fileName: string, i: nat): (i0: nat)
    requires i < |CacheSuffixes| && Searches(CacheSuffixes[i], fileName)
    ensures i0 <= i && Searches(CacheSuffixes[i0], fileName)
    ensures forall j :: 0 <= j < i0 ==> !Searches(CacheSuffixes[j], fileName)
  {
    if exists j :: 0 <= j < i && Searches(CacheSuffixes[j], fileName) then
      var j :| 0 <= j < i && Searches(CacheSuffixes[j], fileName);
      FirstMatchIndex(fileName, j)
    else i
  }

  // ---------------------------------------------------------------------------
  // urllib.parse.urlparse(url).path
  // ---------------------------------------------------------------------------

  /** The characters `urlsplit` accepts in a scheme. */
  predicate IsSchemeChar(c: char)
  {
    IsAsciiLetter(c) || '0' <= c <= '9' || c == '+' || c == '-' || c == '.'
  }

  /** What `urlsplit` takes for a scheme: an ASCII letter, then scheme characters. */
  predicate IsScheme(s: string)
  {
    s != "" && IsAsciiLetter(s[0]) && forall k :: 0 <= k < |s| ==> IsSchemeChar(s[k])
  }

  /** The schemes whose last path segment `urlparse` splits `;params` from. */
  const UsesParams: set<string> := {
    "", "ftp", "hdl", "prospero", "http", "imap", "https", "shttp", "rtsp",
    "rtsps", "rtspu", "sip", "sips", "mms", "sftp", "tel"
  }

  /** The scheme (lower-cased) and what follows its colon, or no scheme and the whole URL. */
  function SplitScheme(url: string): (string, string)
  {
    match Find(url, ':')
    case None => ("", url)
    case Some(i) =>
      if IsScheme(url[..i]) then (AsciiLower(url[..i]), url[i + 1..])
      else ("", url)
  }

  /** The position of the first of `/`, `?` or `#` in `s`, or `|s|`. */
  function NetlocEnd(s: string): (n: nat)
    ensures n <= |s|
    ensures forall k :: 0 <= k < n ==> s[k] != '/' && s[k] != '?' && s[k] != '#'
    ensures n < |s| ==> s[n] == '/' || s[n] == '?' || s[n] == '#'
  {
    if s == [] || s[0] == '/' || s[0] == '?' || s[0] == '#' then 0 else 1 + NetlocEnd(s[1..])
  }

  /** `_splitparams`: the path up to the `;` that starts the last segment's parameters. */
  function StripParams(path: string): string
  {
    match RFind(path, '/')
    case Some(j) =>
      (match Find(path[j..], ';')
       case None => path
       case Some(k) => path[..j + k])
    case None => Before(path, ';')
  }

  /** What follows a leading `//netloc`, or all of `rest` when it does not start with `//`. */
  function AfterNetloc(rest: string): string
  {
    if |rest| >= 2 && rest[..2] == "//" then rest[2..][NetlocEnd(rest[2..])..] else rest
  }

  /** The path part: before `#` and `?`, without the `;params` when the scheme has them. */
  function PathPart(scheme: string, afterNetloc: string): string
  {
    var path := Before(Before(afterNetloc, '#'), '?');
    if scheme in UsesParams && ';' in path then StripParams(path) else path
  }

  /** `urlparse(url).path`: after the scheme and the `//netloc`, before `#` and `?`, without `;params`. */
  function UrlPath(url: string): string
  {
    var (scheme, rest) := SplitScheme(url);
    PathPart(scheme, AfterNetloc(rest))
  }

  /**
   * `os.path.basename(urlparse(url).path)`: the part of the URL path after its
   * last `/`, or the whole path when it has none.
   */
  function FileName(url: string): (name: string)
    ensures '/' !in name
  {
    Basename(UrlPath(url))
  }

  /** The file name is the longest suffix of the URL path without `/`: all of it, or what follows a `/`. */
  lemma FileNameIsLastSegment(url: string)
    ensures var p, name := UrlPath(url), FileName(url);
            && '/' !in name && EndsWith(p, name)
            && (|name| == |p| || p[|p| - |name| - 1] == '/')
  {
    BasenameIsLastSegment(UrlPath(url), FileName(url));
  }

  /** `os.path.join(os.path.join(CACHE_DIR, resource_type), file_name)`. */
  function CachePath(cacheDir: string, url: string): string
  {
    var name := FileName(url);
    PathJoin(PathJoin(cacheDir, ResourceType(name)), name)
  }

  /** Every pattern of `ps` names a non-empty category without `/`. */
  predicate NamedCategories(ps: seq<string>)
  {
    forall i :: 0 <= i < |ps| ==> Category(ps[i]) != "" && '/' !in Category(ps[i])
  }

  /** The six cache patterns name proper directories. */
  lemma CacheSuffixesNamed()
    ensures NamedCategories(CacheSuffixes)
  {
    forall i | 0 <= i < |CacheSuffixes|
      ensures Category(CacheSuffixes[i]) != "" && '/' !in Category(CacheSuffixes[i])
    {
      CategoriesKeepBackslash(i);
    }
  }

  /** Every category is a non-empty name without `/`, `misc` included. */
  lemma {:induction false} FirstCategoryShape(ps: seq<string>, fileName: string)
    requires NamedCategories(ps)
    ensures FirstCategory(ps, fileName) != ""
    ensures '/' !in FirstCategory(ps, fileName)
  {
    if ps != [] {
      assert NamedCategories(ps[1..]) by {
        forall i | 0 <= i < |ps| - 1 ensures ps[1..][i] == ps[i + 1] { }
      }
      FirstCategoryShape(ps[1..], fileName);
    }
  }

  /** Joining a directory, a name and a file name, none of which has a stray `/`. */
  lemma PathJoinTwice(dir: string, category: string, name: string)
    requires dir != "" && dir[|dir| - 1] != '/'
    requires category != "" && '/' !in category && '/' !in name
    ensures PathJoin(PathJoin(dir, category), name) == dir + "/" + category + "/" + name
  {
    assert category[0] in category;
    var d := dir + "/" + category;
    assert PathJoin(dir, category) == d;
    assert d[|d| - 1] == category[|category| - 1];
    assert category[|category| - 1] in category;
    if name != "" {
      assert name[0] in name;
    }
  }

  /** The cache file is `<cache dir>/<category>/<file name>`. */
  lemma CachePathLayout(cacheDir: string, url: string)
    requires cacheDir != "" && cacheDir[|cacheDir| - 1] != '/'
    ensures var name := FileName(url);
            CachePath(cacheDir, url) == cacheDir + "/" + ResourceType(name) + "/" + name
  {
    var name := FileName(url);
    CacheSuffixesNamed();
    FirstCategoryShape(CacheSuffixes, name);
    PathJoinTwice(cacheDir, ResourceType(name), name);
  }

  /** A well-formed scheme before the first colon is split off and lower-cased. */
  lemma SplitSchemeOf(scheme: string, rest: string)
    requires IsScheme(scheme)
    ensures SplitScheme(scheme + ":" + rest) == (AsciiLower(scheme), rest)
  {
    var url := scheme + ":" + rest;
    var n := |scheme|;
    assert url[..n] == scheme && url[n] == ':' && url[n + 1..] == rest;
    assert ':' !in scheme by {
      forall k | 0 <= k < n ensures scheme[k] != ':' {
        assert IsSchemeChar(scheme[k]);
      }
    }
    assert Find(url, ':') == Some(n);
  }

  /** The netloc runs up to the `/` that starts the path. */
  lemma AfterNetlocOf(host: string, path: string)
    requires '/' !in host && '?' !in host && '#' !in host
    requires path != "" && path[0] == '/'
    ensures AfterNetloc("//" + host + path) == path
  {
    var tail := host + path;
    assert tail[|host|] == '/' && tail[..|host|] == host;
    assert NetlocEnd(tail) == |host|;
    assert "//" + host + path == "//" + tail;
    ConcatSlices("//", tail);
    ConcatSlices(host, path);
  }

  /** A path without `#`, `?` or `;` is its own path part. */
  lemma PathPartOfPlainPath(scheme: string, path: string)
    requires '#' !in path && '?' !in path && ';' !in path
    ensures PathPart(scheme, path) == path
  {
    assert Before(path, '#') == path;
    assert Before(path, '?') == path;
  }

  /** The two halves of a concatenation, taken back by slicing. */
  lemma ConcatSlices(a: string, b: string)
    ensures (a + b)[..|a|] == a && (a + b)[|a|..] == b
  {
  }

  /** A URL `scheme://host/path` with a plain path: `urlparse` gives back that path. */
  lemma UrlPathOfPlainUrl(scheme: string, host: string, path: string)
    requires IsScheme(scheme)
    requires '/' !in host && '?' !in host && '#' !in host
    requires path != "" && path[0] == '/' && '#' !in path && '?' !in path && ';' !in path
    ensures UrlPath(scheme + "://" + host + path) == path
  {
    var rest := "//" + host + path;
    assert scheme + "://" + host + path == scheme + ":" + rest;
    SplitSchemeOf(scheme, rest);
    AfterNetlocOf(host, path);
    PathPartOfPlainPath(AsciiLower(scheme), path);
  }

  /** The cache file of `scheme://host/name` is `<cache dir>/<category of name>/<name>`. */
  lemma CachePathOfPlainUrl(cacheDir: string, scheme: string, host: string, name: string)
    requires cacheDir != "" && cacheDir[|cacheDir| - 1] != '/'
    requires IsScheme(scheme)
    requires '/' !in host && '?' !in host && '#' !in host
    requires '/' !in name && '#' !in name && '?' !in name && ';' !in name
    ensures FileName(scheme + "://" + host + "/" + name) == name
    ensures CachePath(cacheDir, scheme + "://" + host + "/" + name)
            == cacheDir + "/" + ResourceType(name) + "/" + name
  {
    var path := "/" + name;
    assert scheme + "://" + host + "/" + name == scheme + "://" + host + path;
    assert path[1..] == name;
    UrlPathOfPlainUrl(scheme, host, path);
    assert RFind(path, '/') == Some(0);
    CachePathLayout(cacheDir, scheme + "://" + host + path);
  }

  // ---------------------------------------------------------------------------
  // The interception decision
  // ---------------------------------------------------------------------------

  /** What `route.fetch()` gives back. */
  datatype Response = Response(status: int, headers: map<string, string>, body: Bytes)

  /** `route.fetch()` and `response.body()`: a response, a falsy response, or an exception. */
  datatype FetchOutcome = Fetched(response: Response) | NoResponse | FetchRaised

  /** The outcomes of the foreign calls one interception may make. */
  datatype RouteIo = RouteIo(fetch: FetchOutcome, writeOk: bool, fulfillOk: bool)

  /** How the route is finished: `route.continue_()` or `route.fulfill(status, headers, body)`. */
  datatype RouteAction = Continue | Fulfill(status: int, headers: map<string, string>, body: Bytes)

  /**
   * One interception: how the route was finished, the cache directory after it,
   * whether `page.cache_hits` went up, and whether the network was asked
   * (`route.fetch()` called).
   */
  datatype Interception = Interception(action: RouteAction, files: map<string, Bytes>, hit: bool, fetched: bool)

  /** The headers a cached response is served with. */
  const CacheHitHeaders: map<string, string> := map["Cache-Control" := "max-age=31536000"]

  /**
   * A file name that makes the cache path a directory: the empty name (the
   * category directory itself), `.` (the same) and `..` (its parent). Each
   * exists once the category directory is created, and opening it raises.
   */
  predicate NamesDirectory(fileName: string)
  {
    fileName == "" || fileName == "." || fileName == ".."
  }

  /**
   * `intercept_route` against the cache files `files`. A failed `fulfill` or
   * `fetch` lands in the `except` branch, which continues the request. A file
   * name that `NamesDirectory` makes the cache path an existing directory, so
   * the existence test passes, opening it raises and the request is continued.
   */
  function Intercept(trackCache: bool, cacheDir: string, url: string, files: map<string, Bytes>, io: RouteIo): Interception
  {
    Decide(ShouldCache(url) && trackCache, FileName(url), CachePath(cacheDir, url), files, io)
  }

  /** The decision once the URL is classified and its file name and cache path are known. */
  function Decide(intercepted: bool, fileName: string, path: string, files: map<string, Bytes>, io: RouteIo): Interception
  {
    var pass := Interception(Continue, files, false, false);
    if !intercepted || NamesDirectory(fileName) then pass
    else if path in files then
      if io.fulfillOk then Interception(Fulfill(200, CacheHitHeaders, files[path]), files, true, false)
      else pass
    else
      match io.fetch
      case Fetched(r) =>
        var stored := if io.writeOk then files[path := r.body] else files;
        Interception(if io.fulfillOk then Fulfill(r.status, r.headers, r.body) else Continue, stored, false, true)
      case _ => Interception(Continue, files, false, true)
  }

  /**
   * A request that is not cacheable, caching off, or a file name that names a
   * directory: continued, nothing stored, no hit, no fetch.
   */
  lemma InterceptPassThrough(trackCache: bool, cacheDir: string, url: string, files: map<string, Bytes>, io: RouteIo)
    requires !ShouldCache(url) || !trackCache || NamesDirectory(FileName(url))
    ensures Intercept(trackCache, cacheDir, url, files, io) == Interception(Continue, files, false, false)
  {
  }

  /** A cache hit: served with status 200, the stored bytes and a year-long max-age; one more hit; no fetch; the cache unchanged. */
  lemma InterceptHit(cacheDir: string, url: string, files: map<string, Bytes>, io: RouteIo)
    requires ShouldCache(url) && !NamesDirectory(FileName(url)) && CachePath(cacheDir, url) in files && io.fulfillOk
    ensures var x := Intercept(true, cacheDir, url, files, io);
            && x.action == Fulfill(200, map["Cache-Control" := "max-age=31536000"], files[CachePath(cacheDir, url)])
            && x.hit && !x.fetched && x.files == files
  {
  }

  /**
   * A cache miss: the fetched body is stored under the cache path whatever the
   * status (unless the write fails), and the request is fulfilled with the
   * response's own status, headers and body (unless fulfilling fails).
   */
  lemma InterceptMiss(cacheDir: string, url: string, files: map<string, Bytes>, io: RouteIo)
    requires ShouldCache(url) && !NamesDirectory(FileName(url)) && CachePath(cacheDir, url) !in files
    ensures var x := Intercept(true, cacheDir, url, files, io);
            var path := CachePath(cacheDir, url);
            && !x.hit && x.fetched
            && (io.fetch.Fetched? ==>
                  && x.files == (if io.writeOk then files[path := io.fetch.response.body] else files)
                  && x.action == (if io.fulfillOk then Fulfill(io.fetch.response.status, io.fetch.response.headers, io.fetch.response.body) else Continue))
            && (!io.fetch.Fetched? ==> x.action == Continue && x.files == files)
  {
  }

  /** The hit counter goes up only when a cached body was served with status 200. */
  lemma InterceptHitMeansServed(trackCache: bool, cacheDir: string, url: string, files: map<string, Bytes>, io: RouteIo)
    ensures var x := Intercept(trackCache, cacheDir, url, files, io);
            x.hit ==> x.action.Fulfill? && x.action.status == 200 && !x.fetched
                      && x.action.body == files[CachePath(cacheDir, url)]
  {
    var path := CachePath(cacheDir, url);
    var x := Decide(ShouldCache(url) && trackCache, FileName(url), path, files, io);
    assert Intercept(trackCache, cacheDir, url, files, io) == x;
    if x.hit {
      assert path in files && x.action == Fulfill(200, CacheHitHeaders, files[path]);
    }
  }

  /**
   * The interceptor never rewrites a file that is already cached and writes no
   * other file than the request's cache path: entries are first-write-wins.
   */
  lemma InterceptNeverOverwrites(trackCache: bool, cacheDir: string, url: string, files: map<string, Bytes>, io: RouteIo)
    ensures var x := Intercept(trackCache, cacheDir, url, files, io);
            && (forall p :: p in files ==> p in x.files && x.files[p] == files[p])
            && (forall p :: p in x.files && p !in files ==> p == CachePath(cacheDir, url) && ShouldCache(url) && trackCache)
  {
    var x := Intercept(trackCache, cacheDir, url, files, io);
    var path := CachePath(cacheDir, url);
    if ShouldCache(url) && trackCache && !NamesDirectory(FileName(url)) && path !in files && io.fetch.Fetched? && io.writeOk {
      assert x.files == files[path := io.fetch.response.body];
    } else {
      assert x.files == files;
    }
  }

  /**
   * The first request for a cacheable URL fetches and stores the body; a second
   * request for the same URL is served from the stored file without touching the
   * network, whatever the network would have done.
   */
  lemma MissThenHit(cacheDir: string, url: string, files: map<string, Bytes>, r: Response, io2: RouteIo)
    requires ShouldCache(url) && !NamesDirectory(FileName(url)) && CachePath(cacheDir, url) !in files
    requires io2.fulfillOk
    ensures var x1 := Intercept(true, cacheDir, url, files, RouteIo(Fetched(r), true, true));
            var x2 := Intercept(true, cacheDir, url, x1.files, io2);
            && x1.fetched && x1.action == Fulfill(r.status, r.headers, r.body)
            && x2.action == Fulfill(200, CacheHitHeaders, r.body) && x2.hit && !x2.fetched
            && x2.files == x1.files
  {
    InterceptMiss(cacheDir, url, files, RouteIo(Fetched(r), true, true));
  }

  /** The on-disk store the interceptor reads and writes: one file per cache path. */
  class CacheDisk {
    var files: map<string, Bytes>

    constructor (initial: map<string, Bytes>)
      ensures files == initial
    {
      files := initial;
    }
  }
}
