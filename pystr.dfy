/**
 * The handful of Python string and path operations the core relies on, written
 * out with the semantics of CPython: `str.split(sep)`, `str.strip(chars)`,
 * `str.endswith`, `str.find`/`str.rfind`, `os.path.basename` and the
 * two-argument `os.path.join` of the POSIX path module.
 */
module PyStr {
  import opened Wrappers

  // ---------------------------------------------------------------------------
  // str.split(sep) with a one-character separator
  // ---------------------------------------------------------------------------

  /** `s.split(sep)`: the maximal separator-free pieces of `s`, in order. */
  function Split(s: string, sep: char): (parts: seq<string>)
    ensures |parts| >= 1
    ensures forall i :: 0 <= i < |parts| ==> sep !in parts[i]
    decreases |s|
  {
    if |s| == 0 then [""]
    else
      var rest := Split(s[1..], sep);
      if s[0] == sep then [""] + rest
      else [[s[0]] + rest[0]] + rest[1..]
  }

  /** `sep.join(parts)`. */
  function Join(parts: seq<string>, sep: char): string
    requires |parts| >= 1
  {
    if |parts| == 1 then parts[0] else parts[0] + [sep] + Join(parts[1..], sep)
  }

  /** Number of occurrences of `c` in `s`. */
  function CountChar(s: string, c: char): nat
  {
    if |s| == 0 then 0 else (if s[0] == c then 1 else 0) + CountChar(s[1..], c)
  }

  /** Joining the pieces of a split gives back the original string. */
  lemma {:induction false} JoinSplit(s: string, sep: char)
    ensures Join(Split(s, sep), sep) == s
    decreases |s|
  {
    if |s| > 0 {
      var rest := Split(s[1..], sep);
      JoinSplit(s[1..], sep);
      if s[0] == sep {
        assert ([""] + rest)[1..] == rest;
      } else if |rest| > 1 {
        var parts := [[s[0]] + rest[0]] + rest[1..];
        assert parts[1..] == rest[1..];
        assert Join(rest, sep) == rest[0] + [sep] + Join(rest[1..], sep);
      }
    }
  }

  /** Splitting a separator-free word followed by the separator peels off that word. */
  lemma {:induction false} SplitWordThenSep(w: string, t: string, sep: char)
    requires sep !in w
    ensures Split(w + [sep] + t, sep) == [w] + Split(t, sep)
    decreases |w|
  {
    var s := w + [sep] + t;
    if |w| == 0 {
      assert s[0] == sep && s[1..] == t;
    } else {
      assert s[0] == w[0] && s[1..] == w[1..] + [sep] + t;
      SplitWordThenSep(w[1..], t, sep);
      assert [w[0]] + w[1..] == w;
    }
  }

  /** A separator-free string splits into itself alone. */
  lemma {:induction false} SplitNoSep(w: string, sep: char)
    requires sep !in w
    ensures Split(w, sep) == [w]
    decreases |w|
  {
    if |w| > 0 {
      SplitNoSep(w[1..], sep);
      assert [w[0]] + w[1..] == w;
    }
  }

  /** Splitting a join of separator-free pieces gives back the pieces. */
  lemma {:induction false} SplitJoin(parts: seq<string>, sep: char)
    requires |parts| >= 1
    requires forall i :: 0 <= i < |parts| ==> sep !in parts[i]
    ensures Split(Join(parts, sep), sep) == parts
    decreases |parts|
  {
    if |parts| == 1 {
      SplitNoSep(parts[0], sep);
    } else {
      SplitJoin(parts[1..], sep);
      SplitWordThenSep(parts[0], Join(parts[1..], sep), sep);
      assert [parts[0]] + parts[1..] == parts;
    }
  }

  /** `len(s.split(sep)) == s.count(sep) + 1`. */
  lemma {:induction false} SplitCount(s: string, sep: char)
    ensures |Split(s, sep)| == CountChar(s, sep) + 1
    decreases |s|
  {
    if |s| > 0 {
      SplitCount(s[1..], sep);
    }
  }

  /** Counting distributes over concatenation. */
  lemma {:induction false} CountCharAppend(a: string, b: string, c: char)
    ensures CountChar(a + b, c) == CountChar(a, c) + CountChar(b, c)
    decreases |a|
  {
    if |a| == 0 {
      assert a + b == b;
    } else {
      assert (a + b)[0] == a[0] && (a + b)[1..] == a[1..] + b;
      CountCharAppend(a[1..], b, c);
    }
  }

  /** A string holding `c` counts it at least once. */
  lemma {:induction false} CountCharPositive(s: string, c: char)
    requires c in s
    ensures CountChar(s, c) >= 1
    decreases |s|
  {
    if s[0] != c {
      assert c in s[1..];
      CountCharPositive(s[1..], c);
    }
  }

  // ---------------------------------------------------------------------------
  // str.strip(chars), str.endswith
  // ---------------------------------------------------------------------------

  /** `s.lstrip(chars)`: drops the longest prefix made of `chars`. */
  function LStrip(s: string, chars: set<char>): (r: string)
    ensures |r| <= |s| && r == s[|s| - |r|..]
    ensures forall k :: 0 <= k < |s| - |r| ==> s[k] in chars
    ensures r != [] ==> r[0] !in chars
    decreases |s|
  {
    if |s| > 0 && s[0] in chars then LStrip(s[1..], chars) else s
  }

  /** `s.rstrip(chars)`: drops the longest suffix made of `chars`. */
  function RStrip(s: string, chars: set<char>): (r: string)
    ensures |r| <= |s| && r == s[..|r|]
    ensures forall k :: |r| <= k < |s| ==> s[k] in chars
    ensures r != [] ==> r[|r| - 1] !in chars
    decreases |s|
  {
    if |s| > 0 && s[|s| - 1] in chars then RStrip(s[..|s| - 1], chars) else s
  }

  /**
   * `s.strip(chars)`: `s[i..j]` where `s[..i]` and `s[j..]` consist of `chars`
   * only and neither end of the result is in `chars`.
   */
  function Strip(s: string, chars: set<char>): (r: string)
    ensures |r| <= |s|
    ensures r != [] ==> r[0] !in chars && r[|r| - 1] !in chars
  {
    RStrip(LStrip(s, chars), chars)
  }

  /** Strip removes only characters of `chars`, and only from the two ends. */
  lemma StripIsTrimmedSlice(s: string, chars: set<char>)
    ensures var r := Strip(s, chars);
            var i := |s| - |LStrip(s, chars)|;
            0 <= i <= i + |r| <= |s| && r == s[i..i + |r|]
            && (forall k :: 0 <= k < i ==> s[k] in chars)
            && (forall k :: i + |r| <= k < |s| ==> s[k] in chars)
  {
    var l := LStrip(s, chars);
    var r := RStrip(l, chars);
    var i := |s| - |l|;
    assert Strip(s, chars) == r;
    SliceOfSlice(s, i, |r|);
    forall k | i + |r| <= k < |s| ensures s[k] in chars {
      assert s[k] == l[k - i];
    }
  }

  /** A prefix of a suffix is a middle slice. */
  lemma SliceOfSlice(s: string, i: nat, n: nat)
    requires i + n <= |s|
    ensures s[i..][..n] == s[i..i + n]
  {
  }

  /** Stripping twice strips nothing more. */
  lemma StripIdempotent(s: string, chars: set<char>)
    ensures Strip(Strip(s, chars), chars) == Strip(s, chars)
  {
    var r := Strip(s, chars);
    if r != [] {
      assert LStrip(r, chars) == r;
      assert RStrip(r, chars) == r;
    }
  }

  /** `s.endswith(suffix)`. */
  predicate EndsWith(s: string, suffix: string)
  {
    |suffix| <= |s| && s[|s| - |suffix|..] == suffix
  }

  // ---------------------------------------------------------------------------
  // str.find / str.rfind with a one-character needle
  // ---------------------------------------------------------------------------

  /** `s.find(c)`, with `None` for -1. */
  function Find(s: string, c: char): (r: Option<nat>)
    ensures r.None? <==> c !in s
    ensures r.Some? ==> r.value < |s| && s[r.value] == c && c !in s[..r.value]
  {
    if |s| == 0 then None
    else if s[0] == c then Some(0)
    else match Find(s[1..], c)
      case None => None
      case Some(i) => assert s[..i + 1] == [s[0]] + s[1..][..i]; Some(i + 1)
  }

  /** `s.rfind(c)`, with `None` for -1. */
  function RFind(s: string, c: char): (r: Option<nat>)
    ensures r.None? <==> c !in s
    ensures r.Some? ==> r.value < |s| && s[r.value] == c && c !in s[r.value + 1..]
  {
    if |s| == 0 then None
    else if s[|s| - 1] == c then Some(|s| - 1)
    else
      var r := RFind(s[..|s| - 1], c);
      if r.Some? then
        assert s[r.value + 1..] == s[..|s| - 1][r.value + 1..] + [s[|s| - 1]];
        r
      else
        r
  }

  /** `s.split(c, 1)[0]`: everything before the first `c`, or all of `s`. */
  function Before(s: string, c: char): (r: string)
    ensures c !in r && r <= s
  {
    match Find(s, c)
    case None => s
    case Some(i) => s[..i]
  }

  // ---------------------------------------------------------------------------
  // posixpath.basename and posixpath.join
  // ---------------------------------------------------------------------------

  /**
   * `os.path.basename(p)`: what follows the last `/`, i.e. the longest suffix
   * of `p` without `/`: it is all of `p` or it follows a `/`.
   */
  function Basename(p: string): (r: string)
    ensures '/' !in r
    ensures EndsWith(p, r)
    ensures |r| == |p| || p[|p| - |r| - 1] == '/'
  {
    match RFind(p, '/')
    case None => p
    case Some(i) => p[i + 1..]
  }

  /** The basename of `p`, named `name`, is the longest suffix of `p` without `/`. */
  lemma BasenameIsLastSegment(p: string, name: string)
    requires name == Basename(p)
    ensures '/' !in name && EndsWith(p, name)
    ensures |name| == |p| || p[|p| - |name| - 1] == '/'
  {
  }

  /** `os.path.join(a, b)` on POSIX. */
  function PathJoin(a: string, b: string): string
  {
    if |b| > 0 && b[0] == '/' then b
    else if a == "" || a[|a| - 1] == '/' then a + b
    else a + "/" + b
  }

  /** `c.isascii() and c.isalpha()`. */
  predicate IsAsciiLetter(c: char)
  {
    'a' <= c <= 'z' || 'A' <= c <= 'Z'
  }

  /** `s.lower()` on ASCII letters (other characters are kept). */
  function AsciiLower(s: string): (r: string)
    ensures |r| == |s|
    ensures forall i :: 0 <= i < |s| ==> !('A' <= r[i] <= 'Z')
  {
    if |s| == 0 then ""
    else [if 'A' <= s[0] <= 'Z' then (s[0] as int + 32) as char else s[0]] + AsciiLower(s[1..])
  }
}
