/**
 * The pieces of Python's `urllib.parse.urlparse`, `os.path.basename`,
 * `os.path.splitext` and `os.path.join` (POSIX flavour) that the media
 * handler and the link rewriter use.
 */
module Urls {
  import opened Wrappers
  import opened Text

  /** `urlparse` raises `ValueError("Invalid IPv6 URL")` for an unbalanced bracket in the host part. */
  datatype UrlError = InvalidIPv6

  datatype ParsedUrl = ParsedUrl(scheme: string, netloc: string, path: string,
                                 params: string, query: string, fragment: string)

  /** `scheme_chars` of `urllib.parse`. */
  predicate IsSchemeChar(c: char) {
    'a' <= c <= 'z' || 'A' <= c <= 'Z' || IsDigit(c) || c == '+' || c == '-' || c == '.'
  }

  /** The characters that end a network location other than `/`. */
  predicate QueryOrHash(c: char) { c == '?' || c == '#' }

  predicate IsAsciiLetter(c: char) { 'a' <= c <= 'z' || 'A' <= c <= 'Z' }

  /**
   * An ASCII character. `urlsplit` rejects a non-ASCII network location whose
   * NFKC form holds one of `/?#@:`; an ASCII one is never rejected that way.
   */
  predicate IsAsciiChar(c: char) { c < 128 as char }

  /** Schemes listed in `uses_params`: only these have `;params` split off the path. */
  predicate UsesParams(scheme: string) {
    scheme in ["", "ftp", "hdl", "prospero", "http", "imap", "https", "shttp", "rtsp",
               "rtsps", "rtspu", "sip", "sips", "mms", "sftp", "tel"]
  }

  /** The first index at or after `from` holding one of `/?#`, or `|s|`. */
  function NetlocEnd(s: string, from: nat): (r: nat)
    requires from <= |s|
    ensures from <= r <= |s|
    ensures r < |s| ==> s[r] in "/?#"
    ensures forall k :: from <= k < r ==> s[k] !in "/?#"
    decreases |s| - from
  {
    if from == |s| || s[from] in "/?#" then from else NetlocEnd(s, from + 1)
  }

  /**
   * A scheme ends at `i`: a `:` preceded by an ASCII letter and then only scheme
   * characters, none of which is `:`, so it is the first colon of the URL.
   */
  predicate SchemeEndsAt(url: string, i: nat) {
    0 < i < |url| && url[i] == ':' && IsAsciiLetter(url[0]) && AllChars(url[..i], IsSchemeChar)
  }

  /** Splits off the scheme: `(scheme, rest)`, the scheme lower-cased. */
  function SplitScheme(url: string): (r: (string, string))
    ensures r.0 == [] ==> r.1 == url
    ensures r.0 != [] ==> exists i :: 0 < i < |url| && url[i] == ':' && r.1 == url[i + 1..]
    ensures r.0 != [] <==> exists i: nat :: SchemeEndsAt(url, i)
    ensures forall i: nat | SchemeEndsAt(url, i) :: r == (Lower(url[..i]), url[i + 1..])
  {
    SchemeEndIsFirstColon(url);
    match Find(url, ':')
    case Some(i) =>
      if i > 0 && IsAsciiLetter(url[0]) && AllChars(url[..i], IsSchemeChar)
      then
        assert SchemeEndsAt(url, i);
        (Lower(url[..i]), url[i + 1..])
      else ([], url)
    case None => ([], url)
  }

  /** Where a scheme ends there is the first colon. */
  lemma SchemeEndIsFirstColon(url: string)
    ensures forall i: nat | SchemeEndsAt(url, i) :: Find(url, ':') == Some(i)
  {
    forall i: nat | SchemeEndsAt(url, i) ensures Find(url, ':') == Some(i) {
      assert ':' in url;

    }
  }

  /** `_splitparams`: the `;params` of the last path segment. */
  function SplitParams(path: string): (r: (string, string))
    ensures |r.0| <= |path|
  {
    match RFind(path, '/')
    case Some(slash) =>
      (match Find(path[slash..], ';')
       case Some(k) => (path[..slash + k], path[slash + k + 1..])
       case None => (path, []))
    case None =>
      (match Find(path, ';')
       case Some(k) => (path[..k], path[k + 1..])
       case None => (path, []))
  }

  /** Splits `//netloc` off the front, as `_splitnetloc(url, 2)` does. */
  function SplitNetloc(rest: string): (r: (string, string))
    ensures (r.0 == [] && r.1 == rest) || (StartsWith(rest, "//") && rest == "//" + r.0 + r.1)
  {
    if |rest| >= 2 && rest[..2] == "//" then
      var e := NetlocEnd(rest, 2);
      assert rest == "//" + rest[2..e] + rest[e..];
      (rest[2..e], rest[e..])
    else ([], rest)
  }

  /** `url.split(c, 1)` when `c in url`, otherwise `(url, "")`. */
  function SplitOnce(s: string, c: char): (r: (string, string))
    ensures c !in r.0
    ensures c !in s ==> r == (s, [])
    ensures c in s ==> s == r.0 + [c] + r.1
  {
    match Find(s, c)
    case Some(h) =>
      assert s == s[..h] + [c] + s[h + 1..];
      (s[..h], s[h + 1..])
    case None => (s, [])
  }

  /** A network location with `[` but no `]`, or `]` but no `[`. */
  predicate UnbalancedBrackets(netloc: string) {
    ('[' in netloc && ']' !in netloc) || (']' in netloc && '[' !in netloc)
  }

  /** The network location `urlsplit` finds in an already sanitised URL. */
  function NetlocOf(url: string): string {
    SplitNetloc(SplitScheme(url).1).0
  }

  /** `urllib.parse.urlparse(url)`: the URL is sanitised, then split. */
  function UrlParse(url: string): (r: Result<ParsedUrl, UrlError>)
    ensures r.Err? ==> '[' in url || ']' in url
    ensures r.Err? <==> UnbalancedBrackets(NetlocOf(Sanitize(url)))
  {
    SanitizedChars(url);
    SplitUrl(Sanitize(url))
  }

  /** The splitting `urlparse` does once the URL is sanitised. */
  function SplitUrl(url: string): (r: Result<ParsedUrl, UrlError>)
    ensures r.Err? ==> '[' in url || ']' in url
    ensures r.Err? <==> UnbalancedBrackets(NetlocOf(url))
  {
    var (scheme, afterScheme) := SplitScheme(url);
    var (netloc, afterNetloc) := SplitNetloc(afterScheme);
    if ('[' in netloc && ']' !in netloc) || (']' in netloc && '[' !in netloc) then
      assert forall c :: c in netloc ==> c in url by { NetlocInUrl(url); }
      Err(InvalidIPv6)
    else
      var (beforeHash, fragment) := SplitOnce(afterNetloc, '#');
      var (beforeQuery, query) := SplitOnce(beforeHash, '?');
      var (path, params) :=
        if UsesParams(scheme) && ';' in beforeQuery then SplitParams(beforeQuery) else (beforeQuery, []);
      Ok(ParsedUrl(scheme, netloc, path, params, query, fragment))
  }

  /** The network location is a piece of the URL. */
  lemma NetlocInUrl(url: string)
    ensures forall c :: c in SplitNetloc(SplitScheme(url).1).0 ==> c in url
  {
    var rest := SplitScheme(url).1;
    var netloc := SplitNetloc(rest).0;
    forall c | c in netloc ensures c in url {
      var k :| 0 <= k < |netloc| && netloc[k] == c;
      assert rest[2 + k] == c;
      if SplitScheme(url).0 != [] {
        var i :| 0 < i < |url| && url[i] == ':' && rest == url[i + 1..];
        assert url[i + 1 + 2 + k] == c;
      }
    }
  }

  /** What is left after the scheme and the network location is a suffix of the URL reaching back to any `?` or `#`. */
  lemma AfterNetlocReachesHash(url: string, h: nat)
    requires h < |url| && QueryOrHash(url[h])
    ensures var after := SplitNetloc(SplitScheme(url).1).1;
            |url| - h <= |after| && after == url[|url| - |after|..]
  {
    var rest := SplitScheme(url).1;
    SchemeKeepsHash(url, h);
    assert |url| - h <= |rest| <= |url| && rest == url[|url| - |rest|..] && QueryOrHash(rest[h - (|url| - |rest|)]);
    NetlocInSuffix(url, rest, h);
  }

  lemma NetlocInSuffix(url: string, rest: string, h: nat)
    requires h < |url| && |url| - h <= |rest| <= |url| && rest == url[|url| - |rest|..] && QueryOrHash(rest[h - (|url| - |rest|)])
    ensures var after := SplitNetloc(rest).1;
            |url| - h <= |after| && after == url[|url| - |after|..]
  {
    NetlocKeepsHash(rest, h - (|url| - |rest|));
    SuffixOfSuffix(url, rest, SplitNetloc(rest).1);
  }

  lemma SuffixOfSuffix(u: string, r: string, a: string)
    requires |r| <= |u| && r == u[|u| - |r|..]
    requires |a| <= |r| && a == r[|r| - |a|..]
    ensures a == u[|u| - |a|..]
  {
  }

  /** What follows the scheme is a suffix of the URL. */
  lemma SchemeRestIsSuffix(url: string)
    ensures var rest := SplitScheme(url).1;
            |rest| <= |url| && rest == url[|url| - |rest|..]
  {
  }

  /** What follows the network location is a suffix of the text it was split from. */
  lemma NetlocRestIsSuffix(rest: string)
    ensures var after := SplitNetloc(rest).1;
            |after| <= |rest| && after == rest[|rest| - |after|..]
  {
  }

  /** Every character of a suffix is a character of the whole. */
  lemma SuffixChars(u: string, a: string)
    requires |a| <= |u| && a == u[|u| - |a|..]
    ensures forall c :: c in a ==> c in u
  {
    forall c | c in a ensures c in u {
      var k :| 0 <= k < |a| && a[k] == c;
      assert u[|u| - |a| + k] == c;
    }
  }

  /** The scheme never reaches past a `?` or `#`. */
  lemma SchemeKeepsHash(url: string, h: nat)
    requires h < |url| && QueryOrHash(url[h])
    ensures var rest := SplitScheme(url).1;
            |url| - h <= |rest| <= |url| && rest == url[|url| - |rest|..] && QueryOrHash(rest[h - (|url| - |rest|)])
  {
    if SplitScheme(url).0 != [] {
      var i: nat :| SchemeEndsAt(url, i);
      assert i < h;
    }
  }

  /** The network location stops at the first of `/?#`, so it never reaches past a `?` or `#`. */
  lemma NetlocKeepsHash(rest: string, h: nat)
    requires h < |rest| && QueryOrHash(rest[h])
    ensures var after := SplitNetloc(rest).1;
            |rest| - h <= |after| <= |rest| && after == rest[|rest| - |after|..]
  {
    if |rest| >= 2 && rest[..2] == "//" {
      assert h >= 2 by { assert rest[0] == '/' && rest[1] == '/'; }
    }
  }

  /** Splitting at the first occurrence of `c`. */
  lemma SplitOnceAt(w: string, c: char, v: string)
    requires c !in w
    ensures SplitOnce(w + [c] + v, c) == (w, v)
  {
    var s := w + [c] + v;
    assert s[|w|] == c;
    var j := Find(s, c).value;
    assert s[..j] == w && s[j + 1..] == v;
  }

  /**
   * A URL whose text before its first `#` is ASCII and bracket-free parses, with
   * what follows the `#` as its fragment. The fragment may hold anything: it is
   * never part of the network location.
   */
  lemma SplitFragmentAfterHash(w: string, f: string)
    requires '#' !in w && '[' !in w && ']' !in w && AllChars(w, IsAsciiChar)
    ensures SplitUrl(w + "#" + f).Ok? && SplitUrl(w + "#" + f).value.fragment == f
  {
    var url := w + "#" + f;
    assert url[..|w|] == w;
    ParsesBefore(url, |w|);
    ParsedFragment(url);
    assert url[|w|] == '#';
    AfterNetlocReachesHash(url, |w|);
    var after := SplitNetloc(SplitScheme(url).1).1;
    var start := |url| - |after|;
    SuffixThroughHash(w, f, after);
    SplitOnceAt(w[start..], '#', f);
  }

  /** Without a bracket before a `?` or `#` the network location has none, so the URL parses. */
  lemma ParsesBefore(url: string, h: nat)
    requires h < |url| && QueryOrHash(url[h]) && '[' !in url[..h] && ']' !in url[..h]
    ensures SplitUrl(url).Ok?
  {
    NetlocBefore(url, h);
    var netloc := SplitNetloc(SplitScheme(url).1).0;
    assert '[' !in netloc && ']' !in netloc;
  }

  /** The network location lies before any `?` or `#`. */
  lemma NetlocBefore(url: string, h: nat)
    requires h < |url| && QueryOrHash(url[h])
    ensures forall c :: c in SplitNetloc(SplitScheme(url).1).0 ==> c in url[..h]
  {
    var rest := SplitScheme(url).1;
    var (netloc, after) := SplitNetloc(rest);
    SchemeRestIsSuffix(url);
    AfterNetlocReachesHash(url, h);
    if netloc != [] {
      MiddleChars(url, rest, netloc, after);
      PrefixChars(url, |url| - |after|, h);
    }
  }

  /** The middle of a suffix `"//" + n + a` of `u` lies in `u` before `a`. */
  lemma MiddleChars(u: string, r: string, n: string, a: string)
    requires |r| <= |u| && r == u[|u| - |r|..] && r == "//" + n + a
    ensures forall c :: c in n ==> c in u[..|u| - |a|]
  {
    forall c | c in n ensures c in u[..|u| - |a|] {
      var k :| 0 <= k < |n| && n[k] == c;
      assert r[2 + k] == c;
      assert u[..|u| - |a|][|u| - |r| + 2 + k] == c;
    }
  }

  /** A shorter prefix holds only characters of a longer one. */
  lemma PrefixChars(u: string, i: nat, j: nat)
    requires i <= j <= |u|
    ensures forall c :: c in u[..i] ==> c in u[..j]
  {
    forall c | c in u[..i] ensures c in u[..j] {
      var k :| 0 <= k < i && u[..i][k] == c;
      assert u[..j][k] == c;
    }
  }

  /**
   * A URL without `?` or `;` before its first `#` has a path unless a scheme or
   * a network location took the text before the `#`.
   */
  lemma SplitPathBeforeHash(w: string, f: string)
    requires '#' !in w && '[' !in w && ']' !in w && '?' !in w && ';' !in w && |w| > 2
    requires AllChars(w, IsAsciiChar)
    ensures SplitUrl(w + "#" + f).Ok?
    ensures var parts := SplitUrl(w + "#" + f).value;
            parts.scheme != [] || parts.netloc != [] || parts.path != []
  {
    var url := w + "#" + f;
    SplitFragmentAfterHash(w, f);
    var (scheme, rest) := SplitScheme(url);
    var (netloc, after) := SplitNetloc(rest);
    if scheme == [] && netloc == [] {
      assert rest == url;
      assert |url| - |after| <= 2;
      AfterNetlocReachesHash(url, |w|);
      var start := |url| - |after|;
      SuffixThroughHash(w, f, after);
      SplitOnceAt(w[start..], '#', f);
      var beforeHash := w[start..];
      assert beforeHash != [] && '?' !in beforeHash && ';' !in beforeHash;
      ParsedPath(url, beforeHash);
    }
  }

  /** With no `?` or `;` before the first `#` after the network location, the path is all of that text. */
  lemma ParsedPath(url: string, beforeHash: string)
    requires SplitOnce(SplitNetloc(SplitScheme(url).1).1, '#').0 == beforeHash
    requires '?' !in beforeHash && ';' !in beforeHash
    ensures SplitUrl(url).Ok? ==> SplitUrl(url).value.path == beforeHash
  {
  }

  lemma SuffixThroughHash(w: string, f: string, after: string)
    requires |f| + 1 <= |after| <= |w| + 1 + |f|
    requires after == (w + "#" + f)[|w| + 1 + |f| - |after|..]
    ensures after == w[|w| + 1 + |f| - |after|..] + "#" + f
  {
    var url := w + "#" + f;
    var start := |url| - |after|;
    assert url == w + ("#" + f);
    assert url[start..] == w[start..] + ("#" + f);
  }

  /** The fragment is what follows the first `#` after the network location. */
  lemma ParsedFragment(url: string)
    ensures SplitUrl(url).Ok? ==> SplitUrl(url).value.fragment == SplitOnce(SplitNetloc(SplitScheme(url).1).1, '#').1
  {
  }

  // ---------------------------------------------------------------------
  // Sanitising (CPython 3.12 `urlsplit`)
  // ---------------------------------------------------------------------

  /** `_WHATWG_C0_CONTROL_OR_SPACE`: the C0 controls and the space. */
  predicate IsC0OrSpace(c: char) { c <= ' ' }

  /** `_UNSAFE_URL_BYTES_TO_REMOVE`: tab, carriage return and line feed. */
  predicate IsUnsafe(c: char) { c == '\t' || c == '\r' || c == '\n' }

  /** `url.lstrip(_WHATWG_C0_CONTROL_OR_SPACE)`. */
  function LStripC0(s: string): (r: string)
    ensures |r| <= |s| && r == s[|s| - |r|..]
    ensures r == [] || !IsC0OrSpace(r[0])
  {
    if s != [] && IsC0OrSpace(s[0]) then
      var r := LStripC0(s[1..]);
      assert s[|s| - |r|..] == s[1..][|s| - 1 - |r|..];
      r
    else s
  }

  /** Only controls and spaces are stripped. */
  lemma {:induction false} LStripOnlyC0(s: string)
    ensures forall k | 0 <= k < |s| - |LStripC0(s)| :: IsC0OrSpace(s[k])
  {
    if s != [] && IsC0OrSpace(s[0]) {
      LStripOnlyC0(s[1..]);
      forall k | 1 <= k < |s| - |LStripC0(s)| ensures IsC0OrSpace(s[k]) {
        assert s[k] == s[1..][k - 1];
      }
    }
  }

  /** Every tab, carriage return and line feed removed, the other characters kept in order. */
  function RemoveUnsafe(s: string): string {
    RemoveChar(RemoveChar(RemoveChar(s, '\t'), '\r'), '\n')
  }

  /** What is left holds no tab, carriage return or line feed, and nothing that was not there. */
  lemma RemoveUnsafeChars(s: string)
    ensures forall c :: c in RemoveUnsafe(s) ==> !IsUnsafe(c) && c in s
  {
    var r := RemoveUnsafe(s);
    forall c | c in r ensures !IsUnsafe(c) && c in s {
      assert multiset(r)[c] > 0;
    }
  }

  /**
   * What `urlsplit` splits: leading C0 controls and spaces stripped, then every
   * tab, carriage return and line feed removed.
   */
  function Sanitize(url: string): (r: string)
    ensures r == [] || !IsC0OrSpace(r[0])
  {
    var t := LStripC0(url);
    RemoveUnsafeKeepsHead(t);
    RemoveUnsafe(t)
  }

  lemma RemoveUnsafeKeepsHead(t: string)
    requires t == [] || !IsC0OrSpace(t[0])
    ensures RemoveUnsafe(t) == [] || !IsC0OrSpace(RemoveUnsafe(t)[0])
  {
    if t != [] {
      assert t == [t[0]] + t[1..];
      RemoveUnsafeCons(t[0], t[1..]);
    }
  }

  /** Sanitising only removes characters, and leaves no tab, carriage return or line feed. */
  lemma SanitizedChars(url: string)
    ensures forall c :: c in Sanitize(url) ==> !IsUnsafe(c) && c in url
  {
    var t := LStripC0(url);
    SuffixChars(url, t);
    RemoveUnsafeChars(t);
  }

  /** A character that is not removed stays at the front. */
  lemma RemoveUnsafeCons(x: char, s: string)
    requires !IsUnsafe(x)
    ensures RemoveUnsafe([x] + s) == [x] + RemoveUnsafe(s)
  {
    var a := RemoveChar([x] + s, '\t');
    RemoveCharCons(x, s, '\t');
    var b := RemoveChar(a, '\r');
    RemoveCharCons(x, RemoveChar(s, '\t'), '\r');
    RemoveCharCons(x, RemoveChar(RemoveChar(s, '\t'), '\r'), '\n');
  }

  /** Text without tab, carriage return or line feed is kept as it is. */
  lemma RemoveUnsafeNoop(s: string)
    requires forall c :: c in s ==> !IsUnsafe(c)
    ensures RemoveUnsafe(s) == s
  {
    RemoveCharNoop(s, '\t');
    RemoveCharNoop(s, '\r');
    RemoveCharNoop(s, '\n');
  }

  /** Removal distributes over concatenation. */
  lemma RemoveUnsafeConcat(a: string, b: string)
    ensures RemoveUnsafe(a + b) == RemoveUnsafe(a) + RemoveUnsafe(b)
  {
    RemoveCharConcat(a, b, '\t');
    var a1, b1 := RemoveChar(a, '\t'), RemoveChar(b, '\t');
    RemoveCharConcat(a1, b1, '\r');
    RemoveCharConcat(RemoveChar(a1, '\r'), RemoveChar(b1, '\r'), '\n');
  }

  /** Stripping stops at a character that is neither a control nor a space. */
  lemma {:induction false} LStripConcat(a: string, x: char, t: string)
    requires !IsC0OrSpace(x)
    ensures LStripC0(a + [x] + t) == LStripC0(a) + [x] + t
  {
    if a == [] {
      assert a + [x] + t == [x] + t;
    } else if IsC0OrSpace(a[0]) {
      assert (a + [x] + t)[1..] == a[1..] + [x] + t;
      LStripConcat(a[1..], x, t);
    } else {
      assert (a + [x] + t)[0] == a[0];
    }
  }

  /**
   * Sanitising a URL around a character that survives it, such as the `#`
   * of a fragment or the `?` of a query: the text after it only loses its tabs,
   * carriage returns and line feeds.
   */
  lemma SanitizeConcat(a: string, x: char, t: string)
    requires !IsC0OrSpace(x)
    ensures Sanitize(a + [x] + t) == Sanitize(a) + [x] + RemoveUnsafe(t)
  {
    LStripConcat(a, x, t);
    SanitizeIs(a + [x] + t);
    SanitizeIs(a);
    RemoveUnsafeAround(LStripC0(a), x, t);
  }

  lemma SanitizeIs(u: string)
    ensures Sanitize(u) == RemoveUnsafe(LStripC0(u))
  {
  }

  lemma RemoveUnsafeAround(l: string, x: char, t: string)
    requires !IsUnsafe(x)
    ensures RemoveUnsafe(l + [x] + t) == RemoveUnsafe(l) + [x] + RemoveUnsafe(t)
  {
    assert l + [x] + t == l + ([x] + t);
    RemoveUnsafeConcat(l, [x] + t);
    RemoveUnsafeCons(x, t);
  }

  /**
   * A URL whose text before its first `#` is ASCII and bracket-free parses, and
   * its fragment is what follows that `#`, less its tabs, carriage returns and
   * line feeds. The fragment is never part of the network location, so brackets
   * in it are harmless.
   */
  lemma FragmentAfterHash(w: string, f: string)
    requires '#' !in w && '[' !in w && ']' !in w && AllChars(w, IsAsciiChar)
    ensures UrlParse(w + "#" + f).Ok? && UrlParse(w + "#" + f).value.fragment == RemoveUnsafe(f)
  {
    var v := Sanitize(w);
    SanitizeConcat(w, '#', f);
    assert w + "#" + f == w + ['#'] + f;
    SanitizedAscii(w);
    SanitizedChars(w);
    assert '#' !in v && '[' !in v && ']' !in v;
    SplitFragmentAfterHash(v, RemoveUnsafe(f));
    assert v + ['#'] + RemoveUnsafe(f) == v + "#" + RemoveUnsafe(f);
  }

  /** Without a bracket before a `?` or `#` that survives sanitising, the URL parses. */
  lemma ParsesAround(a: string, x: char, t: string)
    requires QueryOrHash(x) && '[' !in a && ']' !in a
    ensures UrlParse(a + [x] + t).Ok?
  {
    SanitizeConcat(a, x, t);
    var v := Sanitize(a);
    SanitizedChars(a);
    ParsesAfter(v, x, RemoveUnsafe(t));
  }

  lemma ParsesAfter(v: string, x: char, t: string)
    requires QueryOrHash(x) && '[' !in v && ']' !in v
    ensures SplitUrl(v + [x] + t).Ok?
  {
    var u := v + [x] + t;
    assert u[..|v|] == v && u[|v|] == x;
    ParsesBefore(u, |v|);
  }

  /** Sanitising keeps text ASCII. */
  lemma SanitizedAscii(w: string)
    requires AllChars(w, IsAsciiChar)
    ensures AllChars(Sanitize(w), IsAsciiChar)
  {
    var v := Sanitize(w);
    SanitizedChars(w);
    forall k | 0 <= k < |v| ensures IsAsciiChar(v[k]) {
      assert v[k] in v;
      var i :| 0 <= i < |w| && w[i] == v[k];
    }
  }

  /**
   * A URL without `?` or `;` before its first `#` has a path unless a scheme or
   * a network location took the text before the `#`, once more than two
   * characters of that text survive sanitising.
   */
  lemma PathBeforeHash(w: string, f: string)
    requires '#' !in w && '[' !in w && ']' !in w && '?' !in w && ';' !in w
    requires AllChars(w, IsAsciiChar)
    ensures UrlParse(w + "#" + f).Ok?
    ensures var parts := UrlParse(w + "#" + f).value;
            |Sanitize(w)| > 2 ==> parts.scheme != [] || parts.netloc != [] || parts.path != []
  {
    var v := Sanitize(w);
    FragmentAfterHash(w, f);
    SanitizeConcat(w, '#', f);
    assert w + "#" + f == w + ['#'] + f;
    assert v + ['#'] + RemoveUnsafe(f) == v + "#" + RemoveUnsafe(f);
    SanitizedAscii(w);
    SanitizedChars(w);
    assert '#' !in v && '[' !in v && ']' !in v && '?' !in v && ';' !in v;
    if |v| > 2 {
      SplitPathBeforeHash(v, RemoveUnsafe(f));
    }
  }

  /** `os.path.basename`: what follows the last `/`. */
  function BaseName(p: string): (r: string)
    ensures '/' !in r
    ensures EndsWith(p, r)
    ensures |r| < |p| ==> p[|p| - |r| - 1] == '/'
  {
    match RFind(p, '/')
    case Some(i) => p[i + 1..]
    case None => p
  }

  /** `os.path.splitext(name)[1]` for a name without `/`: from the last dot, unless only dots precede it. */
  function SplitExt(name: string): (r: string)
    ensures r == [] || (r[0] == '.' && EndsWith(name, r) && '.' !in r[1..])
    ensures '/' !in name ==> '/' !in r
    ensures r != [] <==> exists k, d :: 0 <= k < d < |name| && name[k] != '.' && name[d] == '.'
  {
    match RFind(name, '.')
    case Some(d) =>
      if exists k :: 0 <= k < d && name[k] != '.' then name[d..] else []
    case None => []
  }

  /** `os.path.join(a, b)` */
  function PathJoin(a: string, b: string): (r: string)
    ensures StartsWith(b, "/") ==> r == b
    ensures !StartsWith(b, "/") ==> EndsWith(r, b) && StartsWith(r, a)
    ensures !StartsWith(b, "/") && (a == [] || EndsWith(a, "/")) ==> r == a + b
    ensures !StartsWith(b, "/") && a != [] && !EndsWith(a, "/") ==> r == a + "/" + b
  {
    if StartsWith(b, "/") then b
    else if a == [] || EndsWith(a, "/") then a + b
    else a + "/" + b
  }

  /**
   * Joining a site-relative path `"/" + dir + "/" + name` (leading slashes stripped)
   * under the static directory reaches the same file as joining `name` under
   * `os.path.join(staticDir, dir)`.
   */
  lemma RelativeAndAbsoluteAgree(staticDir: string, dir: string, name: string)
    requires dir != [] && dir[0] != '/' && dir[|dir| - 1] != '/'
    requires name != [] && name[0] != '/'
    ensures PathJoin(staticDir, LStrip("/" + dir + "/" + name, '/')) == PathJoin(PathJoin(staticDir, dir), name)
  {
    var tail := dir + "/" + name;
    assert "/" + dir + "/" + name == "/" + tail;
    LStripOneSlash(tail);
    JoinRelative(staticDir, tail);
    JoinRelative(staticDir, dir);
    var d := PathJoin(staticDir, dir);
    JoinUnderDir(d, name);
    var sep := if staticDir == [] || EndsWith(staticDir, "/") then [] else "/";
    assert d == staticDir + sep + dir;
    assert PathJoin(staticDir, tail) == staticDir + sep + tail;
    ConcatAssoc(staticDir + sep, dir, "/", name);
  }

  lemma ConcatAssoc(a: string, b: string, c: string, d: string)
    ensures a + (b + c + d) == (a + b) + c + d
  {
  }

  /** Joining a path that does not start with `/`. */
  lemma JoinRelative(a: string, b: string)
    requires b != [] && b[0] != '/'
    ensures PathJoin(a, b) == a + (if a == [] || EndsWith(a, "/") then [] else "/") + b
  {
    assert !StartsWith(b, "/");
  }

  lemma JoinUnderDir(d: string, name: string)
    requires d != [] && d[|d| - 1] != '/'
    requires name != [] && name[0] != '/'
    ensures PathJoin(d, name) == d + "/" + name
  {
    assert !StartsWith(name, "/");
    assert !EndsWith(d, "/");
  }

  lemma LStripOneSlash(tail: string)
    requires tail != [] && tail[0] != '/'
    ensures LStrip("/" + tail, '/') == tail
  {
    assert ("/" + tail)[1..] == tail;
  }
}
