/**
 * Links inside rich text: `_rewrite_notion_link`, which turns a link to a
 * Notion page whose id is known into the post's local permalink, and the
 * GitHub pull-request pattern `github\.com/.+?/pull/(\d+)` of
 * `_rich_text_to_markdown`. Regular-expression searches are written out as
 * "the leftmost position where the pattern matches", as `re.search` finds it.
 */
module Links {
  import opened Wrappers
  import opened Text
  import opened Urls

  // ---------------------------------------------------------------------
  // Page-id patterns (searched with `re.IGNORECASE`)
  // ---------------------------------------------------------------------

  /** `[0-9a-f]{n}` at `i`, case-insensitively. */
  predicate HexSpan(s: string, i: nat, n: nat) {
    i + n <= |s| && forall k | i <= k < i + n :: IsHexDigit(s[k])
  }

  /** Python's `$`: the end of the string, or just before a final newline. */
  predicate EndAnchor(s: string, e: nat) {
    e == |s| || (e + 1 == |s| && s[e] == '\n')
  }

  /** `[0-9a-f]{8}-[0-9a-f]{4}-[0-9a-f]{4}-[0-9a-f]{4}-[0-9a-f]{12}` at `i`. */
  predicate UuidSpan(s: string, i: nat) {
    && i + 36 <= |s|
    && HexSpan(s, i, 8) && s[i + 8] == '-'
    && HexSpan(s, i + 9, 4) && s[i + 13] == '-'
    && HexSpan(s, i + 14, 4) && s[i + 18] == '-'
    && HexSpan(s, i + 19, 4) && s[i + 23] == '-'
    && HexSpan(s, i + 24, 12)
  }

  /** `(?:\?.*)?$` at `q`: `.` does not cross a newline, so only a final one may follow. */
  predicate QueryTail(s: string, q: nat) {
    || EndAnchor(s, q)
    || (q < |s| && s[q] == '?' &&
        ('\n' !in s[q + 1..] || (s[|s| - 1] == '\n' && q + 1 <= |s| - 1 && '\n' !in s[q + 1..|s| - 1])))
  }

  /** The three patterns, in the order they are tried. */
  datatype IdPattern = Compact | Hyphenated | CompactBeforeQuery

  function Width(pat: IdPattern): nat {
    if pat.Hyphenated? then 36 else 32
  }

  predicate MatchAt(pat: IdPattern, s: string, p: nat) {
    match pat
    case Compact => HexSpan(s, p, 32) && EndAnchor(s, p + 32)
    case Hyphenated => UuidSpan(s, p) && EndAnchor(s, p + 36)
    case CompactBeforeQuery => HexSpan(s, p, 32) && QueryTail(s, p + 32)
  }

  /** `re.search`: the leftmost position at or after `from` where the pattern matches. */
  function Search(pat: IdPattern, s: string, from: nat): (r: Option<nat>)
    requires from <= |s|
    ensures r.Some? ==> from <= r.value && r.value + Width(pat) <= |s| && MatchAt(pat, s, r.value)
    ensures r.Some? ==> forall p | from <= p < r.value :: !MatchAt(pat, s, p)
    ensures r.None? ==> forall p | from <= p <= |s| :: !MatchAt(pat, s, p)
    decreases |s| - from
  {
    if MatchAt(pat, s, from) then Some(from)
    else if from == |s| then None
    else Search(pat, s, from + 1)
  }

  /** The id the first matching pattern captures (group 1), in its original letter case. */
  function MatchedId(s: string): (r: Option<string>)
    ensures r.Some? ==> (|r.value| == 32 || |r.value| == 36) && AllChars(r.value, IsHexOrHyphen)
  {
    var first := Search(Compact, s, 0);
    if first.Some? then Some(s[first.value..first.value + 32])
    else
      var second := Search(Hyphenated, s, 0);
      if second.Some? then Some(s[second.value..second.value + 36])
      else
        var third := Search(CompactBeforeQuery, s, 0);
        if third.Some? then Some(s[third.value..third.value + 32]) else None
  }

  /** Only the last 32 characters of a string not ending in a newline can match `([0-9a-f]{32})$`. */
  lemma CompactOnlyAtEnd(s: string, p: nat)
    requires s != [] && s[|s| - 1] != '\n'
    requires MatchAt(Compact, s, p)
    ensures p + 32 == |s|
  {
  }

  /** Likewise for the hyphenated form, with 36 characters. */
  lemma HyphenatedOnlyAtEnd(s: string, p: nat)
    requires s != [] && s[|s| - 1] != '\n'
    requires MatchAt(Hyphenated, s, p)
    ensures p + 36 == |s|
  {
  }

  /** A link ending in a compact id captures exactly that id. */
  lemma CompactIdAtEnd(prefix: string, id: string)
    requires |id| == 32 && AllChars(id, IsHexDigit)
    ensures MatchedId(prefix + id) == Some(id)
  {
    var s := prefix + id;
    assert MatchAt(Compact, s, |prefix|);
    var r := Search(Compact, s, 0);
    assert r.Some?;
    CompactOnlyAtEnd(s, r.value);
    assert s[|prefix|..|prefix| + 32] == id;
  }

  /** A link ending in a hyphenated id captures exactly that id: the compact pattern cannot match across its hyphens. */
  lemma HyphenatedIdAtEnd(prefix: string, id: string)
    requires UuidSpan(id, 0) && |id| == 36
    ensures MatchedId(prefix + id) == Some(id)
  {
    var s := prefix + id;
    assert s[|prefix|..] == id;
    forall p | 0 <= p <= |s| ensures !MatchAt(Compact, s, p) {
      if MatchAt(Compact, s, p) {
        CompactOnlyAtEnd(s, p);
      }
    }
    assert Search(Compact, s, 0).None?;
    assert UuidSpan(s, |prefix|) by {
      forall k | 0 <= k < 36 ensures s[|prefix| + k] == id[k] { }
    }
    assert MatchAt(Hyphenated, s, |prefix|);
    var r := Search(Hyphenated, s, 0);
    HyphenatedOnlyAtEnd(s, r.value);
    assert s[|prefix|..|prefix| + 36] == id;
  }

  /** Every character of a UUID span is a hex digit or a hyphen. */
  lemma UuidChars(s: string, p: nat, k: nat)
    requires UuidSpan(s, p) && p <= k < p + 36
    ensures IsHexOrHyphen(s[k])
  {
    if k < p + 8 {} else if k < p + 13 {} else if k < p + 18 {} else if k < p + 23 {} else {}
  }

  /**
   * A share link such as `…/Title-<id>?pvs=4`: neither `$`-anchored pattern can
   * match across the `?`, so the third pattern captures the compact id before
   * the query.
   */
  lemma CompactIdBeforeQuery(prefix: string, id: string, q: string)
    requires |id| == 32 && AllChars(id, IsHexDigit)
    requires '?' !in prefix
    requires '\n' !in q && |q| < 32
    ensures MatchedId(prefix + id + "?" + q) == Some(id)
  {
    var s := prefix + id + "?" + q;
    var m := |prefix| + 32;
    assert s[m] == '?';
    assert s[|s| - 1] != '\n' by {
      if q == [] { assert s[|s| - 1] == '?'; } else { assert s[|s| - 1] == q[|q| - 1]; }
    }
    forall p | 0 <= p <= |s| ensures !MatchAt(Compact, s, p) {
      if EndAnchor(s, p + 32) {
        assert p <= m < p + 32 && !IsHexDigit(s[m]);
      }
    }
    forall p | 0 <= p <= |s| ensures !MatchAt(Hyphenated, s, p) {
      if UuidSpan(s, p) && EndAnchor(s, p + 36) {
        UuidChars(s, p, m);
      }
    }
    assert Search(Compact, s, 0).None? && Search(Hyphenated, s, 0).None?;
    assert s[m + 1..] == q;
    assert HexSpan(s, |prefix|, 32) by {
      forall k | |prefix| <= k < m ensures IsHexDigit(s[k]) { assert s[k] == id[k - |prefix|]; }
    }
    assert MatchAt(CompactBeforeQuery, s, |prefix|);
    forall p | 0 <= p < |prefix| ensures !MatchAt(CompactBeforeQuery, s, p) {
      if p + 32 < |prefix| { assert s[p + 32] == prefix[p + 32]; }
      else { assert s[p + 32] == id[p + 32 - |prefix|]; }
    }
    var r := Search(CompactBeforeQuery, s, 0);
    assert r == Some(|prefix|);
    assert s[|prefix|..m] == id;
  }

  // ---------------------------------------------------------------------
  // Rewriting
  // ---------------------------------------------------------------------

  /** `id_to_slug.get(id) or id_to_slug.get(id.replace('-', ''))`, with `""` for "no slug". */
  function SlugFor(idToSlug: map<string, string>, id: string): string {
    var direct := if id in idToSlug then idToSlug[id] else "";
    var compact := RemoveChar(id, '-');
    if direct != "" then direct
    else if compact in idToSlug then idToSlug[compact] else ""
  }

  /** `[0-9a-fA-F\-]{36}` or `[0-9a-fA-F]{32}`, matched against the whole fragment. */
  predicate IdFragment(f: string) {
    (|f| == 36 && AllChars(f, IsHexOrHyphen)) || (|f| == 32 && AllChars(f, IsHexDigit))
  }

  /** Id-like fragments become compact lower-case hex; others are kept. */
  function NormalFragment(f: string): (r: string)
    ensures !IdFragment(f) ==> r == f
  {
    if IdFragment(f) then Lower(RemoveChar(f, '-')) else f
  }

  /** A normalised id fragment is lower-case hex without hyphens, matching the heading anchors. */
  lemma NormalFragmentIsCompact(f: string)
    requires IdFragment(f)
    ensures var r := NormalFragment(f);
            '-' !in r && forall k | 0 <= k < |r| :: IsDigit(r[k]) || 'a' <= r[k] <= 'f'
  {
    var compact := RemoveChar(f, '-');
    forall c | c in compact ensures IsHexDigit(c) {
      assert c in multiset(compact);
      assert c in multiset(f);
      assert c in f;
    }
    var r := Lower(compact);
    forall k | 0 <= k < |r| ensures IsDigit(r[k]) || 'a' <= r[k] <= 'f' {
      assert compact[k] in compact;
    }
  }

  /** The local permalink of a post, with the fragment appended when there is one. */
  function Permalink(slug: string, fragment: string): string {
    if fragment != [] then "/posts/" + slug + "/#" + NormalFragment(fragment) else "/posts/" + slug + "/"
  }

  /**
   * `_rewrite_notion_link`. The `import re` further down makes `re` local to the
   * function, so the same-page-anchor branch raises `UnboundLocalError` before it
   * can return; the handler returns the link unchanged. `urlparse` raising
   * `ValueError` does the same.
   */
  function RewriteNotionLink(idToSlug: map<string, string>, url: string): (r: string)
    ensures r != url ==>
      && UrlParse(url).Ok?
      && MatchedId(SplitOnce(url, '#').0).Some?
      && var slug := SlugFor(idToSlug, MatchedId(SplitOnce(url, '#').0).value);
         slug != "" && r == Permalink(slug, Strip(UrlParse(url).value.fragment))
  {
    RewriteParsed(idToSlug, url, UrlParse(url))
  }

  /** The rewrite, given what `urlparse` made of the link. */
  function RewriteParsed(idToSlug: map<string, string>, url: string, parsed: Result<ParsedUrl, UrlError>): (r: string)
    ensures r != url ==>
      && parsed.Ok?
      && MatchedId(SplitOnce(url, '#').0).Some?
      && var slug := SlugFor(idToSlug, MatchedId(SplitOnce(url, '#').0).value);
         slug != "" && r == Permalink(slug, Strip(parsed.value.fragment))
  {
    match parsed
    case Err(_) => url
    case Ok(parts) =>
      var fragment := Strip(parts.fragment);
      var anchorOnly := StartsWith(url, "#") || (parts.scheme == [] && parts.netloc == [] && parts.path == []);
      if anchorOnly && fragment != [] then url
      else
        match MatchedId(SplitOnce(url, '#').0)
        case None => url
        case Some(id) =>
          if |idToSlug| == 0 then url
          else
            var slug := SlugFor(idToSlug, id);
            if slug == "" then url else Permalink(slug, fragment)
  }

  /** Same-page anchors are never rewritten. */
  lemma AnchorLinksUnchanged(idToSlug: map<string, string>, url: string)
    requires StartsWith(url, "#")
    ensures RewriteNotionLink(idToSlug, url) == url
  {
    AnchorParsedUnchanged(idToSlug, url, UrlParse(url));
  }

  lemma AnchorParsedUnchanged(idToSlug: map<string, string>, url: string, parsed: Result<ParsedUrl, UrlError>)
    requires StartsWith(url, "#")
    ensures RewriteParsed(idToSlug, url, parsed) == url
  {
    assert url[0] == '#';
    assert SplitOnce(url, '#').0 == [];
    assert Search(Compact, [], 0).None? && Search(Hyphenated, [], 0).None? && Search(CompactBeforeQuery, [], 0).None?;
  }

  /** Every character after the scheme and network location is a character of the link. */
  lemma RestInUrl(url: string)
    ensures forall c :: c in SplitNetloc(SplitScheme(url).1).1 ==> c in url
  {
    var rest := SplitScheme(url).1;
    var after := SplitNetloc(rest).1;
    SchemeRestIsSuffix(url);
    NetlocRestIsSuffix(rest);
    SuffixOfSuffix(url, rest, after);
    SuffixChars(url, after);
  }

  /** A link without `#` has no fragment. */
  lemma NoHashNoFragment(url: string)
    requires '#' !in url
    ensures UrlParse(url).Ok? ==> UrlParse(url).value.fragment == []
  {
    SanitizedChars(url);
    RestInUrl(Sanitize(url));
  }

  /** A page id, compact or hyphenated. */
  predicate PageId(id: string) {
    (|id| == 32 && AllChars(id, IsHexDigit)) || (|id| == 36 && UuidSpan(id, 0))
  }

  /** A page id holds only ASCII hex digits and hyphens, none of which the link parser treats specially. */
  lemma PageIdPlain(id: string)
    requires PageId(id)
    ensures '#' !in id && '[' !in id && ']' !in id && '?' !in id && ';' !in id
    ensures AllChars(id, IsAsciiChar)
  {
    forall c | c in id ensures c != '#' && c != '[' && c != ']' && c != '?' && c != ';' && IsAsciiChar(c) {
      var k :| 0 <= k < |id| && id[k] == c;
      if |id| == 36 && k in {8, 13, 18, 23} { assert c == '-'; }
      else if |id| == 36 {
        assert IsHexDigit(c) by {
          if k < 8 {} else if k < 13 {} else if k < 18 {} else if k < 23 {} else {}
        }
      }
    }
  }

  lemma KnownSlugMeansEntries(idToSlug: map<string, string>, id: string)
    requires SlugFor(idToSlug, id) != ""
    ensures |idToSlug| > 0
  {
    if id in idToSlug { assert id in idToSlug.Keys; } else { assert RemoveChar(id, '-') in idToSlug.Keys; }
  }

  /**
   * A link to a page whose id is known (compact, or hyphenated and known in its
   * compact form) becomes the post's permalink. The text before the id is ASCII,
   * so `urlsplit`'s check of a non-ASCII network location never applies.
   */
  lemma RewriteKnownPage(idToSlug: map<string, string>, prefix: string, id: string)
    requires '#' !in prefix && '[' !in prefix && ']' !in prefix && AllChars(prefix, IsAsciiChar)
    requires PageId(id)
    requires SlugFor(idToSlug, id) != ""
    ensures RewriteNotionLink(idToSlug, prefix + id) == "/posts/" + SlugFor(idToSlug, id) + "/"
  {
    var url := prefix + id;
    PageIdPlain(id);
    assert '#' !in url && '[' !in url && ']' !in url;
    NoHashNoFragment(url);
    assert SplitOnce(url, '#').0 == url;
    if |id| == 32 { CompactIdAtEnd(prefix, id); } else { HyphenatedIdAtEnd(prefix, id); }
    RewriteParsedNoFragment(idToSlug, url, UrlParse(url).value, id);
  }

  /** A parsed link without a fragment whose page id is known becomes the bare permalink. */
  lemma RewriteParsedNoFragment(idToSlug: map<string, string>, url: string, parts: ParsedUrl, id: string)
    requires parts.fragment == []
    requires MatchedId(SplitOnce(url, '#').0) == Some(id) && SlugFor(idToSlug, id) != ""
    ensures RewriteParsed(idToSlug, url, Ok(parts)) == "/posts/" + SlugFor(idToSlug, id) + "/"
  {
    KnownSlugMeansEntries(idToSlug, id);
    assert Strip(parts.fragment) == [];
  }

  /**
   * A link to a known page with a `#fragment` becomes the permalink with the
   * fragment appended: `urlsplit` removes its tabs, carriage returns and line
   * feeds, then it is stripped, and normalised when it is an id. The text before
   * the id holds no `?` or `;`, so the parsed link keeps a path and is not taken
   * for a same-page anchor; it is ASCII, as in `RewriteKnownPage`.
   */
  lemma RewriteKnownPageFragment(idToSlug: map<string, string>, prefix: string, id: string, f: string)
    requires '#' !in prefix && '[' !in prefix && ']' !in prefix && '?' !in prefix && ';' !in prefix
    requires AllChars(prefix, IsAsciiChar)
    requires PageId(id)
    requires SlugFor(idToSlug, id) != ""
    ensures RewriteNotionLink(idToSlug, prefix + id + "#" + f) == Permalink(SlugFor(idToSlug, id), Strip(RemoveUnsafe(f)))
  {
    var w := prefix + id;
    PageIdPlain(id);
    assert '#' !in w && '[' !in w && ']' !in w && '?' !in w && ';' !in w;
    assert AllChars(w, IsAsciiChar) by { AsciiConcat(prefix, id); }
    var url := w + "#" + f;
    FragmentAfterHash(w, f);
    SanitizedIdLength(prefix, id);
    PathBeforeHash(w, f);
    SplitOnceAt(w, '#', f);
    if |id| == 32 { CompactIdAtEnd(prefix, id); } else { HyphenatedIdAtEnd(prefix, id); }
    assert url[0] == w[0] && w[0] != '#';
    RewriteParsedKnown(idToSlug, url, UrlParse(url).value, id);
  }

  /** A page id survives sanitising whole, so more than two characters are left. */
  lemma SanitizedIdLength(prefix: string, id: string)
    requires PageId(id)
    ensures |Sanitize(prefix + id)| > 2
  {
    PageIdPlain(id);
    assert IsHexDigit(id[0]);
    assert forall c :: c in id[1..] ==> !IsUnsafe(c) by {
      forall c | c in id[1..] ensures !IsUnsafe(c) { assert c in id; }
    }
    RemoveUnsafeNoop(id[1..]);
    assert prefix + id == prefix + [id[0]] + id[1..];
    SanitizeConcat(prefix, id[0], id[1..]);
  }

  /** A share link `…<id>?query` to a known page becomes the post's permalink; the query is dropped. */
  lemma RewriteKnownPageQuery(idToSlug: map<string, string>, prefix: string, id: string, q: string)
    requires '#' !in prefix && '[' !in prefix && ']' !in prefix && '?' !in prefix && AllChars(prefix, IsAsciiChar)
    requires '#' !in q && '\n' !in q && |q| < 32
    requires |id| == 32 && AllChars(id, IsHexDigit)
    requires SlugFor(idToSlug, id) != ""
    ensures RewriteNotionLink(idToSlug, prefix + id + "?" + q) == "/posts/" + SlugFor(idToSlug, id) + "/"
  {
    var url := prefix + id + "?" + q;
    assert PageId(id);
    PageIdPlain(id);
    assert url == (prefix + id) + ['?'] + q;
    ParsesAround(prefix + id, '?', q);
    assert '#' !in url;
    NoHashNoFragment(url);
    assert SplitOnce(url, '#').0 == url;
    CompactIdBeforeQuery(prefix, id, q);
    KnownSlugMeansEntries(idToSlug, id);
  }

  lemma AsciiConcat(a: string, b: string)
    requires AllChars(a, IsAsciiChar) && AllChars(b, IsAsciiChar)
    ensures AllChars(a + b, IsAsciiChar)
  {
    forall k | 0 <= k < |a + b| ensures IsAsciiChar((a + b)[k]) {
      if k >= |a| { assert (a + b)[k] == b[k - |a|]; }
    }
  }

  /** A parsed link that is no same-page anchor and whose id has a slug becomes the permalink. */
  lemma RewriteParsedKnown(idToSlug: map<string, string>, url: string, parts: ParsedUrl, id: string)
    requires !StartsWith(url, "#") && (parts.scheme != [] || parts.netloc != [] || parts.path != [])
    requires MatchedId(SplitOnce(url, '#').0) == Some(id) && SlugFor(idToSlug, id) != ""
    ensures RewriteParsed(idToSlug, url, Ok(parts)) == Permalink(SlugFor(idToSlug, id), Strip(parts.fragment))
  {
    KnownSlugMeansEntries(idToSlug, id);
  }

  /** A link whose page id has no slug is left as it is. */
  lemma UnknownPageUnchanged(idToSlug: map<string, string>, url: string)
    requires forall id | MatchedId(SplitOnce(url, '#').0) == Some(id) :: SlugFor(idToSlug, id) == ""
    ensures RewriteNotionLink(idToSlug, url) == url
  {
  }

  // ---------------------------------------------------------------------
  // GitHub pull requests: `github\.com/.+?/pull/(\d+)`
  // ---------------------------------------------------------------------

  /** `/pull/` followed by a digit at `j`. */
  predicate PullTailAt(s: string, j: nat) {
    OccursAt(s, "/pull/", j) && j + 6 < |s| && IsDigit(s[j + 6])
  }

  /**
   * The lazy `.+?`: having consumed up to `j` (at least one character), the first
   * end from which `/pull/\d` follows, never crossing a newline.
   */
  function LazyEnd(s: string, j: nat): (r: Option<nat>)
    requires 1 <= j <= |s|
    ensures r.Some? ==> j <= r.value && PullTailAt(s, r.value) && NoNewline(s, j - 1, r.value)
    decreases |s| - j
  {
    if s[j - 1] == '\n' then None
    else if PullTailAt(s, j) then Some(j)
    else if j == |s| then None
    else LazyEnd(s, j + 1)
  }

  /** No newline among `s[i..j]`. */
  predicate NoNewline(s: string, i: nat, j: nat)
    requires i <= j <= |s|
  {
    forall k | i <= k < j :: s[k] != '\n'
  }

  /** The lazy match finds an end whenever one lies ahead on the same line, and takes the first. */
  lemma {:induction false} LazyEndFinds(s: string, i: nat, j: nat)
    requires 1 <= i <= j < |s| && PullTailAt(s, j) && NoNewline(s, i - 1, j)
    ensures LazyEnd(s, i).Some? && LazyEnd(s, i).value <= j
    decreases j - i
  {
    if !PullTailAt(s, i) {
      assert s[i - 1] != '\n';
      LazyEndFinds(s, i + 1, j);
    }
  }

  /** `\d+`, greedy: the run of digits starting at `i`. */
  function DigitRun(s: string, i: nat): (r: string)
    requires i <= |s|
    ensures AllChars(r, IsDigit)
    ensures i + |r| <= |s| && s[i..i + |r|] == r
    ensures i + |r| == |s| || !IsDigit(s[i + |r|])
    decreases |s| - i
  {
    if i < |s| && IsDigit(s[i]) then [s[i]] + DigitRun(s, i + 1) else []
  }

  const GithubHost: string := "github.com/"

  /**
   * A match of the whole pattern: the host at `p`, at least one character of
   * the same line, then `/pull/` and a digit at `j`.
   */
  predicate PullMatch(s: string, p: nat, j: nat) {
    && OccursAt(s, GithubHost, p)
    && p + |GithubHost| < j
    && PullTailAt(s, j)
    && NoNewline(s, p + |GithubHost|, j)
  }

  /**
   * The match `re.search` reports, scanning from `from`: the leftmost start `p`,
   * and from it the first end `j` the lazy `.+?` reaches.
   */
  ghost predicate FirstPullMatch(s: string, from: nat, p: nat, j: nat) {
    && from <= p
    && PullMatch(s, p, j)
    && (forall q: nat, k: nat | from <= q < p :: !PullMatch(s, q, k))
    && (forall k: nat | k < j :: !PullMatch(s, p, k))
  }

  /** There is one first match, so `FirstPullNumber` names one number. */
  lemma FirstPullMatchUnique(s: string, from: nat, p1: nat, j1: nat, p2: nat, j2: nat)
    requires FirstPullMatch(s, from, p1, j1) && FirstPullMatch(s, from, p2, j2)
    ensures p1 == p2 && j1 == j2
  {
  }

  /** `v` is the number `re.search` captures scanning from `from`. */
  ghost predicate FirstPullNumber(s: string, from: nat, v: string) {
    exists p: nat, j: nat :: FirstPullMatch(s, from, p, j) && v == DigitRun(s, j + 6)
  }

  /** The leftmost match at or after `from`: the pull-request number it captures. */
  function PullNumberFrom(s: string, from: nat): (r: Option<string>)
    ensures r.Some? ==> r.value != [] && AllChars(r.value, IsDigit)
    ensures r.Some? ==> FirstPullNumber(s, from, r.value)
    decreases |s| - from
  {
    if from + |GithubHost| >= |s| then None
    else if OccursAt(s, GithubHost, from) && LazyEnd(s, from + |GithubHost| + 1).Some? then
      var end := LazyEnd(s, from + |GithubHost| + 1).value;
      LazyEndIsFirst(s, from);
      assert FirstPullMatch(s, from, from, end);
      assert FirstPullNumber(s, from, DigitRun(s, end + 6));
      Some(DigitRun(s, end + 6))
    else
      var r := PullNumberFrom(s, from + 1);
      if r.Some? then FirstPullFurther(s, from, r.value); r else r
  }

  /** Where no match starts at `from`, the first match from `from + 1` is the first from `from`. */
  lemma FirstPullFurther(s: string, from: nat, v: string)
    requires from + |GithubHost| < |s|
    requires !(OccursAt(s, GithubHost, from) && LazyEnd(s, from + |GithubHost| + 1).Some?)
    requires FirstPullNumber(s, from + 1, v)
    ensures FirstPullNumber(s, from, v)
  {
    var p: nat, j: nat :| FirstPullMatch(s, from + 1, p, j) && v == DigitRun(s, j + 6);
    NoPullAt(s, from);
    assert FirstPullMatch(s, from, p, j);
  }

  /** The end the lazy group reaches from the host at `p` is the first end of a match starting at `p`. */
  lemma LazyEndIsFirst(s: string, p: nat)
    requires p + |GithubHost| < |s| && LazyEnd(s, p + |GithubHost| + 1).Some?
    ensures forall k: nat | k < LazyEnd(s, p + |GithubHost| + 1).value :: !PullMatch(s, p, k)
  {
    var end := LazyEnd(s, p + |GithubHost| + 1).value;
    forall k: nat | k < end ensures !PullMatch(s, p, k) {
      if p + |GithubHost| < k && PullTailAt(s, k) && NoNewline(s, p + |GithubHost|, k) {
        LazyEndFinds(s, p + |GithubHost| + 1, k);
      }
    }
  }

  /** Where the host is absent, or the lazy group finds no end, no match starts. */
  lemma NoPullAt(s: string, p: nat)
    requires p + |GithubHost| < |s|
    requires !(OccursAt(s, GithubHost, p) && LazyEnd(s, p + |GithubHost| + 1).Some?)
    ensures forall k: nat :: !PullMatch(s, p, k)
  {
    forall k: nat ensures !PullMatch(s, p, k) {
      if OccursAt(s, GithubHost, p) && p + |GithubHost| < k && PullTailAt(s, k) && NoNewline(s, p + |GithubHost|, k) {
        LazyEndFinds(s, p + |GithubHost| + 1, k);
      }
    }
  }

  /** `re.search(r'github\.com/.+?/pull/(\d+)', href)`: the number, if the pattern matches. */
  function GithubPullNumber(href: string): (r: Option<string>)
    ensures r.Some? ==> r.value != [] && AllChars(r.value, IsDigit)
    ensures r.Some? ==> FirstPullNumber(href, 0, r.value)
  {
    PullNumberFrom(href, 0)
  }

  /** Wherever the pattern matches, at or after `from`, a number is found. */
  lemma {:induction false} PullMatchFound(s: string, from: nat, p: nat, j: nat)
    requires from <= p && PullMatch(s, p, j)
    ensures PullNumberFrom(s, from).Some?
    decreases p - from
  {
    if !(OccursAt(s, GithubHost, from) && LazyEnd(s, from + |GithubHost| + 1).Some?) {
      if from == p {
        LazyEndFinds(s, p + |GithubHost| + 1, j);
      } else {
        PullMatchFound(s, from + 1, p, j);
      }
    }
  }

  /** A link contains the pattern exactly when a number is taken from it. */
  lemma PullNumberIffMatch(href: string)
    ensures GithubPullNumber(href).Some? <==> exists p: nat, j: nat :: PullMatch(href, p, j)
  {
    if exists p: nat, j: nat :: PullMatch(href, p, j) {
      var p: nat, j: nat :| PullMatch(href, p, j);
      PullMatchFound(href, 0, p, j);
    }
  }

  /** A plain pull-request link yields its number. */
  lemma PullRequestLink()
    ensures GithubPullNumber("github.com/o/pull/7") == Some("7")
  {
    var s := "github.com/o/pull/7";
    assert s == GithubHost + "o" + "/pull/" + "7";
    assert OccursAt(s, GithubHost, 0);
    assert OccursAt(s, "/pull/", 12);
    assert LazyEnd(s, 12) == Some(12);
    assert DigitRun(s, 19) == [];
    assert DigitRun(s, 18) == "7";
  }

  /**
   * A text that opens with a pull-request link yields that link's number,
   * whatever follows, later pull-request links included.
   */
  lemma LeadingPullLinkWins(c: char, rest: string)
    requires c != '\n' && rest != [] && IsDigit(rest[0])
    ensures var s := GithubHost + [c] + "/pull/" + rest;
            GithubPullNumber(s) == Some(DigitRun(s, 18))
  {
    var s := GithubHost + [c] + "/pull/" + rest;
    assert s[..11] == GithubHost && s[12..18] == "/pull/" && s[11] == c && s[18] == rest[0];
    assert OccursAt(s, GithubHost, 0);
    assert PullTailAt(s, 12);
    assert FirstPullMatch(s, 0, 0, 12);
    PullMatchFound(s, 0, 0, 12);
    var v := GithubPullNumber(s).value;
    var p: nat, j: nat :| FirstPullMatch(s, 0, p, j) && v == DigitRun(s, j + 6);
    FirstPullMatchUnique(s, 0, p, j, 0, 12);
  }
}
