/**
 * The incremental cache store: an in-memory snapshot with three sections
 * (`last_sync`, post id -> ISO-8601 text, media key -> site-relative path),
 * loaded once from a JSON file and updated in place during a run.
 *
 * Timestamps are abstracted: an ISO-8601 text is either the instant it denotes
 * (`Iso`) or a text `datetime.fromisoformat` rejects (`Unparsable`), so that
 * `fromisoformat(t.isoformat()) == t` holds by construction. MD5 is a parameter.
 */
module CacheManagement {
  import opened Wrappers
  import opened Text

  // ---------------------------------------------------------------------
  // Hashing and timestamps
  // ---------------------------------------------------------------------

  predicate IsLowerHexDigit(c: char) { IsDigit(c) || 'a' <= c <= 'f' }

  /** What `hashlib.md5(...).hexdigest()` returns: 32 lower-case hex digits. */
  predicate IsHexDigest(h: string) { |h| == 32 && AllChars(h, IsLowerHexDigit) }

  function ZeroDigest(s: string): string { "00000000000000000000000000000000" }

  /** `hashlib.md5(url.encode()).hexdigest()`, left uninterpreted. */
  type Md5 = f: string -> string | forall s :: IsHexDigest(f(s)) witness ZeroDigest

  /** An ISO-8601 text as stored in the cache file. */
  datatype Stamp = Iso(instant: int) | Unparsable

  /** The exceptions the cache operations can raise. */
  datatype Fault = KeyError | ValueError

  // ---------------------------------------------------------------------
  // The snapshot
  // ---------------------------------------------------------------------

  /**
   * `cache_data`. A file written by someone else may lack a section, hence the
   * options; `lastSync == None` stands for a missing key or JSON `null`, and an
   * empty `last_sync` string is folded into `Some(Unparsable)`.
   */
  datatype CacheData = CacheData(lastSync: Option<Stamp>,
                                 posts: Option<map<string, Stamp>>,
                                 media: Option<map<string, string>>)

  /** What is on disk at `cache_file` when the manager is created. */
  datatype CacheFile = Absent | Corrupt | Stored(data: CacheData)

  /** `_load_cache`: a missing or unreadable file gives the empty store; it never raises. */
  function LoadCache(file: CacheFile): (r: CacheData)
    ensures file.Stored? ==> r == file.data
    ensures !file.Stored? ==> r.lastSync == None && r.posts == Some(map[]) && r.media == Some(map[])
  {
    match file
    case Stored(data) => data
    case _ => CacheData(None, Some(map[]), Some(map[]))
  }

  // ---------------------------------------------------------------------
  // Media keys
  // ---------------------------------------------------------------------

  const NotionStaticHost: string := "secure.notion-static.com/"

  /** `secure\.notion-static\.com/([0-9a-fA-F\-]{36})/` matches at index `i`. */
  predicate NotionStaticAt(url: string, i: nat) {
    && i + 62 <= |url|
    && url[i..i + 25] == NotionStaticHost
    && AllChars(url[i + 25..i + 61], IsHexOrHyphen)
    && url[i + 61] == '/'
  }

  /** `re.search`: the leftmost index at or after `from` where the pattern matches. */
  function FindNotionStatic(url: string, from: nat): (r: Option<nat>)
    requires from <= |url|
    ensures r.Some? ==> from <= r.value && NotionStaticAt(url, r.value)
    ensures r.Some? ==> forall j :: from <= j < r.value ==> !NotionStaticAt(url, j)
    ensures r.None? ==> forall j :: from <= j <= |url| ==> !NotionStaticAt(url, j)
    decreases |url| - from
  {
    if from + 62 > |url| then None
    else if NotionStaticAt(url, from) then Some(from)
    else FindNotionStatic(url, from + 1)
  }

  /** The 36-character group of the leftmost match, as written (not yet lower-cased). */
  function NotionStaticId(url: string): (r: Option<string>)
    ensures r.Some? ==> |r.value| == 36 && AllChars(r.value, IsHexOrHyphen)
    ensures r.Some? <==> exists i :: 0 <= i <= |url| && NotionStaticAt(url, i)
  {
    match FindNotionStatic(url, 0)
    case Some(i) => Some(url[i + 25..i + 61])
    case None => None
  }

  /** `normalize_media_key`: `notion:<id>` for a notion-static URL, otherwise `url:<md5>`. */
  function NormalizeMediaKey(url: string, md5: Md5): (key: string)
    ensures NotionStaticId(url).Some? ==> key == "notion:" + Lower(NotionStaticId(url).value)
    ensures NotionStaticId(url).None? ==> key == "url:" + md5(url)
  {
    match NotionStaticId(url)
    case Some(id) => "notion:" + Lower(id)
    case None => "url:" + md5(url)
  }

  /** A key is in exactly one namespace, decided by whether the URL is notion-static. */
  lemma KeyNamespaces(url: string, md5: Md5)
    ensures StartsWith(NormalizeMediaKey(url, md5), "notion:") <==> NotionStaticId(url).Some?
    ensures StartsWith(NormalizeMediaKey(url, md5), "url:") <==> NotionStaticId(url).None?
  {
    var key := NormalizeMediaKey(url, md5);
    if NotionStaticId(url).Some? {
      assert key[0] == 'n';
      assert !StartsWith(key, "url:");
      assert key[..7] == "notion:";
    } else {
      assert key[0] == 'u';
      assert !StartsWith(key, "notion:");
      assert key[..4] == "url:";
    }
  }

  /** The two namespaces never collide. */
  lemma NamespacesDisjoint(hosted: string, external: string, md5: Md5)
    requires NotionStaticId(hosted).Some? && NotionStaticId(external).None?
    ensures NormalizeMediaKey(hosted, md5) != NormalizeMediaKey(external, md5)
  {
    assert NormalizeMediaKey(hosted, md5)[0] == 'n';
    assert NormalizeMediaKey(external, md5)[0] == 'u';
  }

  /** Two notion-static URLs share a key exactly when their ids agree up to letter case. */
  lemma NotionKeysAgreeIffIdsAgree(u1: string, u2: string, md5: Md5)
    requires NotionStaticId(u1).Some? && NotionStaticId(u2).Some?
    ensures NormalizeMediaKey(u1, md5) == NormalizeMediaKey(u2, md5)
            <==> Lower(NotionStaticId(u1).value) == Lower(NotionStaticId(u2).value)
  {
    var k1, k2 := NormalizeMediaKey(u1, md5), NormalizeMediaKey(u2, md5);
    if k1 == k2 {
      assert k1[7..] == Lower(NotionStaticId(u1).value);
      assert k2[7..] == Lower(NotionStaticId(u2).value);
    }
  }

  /** A notion key is `notion:` and 36 lower-case hex digits or hyphens. */
  lemma NotionKeyShape(url: string, md5: Md5)
    requires NotionStaticId(url).Some?
    ensures var key := NormalizeMediaKey(url, md5);
            |key| == 43 && AllChars(key[7..], IsHexOrHyphen) && forall i :: 7 <= i < 43 ==> !IsAsciiUpper(key[i])
  {
    var key := NormalizeMediaKey(url, md5);
    assert key[7..] == Lower(NotionStaticId(url).value);
  }

  /** The notion-static host does not occur in `p + NotionStaticHost` before the one at the end. */
  predicate HostOnlyAtEnd(p: string) {
    forall i | 0 <= i < |p| :: !OccursAt(p + NotionStaticHost, NotionStaticHost, i)
  }

  /**
   * A URL in which the notion-static host first occurs after `p`, followed by a
   * well-formed id and `/`, yields that id.
   */
  lemma HostedIdAfterPrefix(p: string, id: string, rest: string)
    requires |id| == 36 && AllChars(id, IsHexOrHyphen)
    requires HostOnlyAtEnd(p)
    ensures NotionStaticId(p + NotionStaticHost + id + "/" + rest) == Some(id)
  {
    var url := p + NotionStaticHost + id + "/" + rest;
    var front := p + NotionStaticHost;
    assert url[..|front|] == front;
    forall i | 0 <= i < |p| ensures !NotionStaticAt(url, i) {
      assert !OccursAt(front, NotionStaticHost, i);
      assert url[i..i + 25] == front[i..i + 25];
    }
    assert url[|p|..|p| + 25] == NotionStaticHost;
    assert url[|p| + 25..|p| + 61] == id;
    assert url[|p| + 61] == '/';
    assert NotionStaticAt(url, |p|);
    var r := FindNotionStatic(url, 0);
    assert r == Some(|p|);
  }

  /**
   * Two signed URLs of the same upload, whatever comes before the host, whatever
   * their signatures and whatever the letter case of the id in each, normalise
   * to the same key.
   */
  lemma SignedUrlsShareKey(p1: string, p2: string, id1: string, id2: string, rest1: string, rest2: string, md5: Md5)
    requires HostOnlyAtEnd(p1) && HostOnlyAtEnd(p2)
    requires |id1| == 36 && AllChars(id1, IsHexOrHyphen)
    requires |id2| == 36 && AllChars(id2, IsHexOrHyphen)
    requires Lower(id1) == Lower(id2)
    ensures NormalizeMediaKey(p1 + NotionStaticHost + id1 + "/" + rest1, md5)
         == NormalizeMediaKey(p2 + NotionStaticHost + id2 + "/" + rest2, md5)
  {
    HostedIdAfterPrefix(p1, id1, rest1);
    HostedIdAfterPrefix(p2, id2, rest2);
  }

  // ---------------------------------------------------------------------
  // Reads of the snapshot
  // ---------------------------------------------------------------------

  /**
   * `should_update_post`: a post is regenerated when it has no entry or the new
   * timestamp is strictly newer. A missing `posts` section raises `KeyError`,
   * an unparsable stored timestamp `ValueError`.
   */
  function ShouldUpdatePost(data: CacheData, postId: string, lastEdited: int): (r: Result<bool, Fault>)
    ensures data.posts.Some? && postId !in data.posts.value ==> r == Ok(true)
    ensures data.posts.Some? && postId in data.posts.value && data.posts.value[postId].Iso? ==>
              r == Ok(lastEdited > data.posts.value[postId].instant)
    ensures r.Err? <==> data.posts.None? || (postId in data.posts.value && data.posts.value[postId].Unparsable?)
  {
    match data.posts
    case None => Err(KeyError)
    case Some(posts) =>
      if postId !in posts then Ok(true)
      else match posts[postId]
        case Iso(cached) => Ok(lastEdited > cached)
        case Unparsable => Err(ValueError)
  }

  /** `cache_data.get("media", {})` */
  function MediaSection(data: CacheData): (m: map<string, string>)
    ensures data.media.None? ==> m == map[]
  {
    data.media.GetOr(map[])
  }

  /** `get_cached_media`: the path stored under the URL's normalised key, if any. */
  function GetCachedMedia(data: CacheData, url: string, md5: Md5): (r: Option<string>)
    ensures r.Some? <==> data.media.Some? && NormalizeMediaKey(url, md5) in data.media.value
    ensures r.Some? ==> r.value == data.media.value[NormalizeMediaKey(url, md5)]
  {
    var key := NormalizeMediaKey(url, md5);
    var media := MediaSection(data);
    if key in media then Some(media[key]) else None
  }

  /** The snapshot after `cache_media(url, path)`: the media section, created if missing, maps the URL's key to `path`. */
  function WithMedia(data: CacheData, url: string, path: string, md5: Md5): (r: CacheData)
    ensures r.lastSync == data.lastSync && r.posts == data.posts
    ensures r.media.Some? && NormalizeMediaKey(url, md5) in r.media.value && r.media.value[NormalizeMediaKey(url, md5)] == path
  {
    data.(media := Some(MediaSection(data)[NormalizeMediaKey(url, md5) := path]))
  }

  /** `get_last_sync`: `None` for an absent, empty or unparsable value. */
  function GetLastSync(data: CacheData): (r: Option<int>)
    ensures r.Some? <==> data.lastSync.Some? && data.lastSync.value.Iso?
    ensures r.Some? ==> r.value == data.lastSync.value.instant
  {
    match data.lastSync
    case Some(Iso(t)) => Some(t)
    case _ => None
  }

  // ---------------------------------------------------------------------
  // The manager: the snapshot updated in place
  // ---------------------------------------------------------------------

  class CacheManager {
    var cacheData: CacheData

    /** `__init__`: load the file, falling back to the empty store. */
    constructor (file: CacheFile)
      ensures cacheData == LoadCache(file)
    {
      cacheData := LoadCache(file);
    }

    /** `update_post_cache`: overwrite `posts[postId]` only; `KeyError` without a `posts` section. */
    method UpdatePostCache(postId: string, lastEdited: int) returns (r: Result<(), Fault>)
      modifies this
      ensures old(cacheData.posts).None? ==> r == Err(KeyError) && cacheData == old(cacheData)
      ensures old(cacheData.posts).Some? ==>
                r == Ok(()) &&
                cacheData == old(cacheData).(posts := Some(old(cacheData.posts.value)[postId := Iso(lastEdited)]))
    {
      match cacheData.posts
      case None =>
        r := Err(KeyError);
      case Some(posts) =>
        cacheData := cacheData.(posts := Some(posts[postId := Iso(lastEdited)]));
        r := Ok(());
    }

    /** `cache_media`: `setdefault("media", {})[key] = localPath`. */
    method CacheMedia(url: string, localPath: string, md5: Md5)
      modifies this
      ensures cacheData == WithMedia(old(cacheData), url, localPath, md5)
    {
      var key := NormalizeMediaKey(url, md5);
      cacheData := cacheData.(media := Some(MediaSection(cacheData)[key := localPath]));
    }

    /** `update_last_sync`: only `last_sync` changes, to the current time. */
    method UpdateLastSync(now: int)
      modifies this
      ensures cacheData == old(cacheData).(lastSync := Some(Iso(now)))
    {
      cacheData := cacheData.(lastSync := Some(Iso(now)));
    }
  }

  // ---------------------------------------------------------------------
  // Read-after-write properties of the snapshot
  // ---------------------------------------------------------------------

  /**
   * After `update_post_cache(id, t)`, `should_update_post(id, t2)` holds exactly
   * when `t2 > t`: an equal or older timestamp is skipped.
   */
  lemma UpdatedPostIsFresh(data: CacheData, postId: string, t: int, t2: int)
    requires data.posts.Some?
    ensures var after := data.(posts := Some(data.posts.value[postId := Iso(t)]));
            ShouldUpdatePost(after, postId, t2) == Ok(t2 > t)
  {
  }

  /** Recording one post leaves every other post's decision as it was. */
  lemma UpdateIsLocal(data: CacheData, postId: string, t: int, other: string, t2: int)
    requires data.posts.Some? && other != postId
    ensures var after := data.(posts := Some(data.posts.value[postId := Iso(t)]));
            ShouldUpdatePost(after, other, t2) == ShouldUpdatePost(data, other, t2)
  {
  }

  /**
   * After `cache_media(u, p)`, every URL with the same key (for instance the same
   * upload under another signature or letter case) reads back `p`; URLs with
   * other keys read what they read before.
   */
  lemma CachedMediaReadBack(data: CacheData, u: string, p: string, v: string, md5: Md5)
    ensures var after := WithMedia(data, u, p, md5);
            && (NormalizeMediaKey(v, md5) == NormalizeMediaKey(u, md5) ==> GetCachedMedia(after, v, md5) == Some(p))
            && (NormalizeMediaKey(v, md5) != NormalizeMediaKey(u, md5) ==>
                  GetCachedMedia(after, v, md5) == GetCachedMedia(data, v, md5))
  {
  }

  /** `update_last_sync(now)` makes `get_last_sync()` return `now` and changes no post or media entry. */
  lemma LastSyncReadBack(data: CacheData, now: int, postId: string, t: int, url: string, md5: Md5)
    ensures var after := data.(lastSync := Some(Iso(now)));
            && GetLastSync(after) == Some(now)
            && ShouldUpdatePost(after, postId, t) == ShouldUpdatePost(data, postId, t)
            && GetCachedMedia(after, url, md5) == GetCachedMedia(data, url, md5)
  {
  }

  /** A freshly loaded store from a missing or corrupt file regenerates every post and caches no media. */
  lemma EmptyStoreMissesEverything(file: CacheFile, postId: string, t: int, url: string, md5: Md5)
    requires !file.Stored?
    ensures ShouldUpdatePost(LoadCache(file), postId, t) == Ok(true)
    ensures GetCachedMedia(LoadCache(file), url, md5) == None
    ensures GetLastSync(LoadCache(file)) == None
  {
  }
}
