/**
 * The media acquisition decision procedure: given a remote URL and a media
 * type, reuse a cached local copy, adopt a file already on disk, or download
 * one, and answer with a site-relative path (or the URL itself on failure).
 *
 * The filesystem is a set of paths, the HTTP transfer an oracle that says how
 * far it got, and MD5 a parameter.
 */
module Media {
  import opened Wrappers
  import opened Text
  import opened Urls
  import opened CacheManagement

  // ---------------------------------------------------------------------
  // Stable file names
  // ---------------------------------------------------------------------

  /** The extension kept from the URL's path, `.jpg` when there is none. */
  function Extension(path: string): (e: string)
    ensures e != [] && e[0] == '.' && '/' !in e
    ensures SplitExt(BaseName(path)) != [] ==> e == SplitExt(BaseName(path))
    ensures SplitExt(BaseName(path)) == [] ==> e == ".jpg"
  {
    var ext := SplitExt(BaseName(path));
    if ext == [] then ".jpg" else ext
  }

  /** The stem of a generated name: the lower-cased notion-static id, or eight hex digits of the MD5. */
  function FileStem(url: string, md5: Md5): (stem: string)
    ensures stem != [] && '/' !in stem
    ensures NotionStaticId(url).Some? ==> stem == Lower(NotionStaticId(url).value)
    ensures NotionStaticId(url).None? ==> stem == md5(url)[..8]
  {
    match NotionStaticId(url)
    case Some(id) =>
      var stem := Lower(id);
      LowerKeepsHex(id);
      assert forall k :: 0 <= k < |stem| ==> stem[k] != '/';
      stem
    case None =>
      var stem := md5(url)[..8];
      assert forall k :: 0 <= k < |stem| ==> IsLowerHexDigit(stem[k]);
      stem
  }

  /**
   * `_generate_filename`: the stem followed by the extension of the URL's path.
   * `urlparse` raising is the only way it fails.
   */
  function GenerateFilename(url: string, md5: Md5): (r: Result<string, UrlError>)
    ensures r.Err? <==> UrlParse(url).Err?
    ensures r.Ok? ==> r.value == FileStem(url, md5) + Extension(UrlParse(url).value.path)
  {
    match UrlParse(url)
    case Err(e) => Err(e)
    case Ok(parsed) => Ok(FileStem(url, md5) + Extension(parsed.path))
  }

  /** A generated name is a plain file name: non-empty, no `/`, so it stays inside its directory. */
  lemma FilenameIsPlain(url: string, md5: Md5)
    requires GenerateFilename(url, md5).Ok?
    ensures var name := GenerateFilename(url, md5).value;
            name != [] && '/' !in name
  {
    var stem, ext := FileStem(url, md5), Extension(UrlParse(url).value.path);
    assert GenerateFilename(url, md5).value == stem + ext;
  }

  /**
   * Two URLs of the same notion-hosted upload with the same path name the same
   * file, whatever their signatures and the letter case of the id.
   */
  lemma SameUploadSameFilename(u1: string, u2: string, md5: Md5)
    requires UrlParse(u1).Ok? && UrlParse(u2).Ok?
    requires UrlParse(u1).value.path == UrlParse(u2).value.path
    requires NotionStaticId(u1).Some? && NotionStaticId(u2).Some?
    requires Lower(NotionStaticId(u1).value) == Lower(NotionStaticId(u2).value)
    ensures GenerateFilename(u1, md5) == GenerateFilename(u2, md5)
  {
  }

  // ---------------------------------------------------------------------
  // The decision procedure, as a function of the state it observes
  // ---------------------------------------------------------------------

  /** How far `requests.get` and the chunked write got. */
  datatype Transfer =
    | RequestFails    // the request, the status check or `open` raised: nothing on disk
    | FailsMidWrite   // `open(file_path, 'wb')` created the file, then the stream raised
    | Completes

  /** The sub-directory of the static directory a media type is saved under. */
  function TypeDir(mediaType: string): (d: Option<string>)
    ensures d.Some? ==> d.value != [] && d.value[0] != '/' && d.value[|d.value| - 1] != '/'
    ensures d.Some? <==> mediaType in ["image", "video", "audio"]
  {
    if mediaType == "image" then Some("images")
    else if mediaType == "video" then Some("videos")
    else if mediaType == "audio" then Some("audio")
    else None
  }

  /** What one call does: its answer, the file it creates, the path it records in the cache. */
  datatype Step = Step(result: string, created: Option<string>, recorded: Option<string>)

  /** The cached path for `url`, when there is a cache and it holds a non-empty one. */
  function CacheHit(cache: Option<CacheData>, url: string, md5: Md5): (r: Option<string>)
    ensures r.Some? ==> r.value != [] && cache.Some? && GetCachedMedia(cache.value, url, md5) == r
  {
    if cache.None? then None
    else
      match GetCachedMedia(cache.value, url, md5)
      case Some(p) => if p != [] then Some(p) else None
      case None => None
  }

  /**
   * `download_media` over the observed state: the cache snapshot (`None` when the
   * handler has no cache manager), the files present, and the transfer outcome.
   */
  function Acquire(staticDir: string, md5: Md5, cache: Option<CacheData>, files: set<string>,
                   url: string, mediaType: string, transfer: Transfer): (s: Step)
    ensures s.recorded.Some? ==> s.recorded.value == s.result && s.result != []
    ensures s.created.Some? ==> s.created.value !in files
    ensures s.result == url || CacheHit(cache, url, md5) == Some(s.result)
            || (GenerateFilename(url, md5).Ok? && TypeDir(mediaType).Some? &&
                s.result == Place(GenerateFilename(url, md5).value, TypeDir(mediaType).value))
  {
    var hit := CacheHit(cache, url, md5);
    if hit.Some? && PathJoin(staticDir, LStrip(hit.value, '/')) in files then Step(hit.value, None, None)
    else Fetch(staticDir, files, url, GenerateFilename(url, md5), TypeDir(mediaType), transfer)
  }

  /** The site-relative path of a file saved under a type directory. */
  function Place(filename: string, dir: string): (rel: string)
    ensures rel != [] && rel[0] == '/'
  {
    "/" + dir + "/" + filename
  }

  /** What happens once the cache has not answered: name the file, pick the directory, adopt or download. */
  function Fetch(staticDir: string, files: set<string>, url: string,
                 filename: Result<string, UrlError>, dir: Option<string>, transfer: Transfer): (s: Step)
    ensures s.recorded.Some? ==> s.recorded.value == s.result && s.result != []
    ensures s.created.Some? ==> s.created.value !in files
    ensures s.result == url || (filename.Ok? && dir.Some? && s.result == Place(filename.value, dir.value))
  {
    match filename
    case Err(_) => Step(url, None, None)
    case Ok(name) =>
      match dir
      case None => Step(url, None, None)
      case Some(d) =>
        var relative := Place(name, d);
        var filePath := PathJoin(PathJoin(staticDir, d), name);
        if filePath in files then Step(relative, None, Some(relative))
        else
          match transfer
          case RequestFails => Step(url, None, None)
          case FailsMidWrite => Step(url, Some(filePath), None)
          case Completes => Step(relative, Some(filePath), Some(relative))
  }

  /** The cache snapshot after a step: recorded only when there is a cache. */
  function AfterRecord(cache: Option<CacheData>, url: string, recorded: Option<string>, md5: Md5): (r: Option<CacheData>)
    ensures r.Some? <==> cache.Some?
    ensures recorded.None? ==> r == cache
  {
    if cache.Some? && recorded.Some? then Some(WithMedia(cache.value, url, recorded.value, md5)) else cache
  }

  /** The file set after a step. */
  function AfterCreate(files: set<string>, created: Option<string>): (r: set<string>)
    ensures files <= r
    ensures created.Some? ==> r == files + {created.value}
    ensures created.None? ==> r == files
  {
    if created.Some? then files + {created.value} else files
  }

  // ---------------------------------------------------------------------
  // Properties of the decision procedure
  // ---------------------------------------------------------------------

  /** The cache answers when it holds a non-empty path whose file is present. */
  predicate UsableHit(staticDir: string, md5: Md5, cache: Option<CacheData>, files: set<string>, url: string) {
    var hit := CacheHit(cache, url, md5);
    hit.Some? && PathJoin(staticDir, LStrip(hit.value, '/')) in files
  }

  /** Where a known media type's file goes on disk. */
  function Target(staticDir: string, filename: string, dir: string): string {
    PathJoin(PathJoin(staticDir, dir), filename)
  }

  /** A cached path whose file is present is returned as is: no download, no cache write. */
  lemma CacheHitShortCircuits(staticDir: string, md5: Md5, cache: Option<CacheData>, files: set<string>,
                              url: string, mediaType: string, transfer: Transfer)
    requires UsableHit(staticDir, md5, cache, files, url)
    ensures Acquire(staticDir, md5, cache, files, url, mediaType, transfer)
         == Step(CacheHit(cache, url, md5).value, None, None)
  {
  }

  /** Without a usable hit the decision is made by `Fetch` on the generated name and the type directory. */
  lemma AcquireMisses(staticDir: string, md5: Md5, cache: Option<CacheData>, files: set<string>,
                      url: string, mediaType: string, transfer: Transfer)
    requires !UsableHit(staticDir, md5, cache, files, url)
    ensures Acquire(staticDir, md5, cache, files, url, mediaType, transfer)
         == Fetch(staticDir, files, url, GenerateFilename(url, md5), TypeDir(mediaType), transfer)
  {
  }

  /** Without a usable hit, an unknown media type gives back the URL and touches nothing. */
  lemma UnknownTypePassesThrough(staticDir: string, md5: Md5, cache: Option<CacheData>, files: set<string>,
                                 url: string, mediaType: string, transfer: Transfer)
    requires !UsableHit(staticDir, md5, cache, files, url)
    requires mediaType !in ["image", "video", "audio"]
    ensures Acquire(staticDir, md5, cache, files, url, mediaType, transfer) == Step(url, None, None)
  {
    AcquireMisses(staticDir, md5, cache, files, url, mediaType, transfer);
  }

  /** A file already at the target is adopted: the cache is backfilled and nothing is downloaded. */
  lemma FetchAdopts(staticDir: string, files: set<string>, url: string, name: string, dir: string, transfer: Transfer)
    requires Target(staticDir, name, dir) in files
    ensures Fetch(staticDir, files, url, Ok(name), Some(dir), transfer)
         == Step(Place(name, dir), None, Some(Place(name, dir)))
  {
  }

  /** A completed download creates the target and records the relative path it returns. */
  lemma FetchDownloads(staticDir: string, files: set<string>, url: string, name: string, dir: string)
    requires Target(staticDir, name, dir) !in files
    ensures Fetch(staticDir, files, url, Ok(name), Some(dir), Completes)
         == Step(Place(name, dir), Some(Target(staticDir, name, dir)), Some(Place(name, dir)))
  {
  }

  /**
   * A failed transfer returns the URL and leaves the cache as it was; only a
   * failure after `open` leaves the target behind.
   */
  lemma FetchFails(staticDir: string, files: set<string>, url: string, name: string, dir: string, transfer: Transfer)
    requires Target(staticDir, name, dir) !in files
    requires transfer != Completes
    ensures var s := Fetch(staticDir, files, url, Ok(name), Some(dir), transfer);
            && s.result == url && s.recorded.None?
            && (s.created.Some? <==> transfer == FailsMidWrite)
            && (s.created.Some? ==> s.created.value == Target(staticDir, name, dir))
  {
  }

  /** Every answer other than the URL names a file that is present once the step is done, and is recorded. */
  lemma FetchSuccess(staticDir: string, files: set<string>, url: string,
                     filename: Result<string, UrlError>, dir: Option<string>, transfer: Transfer)
    requires Fetch(staticDir, files, url, filename, dir, transfer).result != url
    ensures filename.Ok? && dir.Some?
    ensures var s := Fetch(staticDir, files, url, filename, dir, transfer);
            && s.result == Place(filename.value, dir.value)
            && s.recorded == Some(s.result)
            && Target(staticDir, filename.value, dir.value) in AfterCreate(files, s.created)
  {
  }

  /** The site-relative path, stripped of its slash and joined under the static directory, is the target. */
  lemma PlaceNamesTarget(staticDir: string, name: string, dir: string)
    requires name != [] && '/' !in name
    requires dir != [] && dir[0] != '/' && dir[|dir| - 1] != '/'
    ensures PathJoin(staticDir, LStrip(Place(name, dir), '/')) == Target(staticDir, name, dir)
  {
    assert name[0] != '/' by { assert name[0] in name; }
    RelativeAndAbsoluteAgree(staticDir, dir, name);
  }

  /**
   * With a cache, a call that answered with something other than the URL makes
   * the next call with the same URL and type answer the same, whatever the
   * transfer would do, without downloading or writing the cache.
   */
  lemma SecondCallReuses(staticDir: string, md5: Md5, data: CacheData, files: set<string>,
                         url: string, mediaType: string, t1: Transfer, t2: Transfer)
    requires Acquire(staticDir, md5, Some(data), files, url, mediaType, t1).result != url
    ensures var s1 := Acquire(staticDir, md5, Some(data), files, url, mediaType, t1);
            var cache2 := AfterRecord(Some(data), url, s1.recorded, md5);
            var files2 := AfterCreate(files, s1.created);
            Acquire(staticDir, md5, cache2, files2, url, mediaType, t2) == Step(s1.result, None, None)
  {
    var s1 := Acquire(staticDir, md5, Some(data), files, url, mediaType, t1);
    var cache2 := AfterRecord(Some(data), url, s1.recorded, md5);
    var files2 := AfterCreate(files, s1.created);
    if UsableHit(staticDir, md5, Some(data), files, url) {
      CacheHitShortCircuits(staticDir, md5, Some(data), files, url, mediaType, t1);
      CacheHitShortCircuits(staticDir, md5, Some(data), files, url, mediaType, t2);
    } else {
      SecondCallAfterFetch(staticDir, md5, data, files, url, mediaType, t1, t2);
    }
  }

  /** The case of `SecondCallReuses` where the first call fetched. */
  lemma SecondCallAfterFetch(staticDir: string, md5: Md5, data: CacheData, files: set<string>,
                             url: string, mediaType: string, t1: Transfer, t2: Transfer)
    requires !UsableHit(staticDir, md5, Some(data), files, url)
    requires Acquire(staticDir, md5, Some(data), files, url, mediaType, t1).result != url
    ensures var s1 := Acquire(staticDir, md5, Some(data), files, url, mediaType, t1);
            var cache2 := AfterRecord(Some(data), url, s1.recorded, md5);
            var files2 := AfterCreate(files, s1.created);
            Acquire(staticDir, md5, cache2, files2, url, mediaType, t2) == Step(s1.result, None, None)
  {
    FirstCallFetched(staticDir, md5, Some(data), files, url, mediaType, t1);
    FetchedIsReused(staticDir, md5, data, files, url, mediaType, GenerateFilename(url, md5).value,
                    TypeDir(mediaType).value, t1, t2, Acquire(staticDir, md5, Some(data), files, url, mediaType, t1));
  }

  /** A first call that changed the link, without a usable hit, fetched under the generated name. */
  lemma FirstCallFetched(staticDir: string, md5: Md5, cache: Option<CacheData>, files: set<string>,
                         url: string, mediaType: string, t1: Transfer)
    requires !UsableHit(staticDir, md5, cache, files, url)
    requires Acquire(staticDir, md5, cache, files, url, mediaType, t1).result != url
    ensures GenerateFilename(url, md5).Ok? && TypeDir(mediaType).Some?
    ensures var name := GenerateFilename(url, md5).value;
            && name != [] && '/' !in name
            && Acquire(staticDir, md5, cache, files, url, mediaType, t1)
               == Fetch(staticDir, files, url, Ok(name), Some(TypeDir(mediaType).value), t1)
  {
    var filename, dir := GenerateFilename(url, md5), TypeDir(mediaType);
    AcquireMisses(staticDir, md5, cache, files, url, mediaType, t1);
    FetchSuccess(staticDir, files, url, filename, dir, t1);
    FilenameIsPlain(url, md5);
  }

  /** After a fetch that placed a file, the next call returns the placed path from the cache. */
  lemma FetchedIsReused(staticDir: string, md5: Md5, data: CacheData, files: set<string>, url: string,
                        mediaType: string, name: string, d: string, t1: Transfer, t2: Transfer, s1: Step)
    requires name != [] && '/' !in name && Some(d) == TypeDir(mediaType)
    requires s1 == Fetch(staticDir, files, url, Ok(name), Some(d), t1) && s1.result != url
    ensures Acquire(staticDir, md5, AfterRecord(Some(data), url, s1.recorded, md5), AfterCreate(files, s1.created),
                    url, mediaType, t2) == Step(s1.result, None, None)
  {
    FetchedIsUsable(staticDir, md5, data, files, url, name, d, t1);
    var cache2, files2 := AfterRecord(Some(data), url, s1.recorded, md5), AfterCreate(files, s1.created);
    CacheHitShortCircuits(staticDir, md5, cache2, files2, url, mediaType, t2);
  }

  /** After a fetch that placed a file, the cache answers with it and the file is there. */
  lemma FetchedIsUsable(staticDir: string, md5: Md5, data: CacheData, files: set<string>,
                        url: string, name: string, d: string, t1: Transfer)
    requires name != [] && '/' !in name
    requires d != [] && d[0] != '/' && d[|d| - 1] != '/'
    requires Fetch(staticDir, files, url, Ok(name), Some(d), t1).result != url
    ensures var s1 := Fetch(staticDir, files, url, Ok(name), Some(d), t1);
            var cache2 := AfterRecord(Some(data), url, s1.recorded, md5);
            UsableHit(staticDir, md5, cache2, AfterCreate(files, s1.created), url)
            && CacheHit(cache2, url, md5) == Some(s1.result)
  {
    var s1 := Fetch(staticDir, files, url, Ok(name), Some(d), t1);
    FetchSuccess(staticDir, files, url, Ok(name), Some(d), t1);
    var rel := Place(name, d);
    var cache2 := AfterRecord(Some(data), url, s1.recorded, md5);
    assert cache2 == Some(WithMedia(data, url, rel, md5));
    RecordedHit(data, url, rel, md5);
    PlaceNamesTarget(staticDir, name, d);
    assert PathJoin(staticDir, LStrip(rel, '/')) in AfterCreate(files, s1.created);
  }

  /** A path just recorded for a URL is what the cache answers for it. */
  lemma RecordedHit(data: CacheData, url: string, rel: string, md5: Md5)
    requires rel != []
    ensures CacheHit(Some(WithMedia(data, url, rel, md5)), url, md5) == Some(rel)
  {
    CachedMediaReadBack(data, url, rel, url, md5);
  }

  /**
   * A transfer that fails after `open` leaves a file at the target. The next call
   * finds it, records it in the cache and returns its path without downloading:
   * the partial file is from then on served as the media.
   */
  lemma PartialFileIsAdopted(staticDir: string, md5: Md5, cache: Option<CacheData>, files: set<string>,
                             url: string, mediaType: string, t2: Transfer)
    requires CacheHit(cache, url, md5).None?
    requires GenerateFilename(url, md5).Ok? && TypeDir(mediaType).Some?
    requires Target(staticDir, GenerateFilename(url, md5).value, TypeDir(mediaType).value) !in files
    ensures var s1 := Acquire(staticDir, md5, cache, files, url, mediaType, FailsMidWrite);
            var rel := Place(GenerateFilename(url, md5).value, TypeDir(mediaType).value);
            && s1.result == url && s1.recorded.None?
            && Acquire(staticDir, md5, cache, AfterCreate(files, s1.created), url, mediaType, t2)
               == Step(rel, None, Some(rel))
  {
    var name, dir := GenerateFilename(url, md5).value, TypeDir(mediaType).value;
    var s1 := Acquire(staticDir, md5, cache, files, url, mediaType, FailsMidWrite);
    AcquireMisses(staticDir, md5, cache, files, url, mediaType, FailsMidWrite);
    FetchFails(staticDir, files, url, name, dir, FailsMidWrite);
    var files2 := AfterCreate(files, s1.created);
    AcquireMisses(staticDir, md5, cache, files2, url, mediaType, t2);
    FetchAdopts(staticDir, files2, url, name, dir, t2);
  }

  // ---------------------------------------------------------------------
  // The handler
  // ---------------------------------------------------------------------

  /** The static directory as a set of file paths. */
  class Disk {
    var files: set<string>

    constructor (files: set<string>)
      ensures this.files == files
    {
      this.files := files;
    }
  }

  class MediaHandler {
    const staticDir: string
    const cache: CacheManager?
    const md5: Md5

    /** `__init__` (creating the three sub-directories is not modelled: directories are not files). */
    constructor (staticDir: string, cache: CacheManager?, md5: Md5)
      ensures this.staticDir == staticDir && this.cache == cache && this.md5 == md5
    {
      this.staticDir := staticDir;
      this.cache := cache;
      this.md5 := md5;
    }

    /** The cache snapshot the handler consults, `None` without a cache manager. */
    function Snapshot(): (r: Option<CacheData>)
      reads cache
      ensures r.Some? <==> cache != null
    {
      if cache == null then None else Some(cache.cacheData)
    }

    /** `download_media` */
    method DownloadMedia(url: string, mediaType: string, disk: Disk, transfer: Transfer) returns (r: string)
      modifies disk, cache
      ensures var s := Acquire(staticDir, md5, old(Snapshot()), old(disk.files), url, mediaType, transfer);
              && r == s.result
              && disk.files == AfterCreate(old(disk.files), s.created)
              && Snapshot() == AfterRecord(old(Snapshot()), url, s.recorded, md5)
    {
      ghost var cache0, files0 := Snapshot(), disk.files;
      var hit := CacheHit(Snapshot(), url, md5);
      if hit.Some? && PathJoin(staticDir, LStrip(hit.value, '/')) in disk.files {
        CacheHitShortCircuits(staticDir, md5, cache0, files0, url, mediaType, transfer);
        return hit.value;
      }
      AcquireMisses(staticDir, md5, cache0, files0, url, mediaType, transfer);
      var filename := GenerateFilename(url, md5);
      var dir := TypeDir(mediaType);
      r := FetchMedia(url, filename, dir, disk, transfer);
    }

    /** The part of `download_media` after the cache lookup: name, dispatch, adopt, download, record. */
    method FetchMedia(url: string, filename: Result<string, UrlError>, dir: Option<string>,
                      disk: Disk, transfer: Transfer) returns (r: string)
      modifies disk, cache
      ensures var s := Fetch(staticDir, old(disk.files), url, filename, dir, transfer);
              && r == s.result
              && disk.files == AfterCreate(old(disk.files), s.created)
              && Snapshot() == AfterRecord(old(Snapshot()), url, s.recorded, md5)
    {
      ghost var files0 := disk.files;
      if filename.Err? || dir.None? {
        return url;
      }
      var relative := Place(filename.value, dir.value);
      var filePath := PathJoin(PathJoin(staticDir, dir.value), filename.value);
      if filePath in disk.files {
        FetchAdopts(staticDir, files0, url, filename.value, dir.value, transfer);
        if cache != null {
          cache.CacheMedia(url, relative, md5);
        }
        return relative;
      }
      if transfer == RequestFails {
        FetchFails(staticDir, files0, url, filename.value, dir.value, transfer);
        return url;
      }
      // `open(file_path, 'wb')` creates the file before the first chunk arrives.
      disk.files := disk.files + {filePath};
      if transfer == FailsMidWrite {
        FetchFails(staticDir, files0, url, filename.value, dir.value, transfer);
        return url;
      }
      FetchDownloads(staticDir, files0, url, filename.value, dir.value);
      if cache != null {
        cache.CacheMedia(url, relative, md5);
      }
      return relative;
    }
  }

  /**
   * Two calls in a row for the same URL and type: once the first has answered
   * with a local path, the second returns that path and changes nothing.
   */
  method DownloadTwice(handler: MediaHandler, disk: Disk, url: string, mediaType: string, t1: Transfer, t2: Transfer)
    returns (first: string, second: string)
    requires handler.cache != null
    modifies disk, handler.cache
    ensures first != url ==> second == first
  {
    first := handler.DownloadMedia(url, mediaType, disk, t1);
    if first != url {
      SecondCallReuses(handler.staticDir, handler.md5, old(handler.cache.cacheData), old(disk.files),
                       url, mediaType, t1, t2);
    }
    second := handler.DownloadMedia(url, mediaType, disk, t2);
  }
}
