# notion-hugo-deploy core, modelled in Dafny

This project models the four pieces of logic that turn a Notion database into a Hugo site.

- **The incremental cache store (`CacheManager`).** It holds the last-sync time, the last edit time of each post, and the site path of each downloaded media file. Media entries are keyed by a normalised media key. A Notion-hosted upload keys as `notion:<lower-cased id>`; anything else keys as `url:<md5>`.
- **The media acquisition procedure (`MediaHandler.download_media`, `_generate_filename`).** The steps run in this order:
  1. a cache hit whose file is on disk;
  2. pass-through of unknown media types;
  3. a stable file name;
  4. adoption of a file that is already there;
  5. download;
  6. cache write.

  Any failure gives back the original URL.
- **The Notion service.** This part covers:
  - the recursive, paginated retrieval of a page's block tree (`_get_page_blocks`);
  - the paginated listing of published posts (`get_published_posts`);
  - the parsing of a page into a post, with its defaults (`_parse_page`);
  - the cached data-source lookup (`_ensure_data_source_id`);
  - the required-property check of `test_connection`.
- **The block → Markdown converter (`HugoConverter`).** This part covers:
  - rich-text annotation nesting and HTML escaping;
  - every block converter, with the dispatcher's empty-string fallback;
  - list-child indentation, quote prefixing and table layout;
  - Notion link rewriting;
  - the Mermaid and math detectors.

The network, the file system, MD5 and ISO-8601 timestamp parsing are abstract:
- A remote listing is a value: its pages, each either a response or a failed request. A cursor is the index of the page it designates.
- The disk is a set of paths.
- A download is one of three outcomes: fails before `open`, fails after `open` has created the file, or completes.
- MD5 is an uninterpreted function yielding 32 lower-case hex digits.
- A timestamp is an integer instant, or `Unparsable`.

The modules follow the source files:

| module | file | models |
|---|---|---|
| `CacheManagement` | `cache_manager.dfy` | `scripts/cache_manager.py` |
| `Media` | `media_handler.dfy` | `scripts/media_handler.py`; the file system is a `Disk` class, the handler a class over a `CacheManager` |
| `NotionService` | `notion_service.dfy` | `scripts/notion_service.py`; its loops are methods proved equal to specification functions |
| `HugoConverter` | `converter.dfy` | `scripts/hugo_converter.py`; pure converters are functions, loop-based ones are methods proved equal to them |
| `Links` | `links.dfy` | `_rewrite_notion_link` and the GitHub pull-request detector of `_rich_text_to_markdown` |
| `Html` | `html.dfy` | `_escape_html` and its inverse |
| `Urls` | `urls.dfy` | the parts of `urllib.parse.urlparse`, `os.path.basename`/`splitext`/`join` the source relies on |
| `Text` | `text.dfy` | Python string operations: `lower`, `replace`, `split`, `join`, `strip`, `lstrip` |
| `Blocks` | `blocks.dfy` | Notion blocks and rich text as the converter reads them |
| `Wrappers` | `wrappers.dfy` | `Option` and `Result` |

## Model

| member | source | states |
|---|---|---|
| `Text.Lower` | scripts/cache_manager.py:77 | `str.lower` keeps the length and lower-cases each ASCII capital, leaving every other character as it is |
| `Text.LowerIdempotent` | scripts/cache_manager.py:77 | lower-casing twice is lower-casing once, so a key built from an already lower-cased id is unchanged |
| `Text.RemoveChar` | scripts/notion_service.py:298 | `replace('-', '')` removes every hyphen and keeps every other character, with its multiplicity |
| `Text.RemoveCharConcat` | scripts/notion_service.py:298 | removal works character by character: on a concatenation it is the concatenation of the removals, so the kept characters stay in order |
| `Text.RemoveCharSingle` | scripts/notion_service.py:298 | a single character is dropped when it is the removed one and kept otherwise |
| `Text.Strip` | scripts/hugo_converter.py:701 | `str.strip()` leaves no Python whitespace at either end, and the result is empty exactly when the text is all whitespace |
| `Text.StripIsTrim` | scripts/hugo_converter.py:701 | `str.strip()` cuts whitespace from the two ends and nothing else: the result is a slice `s[i..j]` with only whitespace before `i` and after `j` |
| `Text.JoinSplit` | scripts/hugo_converter.py:219-220 | joining the pieces of `split('\n')` with `'\n'` gives back the text |
| `Text.SplitJoin` | scripts/hugo_converter.py:188 | splitting a `'\n'`-join of newline-free lines gives back exactly those lines |
| `Text.PrefixLinesKeepsLines` | scripts/hugo_converter.py:219-220 | prefixing every line with a newline-free prefix keeps the line structure: the output's lines are the prefixed input lines |
| `CacheManagement.LoadCache` | scripts/cache_manager.py:13-25 | a stored snapshot is returned as read; a missing or unreadable file gives exactly `last_sync = None`, `posts = {}`, `media = {}` |
| `CacheManagement.FindNotionStatic` | scripts/cache_manager.py:75 | `re.search` scans left to right: a found position matches `secure.notion-static.com/<36 hex-or-hyphen>/` and no earlier one does; none found means no position matches |
| `CacheManagement.NotionStaticId` | scripts/cache_manager.py:75-76 | the captured group is 36 hex-or-hyphen characters, and there is one exactly when the pattern occurs somewhere in the URL |
| `CacheManagement.NormalizeMediaKey` | scripts/cache_manager.py:69-78 | a hosted upload keys as `notion:` + its lower-cased id; every other URL keys as `url:` + its MD5 |
| `CacheManagement.KeyNamespaces` | scripts/cache_manager.py:75-78 | a key starts with `notion:` exactly when the URL is a hosted upload and with `url:` exactly when it is not |
| `CacheManagement.NamespacesDisjoint` | scripts/cache_manager.py:75-78 | a hosted upload and an external URL never share a key |
| `CacheManagement.NotionKeysAgreeIffIdsAgree` | scripts/cache_manager.py:76-77 | two hosted uploads share a key exactly when their ids agree up to letter case |
| `CacheManagement.NotionKeyShape` | scripts/cache_manager.py:77 | a hosted key is 43 characters: `notion:` then 36 lower-case hex digits or hyphens |
| `CacheManagement.HostedIdAfterPrefix` | scripts/cache_manager.py:75 | in a URL where the notion-static host first occurs after a prefix and is followed by an id and `/`, that id is found, whatever precedes and follows |
| `CacheManagement.SignedUrlsShareKey` | scripts/cache_manager.py:75-77 | two URLs of the same upload, whatever their prefixes and signatures and with ids differing only in case, get the same key |
| `CacheManagement.ShouldUpdatePost` | scripts/cache_manager.py:32-38 | an unknown post needs updating; a known one exactly when the new time is strictly later; a missing `posts` section or an unparsable stored time raises |
| `CacheManagement.GetCachedMedia` | scripts/cache_manager.py:44-48 | there is a path exactly when the `media` section exists and holds the URL's key, and it is the stored one; a missing section gives `None` |
| `CacheManagement.WithMedia` | scripts/cache_manager.py:50-53 | `setdefault` then store: the key maps to the path, and `last_sync` and `posts` are unchanged |
| `CacheManagement.GetLastSync` | scripts/cache_manager.py:59-67 | a time comes back exactly when `last_sync` holds a parsable one; absent, empty and unparsable give `None` |
| `CacheManagement.CacheManager.constructor` | scripts/cache_manager.py:9-11 | the store starts from what `_load_cache` returns |
| `CacheManagement.CacheManager.UpdatePostCache` | scripts/cache_manager.py:40-42 | only `posts[id]` changes, to the new time; a missing `posts` section raises `KeyError` and changes nothing |
| `CacheManagement.CacheManager.CacheMedia` | scripts/cache_manager.py:50-53 | the store becomes `WithMedia` of the old one |
| `CacheManagement.CacheManager.UpdateLastSync` | scripts/cache_manager.py:55-57 | only `last_sync` changes, to the current time |
| `CacheManagement.UpdatedPostIsFresh` | scripts/cache_manager.py:37-42 | after recording time `t`, a post needs updating at `t2` exactly when `t2 > t`; equal times do not |
| `CacheManagement.UpdateIsLocal` | scripts/cache_manager.py:40-42 | recording one post leaves every other post's decision as it was |
| `CacheManagement.CachedMediaReadBack` | scripts/cache_manager.py:44-53 | after caching `u`, any URL with `u`'s key reads the new path, and every other URL reads what it read before |
| `CacheManagement.LastSyncReadBack` | scripts/cache_manager.py:55-67 | after `update_last_sync` the time reads back, and post decisions and media lookups are unchanged |
| `CacheManagement.EmptyStoreMissesEverything` | scripts/cache_manager.py:13-25 | from a missing or corrupt file every post needs updating, no media is cached and there is no last sync |
| `Urls.SplitScheme` | scripts/media_handler.py:96 | the scheme is split off exactly when the first colon follows an ASCII letter and only scheme characters; it is then the lower-cased text before that colon and the rest is what follows it; otherwise the URL is kept whole |
| `Urls.SplitNetloc` | scripts/media_handler.py:96 | the netloc is taken only after a leading `//`, and netloc plus rest rebuild the input |
| `Urls.SplitOnce` | scripts/hugo_converter.py:717 | `split(c, 1)`: without `c` the text is kept whole; otherwise head, `c` and tail rebuild it and the head holds no `c` |
| `Urls.UrlParse` | scripts/media_handler.py:96 | `urlparse` splits the sanitised URL; it raises exactly when the sanitised URL's network location holds one bracket without the other (an invalid IPv6 netloc), so only a URL with a bracket can raise; the NFKC check of a non-ASCII network location is left out |
| `Urls.Sanitize` | scripts/media_handler.py:96 | what `urlsplit` splits: leading C0 controls and spaces stripped, then tabs, carriage returns and line feeds deleted; what is left is empty or starts with neither |
| `Urls.LStripOnlyC0` | scripts/media_handler.py:96 | the leading strip removes only C0 controls and spaces |
| `Urls.RemoveUnsafeChars` | scripts/media_handler.py:96 | deleting tabs, carriage returns and line feeds leaves none of them and adds no character |
| `Urls.RemoveUnsafeNoop` | scripts/media_handler.py:96 | text without tab, carriage return or line feed is kept as it is |
| `Urls.SanitizedChars` | scripts/media_handler.py:96 | every character of the sanitised URL is in the URL and is not a tab, carriage return or line feed |
| `Urls.SanitizeConcat` | scripts/hugo_converter.py:700 | around a character that is not a control or space, such as `#` or `?`, sanitising the URL sanitises the part before and only deletes tabs, carriage returns and line feeds from the part after |
| `Urls.FragmentAfterHash` | scripts/hugo_converter.py:700-701 | a URL whose text before the first `#` is ASCII and bracket-free parses, and its fragment is everything after that `#` less its tabs, carriage returns and line feeds, brackets included |
| `Urls.PathBeforeHash` | scripts/hugo_converter.py:717-722 | with ASCII text free of brackets, `?` and `;` before the first `#`, the URL parses; when more than two characters of that text survive sanitising, it has a scheme, a network location or a path |
| `Urls.BaseName` | scripts/media_handler.py:97 | the base name holds no `/`, ends the path, and is all that follows the last `/`: when shorter than the path, a `/` precedes it |
| `Urls.SplitExt` | scripts/media_handler.py:98 | the extension is non-empty exactly when a character other than `.` precedes some dot; it is then a `.` followed by no further dot, ending the name, i.e. it starts at the last dot |
| `Urls.PathJoin` | scripts/media_handler.py:54 | an absolute second part replaces the first; otherwise the parts are concatenated, with exactly one `/` inserted when the first is non-empty and does not end in `/` |
| `Urls.RelativeAndAbsoluteAgree` | scripts/media_handler.py:31-54 | the path a cache hit checks, `static_dir` joined with the site path without its `/`, is the path a download writes |
| `Media.Extension` | scripts/media_handler.py:97-112 | the extension of the URL path's base name, or `.jpg` when it has none; it starts with `.` and has no `/` |
| `Media.FileStem` | scripts/media_handler.py:101-109 | the lower-cased notion-static id for hosted uploads, otherwise the first 8 characters of the MD5; never empty, never holding `/` |
| `Media.GenerateFilename` | scripts/media_handler.py:89-112 | stem plus extension; fails exactly when `urlparse` raises |
| `Media.FilenameIsPlain` | scripts/media_handler.py:89-112 | a generated file name is non-empty and holds no `/` |
| `Media.SameUploadSameFilename` | scripts/media_handler.py:96-106 | two signed URLs of one upload with the same path get the same file name |
| `Media.TypeDir` | scripts/media_handler.py:42-52 | there is a directory exactly for `image`, `video` and `audio` |
| `Media.CacheHit` | scripts/media_handler.py:27-29 | a hit is a non-empty path the cache holds for the URL |
| `Media.Acquire` | scripts/media_handler.py:24-87 | the result is the original URL, the cached path, or `/<dir>/<filename>`; a created file was not there before, and what is recorded in the cache is the returned path |
| `Media.Fetch` | scripts/media_handler.py:39-87 | after a miss: the result is the URL or the placed path, and what is recorded is the returned path |
| `Media.AfterCreate` | scripts/media_handler.py:67 | `open(..., 'wb')` adds its path to the disk and removes nothing |
| `Media.CacheHitShortCircuits` | scripts/media_handler.py:27-34 | a cached path whose file exists is returned with no download and no cache write |
| `Media.AcquireMisses` | scripts/media_handler.py:35-39 | without a usable hit the procedure is the fetch path, on the generated file name and the type's directory |
| `Media.UnknownTypePassesThrough` | scripts/media_handler.py:51-52 | an unknown media type returns the URL, touching neither disk nor cache |
| `Media.FetchAdopts` | scripts/media_handler.py:57-61 | a target file already on disk is adopted: the cache is backfilled with its site path and nothing is downloaded |
| `Media.FetchDownloads` | scripts/media_handler.py:63-83 | a completed download creates the target file, caches its site path and returns it |
| `Media.FetchFails` | scripts/media_handler.py:85-87 | a failed download returns the URL and writes no cache entry; a file is left behind exactly when the failure came after `open` |
| `Media.FetchSuccess` | scripts/media_handler.py:57-83 | any result other than the URL is the placed path, it is cached, and its file is on disk afterwards |
| `Media.PlaceNamesTarget` | scripts/media_handler.py:31-54 | the file a cache hit checks for is the file the download writes |
| `Media.SecondCallReuses` | scripts/media_handler.py:27-61 | after a call that succeeded, the same call again returns the same path with no download and no cache change |
| `Media.PartialFileIsAdopted` | scripts/media_handler.py:57-87 | a download that fails after `open` returns the URL but leaves the file, and the next call adopts that file as the media |
| `Media.Disk.constructor` | scripts/media_handler.py:20-22 | the disk starts with the given files |
| `Media.MediaHandler.constructor` | scripts/media_handler.py:13-18 | the handler keeps its static directory and cache manager |
| `Media.MediaHandler.Snapshot` | scripts/media_handler.py:27 | the handler has a snapshot exactly when it has a cache manager |
| `Media.MediaHandler.DownloadMedia` | scripts/media_handler.py:24-87 | the result, the new disk and the new cache are those `Acquire` specifies from the old ones |
| `Media.MediaHandler.FetchMedia` | scripts/media_handler.py:54-87 | the result, the new disk and the new cache are those `Fetch` specifies from the old ones |
| `Media.DownloadTwice` | scripts/media_handler.py:27-61 | calling `download_media` twice, the second call returns what a successful first one did |
| `NotionService.Request` | scripts/notion_service.py:341-347 | the first request, with no cursor, gets the first page |
| `NotionService.Populate` | scripts/notion_service.py:351-362 | a listed block keeps its fields and gets a `children` list exactly when it has `has_children` |
| `NotionService.Resolve` | scripts/notion_service.py:351-362 | one response's blocks come back one for one, in order, each populated; a failing subtree drops no sibling |
| `NotionService.Collect` | scripts/notion_service.py:334-370 | every collected block has `children` exactly when it has `has_children` |
| `NotionService.CollectInOrder` | scripts/notion_service.py:339-365 | while pages answer and announce more, the walk is their blocks in page order followed by the walk from the next page |
| `NotionService.FailureKeepsPrefix` | scripts/notion_service.py:366-370 | a request failing at page `j` ends the walk with exactly the blocks of the pages before it, without raising |
| `NotionService.CompleteWalk` | scripts/notion_service.py:339-365 | when every page answers, all blocks of all pages come back in order |
| `NotionService.SubtreeFailureIsolated` | scripts/notion_service.py:354-360 | a block whose child listing fails at once still comes back, with `children == []` |
| `NotionService.FetchChildren` | scripts/notion_service.py:334-370 | the loop of `fetch_children_recursively` returns the walk `Collect` specifies from the first page |
| `NotionService.FetchPage` | scripts/notion_service.py:351-362 | the inner loop over one response's blocks returns `Resolve` of them |
| `NotionService.FetchBlock` | scripts/notion_service.py:353-362 | one block, recursed into when it has children, is `Populate` of it |
| `NotionService.GetPageBlocks` | scripts/notion_service.py:331-373 | the page's blocks are the walk from its first page, each with `children` exactly when it has `has_children` |
| `NotionService.WalkInvariant` | scripts/notion_service.py:339-365 | on a well-chained listing, after `n` passes of the page loop: while it runs it has taken the first `n` pages, its cursor designates page `n`, and what it holds followed by the walk from page `n` is the whole walk; once it stops it holds the whole walk |
| `NotionService.WalksReachCollect` | scripts/notion_service.py:339-365 | the page loop stops within one pass more than there are pages, holding every block `Collect` gives, in order |
| `NotionService.MissingCursorLoops` | scripts/notion_service.py:339-365 | a first page announcing more with no cursor is fetched again on every pass: after `n` passes the walk is still going and holds `n` copies of its blocks |
| `NotionService.TitleField` | scripts/notion_service.py:288-292 | with no `Title` property the title is `Untitled` |
| `NotionService.SlugField` | scripts/notion_service.py:294-298 | with no `Slug` property the slug is the id without hyphens |
| `NotionService.DateField` | scripts/notion_service.py:300-304 | with no `Date` property the date is the post's default, the creation-time `now` |
| `NotionService.TagsField` | scripts/notion_service.py:306-308 | with no `Tags` property there are no tags |
| `NotionService.CoverField` | scripts/notion_service.py:310-316 | with no cover there is no cover image |
| `NotionService.ParsedPage` | scripts/notion_service.py:280-329 | a post comes back exactly when no field read raises; it carries the page's id and its collected blocks |
| `NotionService.ParseDefaults` | scripts/notion_service.py:288-308 | title `Untitled` and slug the hyphen-free id when absent or empty; tags are the `multi_select` names in order, or none; the date defaults to `now` |
| `NotionService.ParsePage` | scripts/notion_service.py:280-329 | the field-by-field build of `NotionPost` returns `ParsedPage` |
| `NotionService.ParsedAll` | scripts/notion_service.py:264-267 | at most one post per listed page |
| `NotionService.ParsedAllMembers` | scripts/notion_service.py:264-267 | a post is kept exactly when some listed page parses to it |
| `NotionService.PublishedConcatenates` | scripts/notion_service.py:254-275 | when all query pages answer, the posts are those of every page, concatenated in page order |
| `NotionService.PublishedFailure` | scripts/notion_service.py:276-278 | a failing query page makes the whole listing `[]` |
| `NotionService.ResolveDataSource` | scripts/notion_service.py:45-65 | a cached id is returned as is; without one, no database answer gives `RequestFailed`, an empty `data_sources` list `NoDataSources`, a first source without id `MissingId`, and otherwise the first source's id, which is cached; a failure keeps the cache |
| `NotionService.ResolveIsStable` | scripts/notion_service.py:50-65 | after a success, asking again returns the same id from the cache |
| `NotionService.FirstDataSourceWins` | scripts/notion_service.py:59-65 | with several data sources the first one's id is returned, and later lookups keep it whatever the database says then |
| `NotionService.NotionClient.constructor` | scripts/notion_service.py:36 | no data-source id is cached at first |
| `NotionService.NotionClient.EnsureDataSourceId` | scripts/notion_service.py:45-65 | the answer and the new cached id are those `ResolveDataSource` gives |
| `NotionService.NotionClient.GetPublishedPosts` | scripts/notion_service.py:247-278 | a failed data-source lookup gives `[]`; otherwise the posts of the query pages in order, or `[]` when a query page fails |
| `NotionService.ParsePages` | scripts/notion_service.py:264-267 | the loop keeping non-`None` parses returns `ParsedAll` |
| `NotionService.ParsedAllSnoc` | scripts/notion_service.py:264-267 | one more page adds its post at the end when it parses, and nothing otherwise |
| `NotionService.MissingMembers` | scripts/notion_service.py:143-145 | a name is reported missing exactly when it is required and absent from the schema |
| `NotionService.WrongTypesMembers` | scripts/notion_service.py:143-150 | a line is in the wrong-type list exactly when some required property is present with another type (or none) and the line names it, its expected type and its actual type |
| `NotionService.CountRight` | scripts/notion_service.py:143-150 | at most as many properties are right as are required |
| `NotionService.ClassificationIsExclusive` | scripts/notion_service.py:143-150 | each required property is exactly one of missing, of the wrong type, or right |
| `NotionService.SchemaWarnings` | scripts/notion_service.py:152-161 | one warning per non-empty list, missing first, each listing its names joined by `, ` |
| `NotionService.CheckRequiredProperties` | scripts/notion_service.py:132-161 | the loop's missing list, wrong-type list and warnings are those the specification functions give |
| `Html.EscapeHtml` | scripts/hugo_converter.py:686-691 | the escaped text holds no `<` and no `>` |
| `Html.EscapeConcat` | scripts/hugo_converter.py:686-691 | escaping distributes over concatenation |
| `Html.EscapeIsSinglePass` | scripts/hugo_converter.py:686-691 | replacing `&` first makes the three passes one character-by-character pass: introduced entities are never escaped again |
| `Html.EscapeRoundTrip` | scripts/hugo_converter.py:686-691 | escaping loses nothing: reading the three entities back gives the original text |
| `Html.PlainTextUnchanged` | scripts/hugo_converter.py:686-691 | text without `&`, `<` and `>` is left as it is |
| `Links.Search` | scripts/hugo_converter.py:719 | `re.search` finds the leftmost match of the id pattern, or reports that none exists |
| `Links.MatchedId` | scripts/hugo_converter.py:710-722 | a matched id is 32 or 36 hex-or-hyphen characters |
| `Links.CompactOnlyAtEnd` | scripts/hugo_converter.py:711 | `$` anchors the compact pattern at the end of the text |
| `Links.HyphenatedOnlyAtEnd` | scripts/hugo_converter.py:712 | `$` anchors the hyphenated pattern at the end of the text |
| `Links.CompactIdAtEnd` | scripts/hugo_converter.py:711-722 | a URL ending in 32 hex digits yields that id |
| `Links.CompactIdBeforeQuery` | scripts/hugo_converter.py:710-722 | a URL `<prefix><32-hex id>?<query>` with a short one-line query yields that id: only the third pattern `([0-9a-f]{32})(?:\?.*)?$` matches, and it matches first right after the prefix |
| `Links.HyphenatedIdAtEnd` | scripts/hugo_converter.py:712-722 | a URL ending in a hyphenated UUID yields that id |
| `Links.NormalFragment` | scripts/hugo_converter.py:728-732 | a fragment that is not a Notion id is kept as it is |
| `Links.NormalFragmentIsCompact` | scripts/hugo_converter.py:729-730 | a Notion-id fragment becomes lower-case hex without hyphens |
| `Links.RewriteNotionLink` | scripts/hugo_converter.py:693-736 | the URL changes only when it parses, an id matches and the id maps to a non-empty slug, and then it becomes `/posts/<slug>/` with the normalised fragment |
| `Links.RewriteParsed` | scripts/hugo_converter.py:701-736 | the same, for a given parse result |
| `Links.AnchorLinksUnchanged` | scripts/hugo_converter.py:704-736 | an anchor-only link comes back unchanged, because the later `import re` makes `re` unbound in that branch |
| `Links.AnchorParsedUnchanged` | scripts/hugo_converter.py:704-736 | the same, for a given parse result |
| `Links.NoHashNoFragment` | scripts/hugo_converter.py:700-701 | a URL without `#` has an empty fragment |
| `Links.RewriteKnownPage` | scripts/hugo_converter.py:710-733 | a link ending in a known page's id after ASCII text, with no fragment, becomes `/posts/<slug>/` |
| `Links.RewriteKnownPageFragment` | scripts/hugo_converter.py:710-733 | a link to a known page after ASCII text, followed by `#` and any fragment, becomes `/posts/<slug>/#<fragment>`: the fragment with its tabs, carriage returns and line feeds deleted, then stripped and, when it is an id, normalised |
| `Links.RewriteKnownPageQuery` | scripts/hugo_converter.py:710-733 | a share link `<prefix><32-hex id>?<query>` to a known page becomes `/posts/<slug>/`, the query dropped |
| `Links.UnknownPageUnchanged` | scripts/hugo_converter.py:724-736 | a link whose id has no slug comes back unchanged |
| `Links.DigitRun` | scripts/hugo_converter.py:625 | `(\d+)` takes the longest run of digits at that position |
| `Links.PullNumberFrom` | scripts/hugo_converter.py:625 | a number found is the non-empty digit run after `/pull/` in the match `re.search` reports from the start position: the leftmost host with a match, then the first `/pull/` and digit the lazy `.+?` reaches on the same line |
| `Links.GithubPullNumber` | scripts/hugo_converter.py:624-627 | the pull-request number of a link is the non-empty digit run after `/pull/` in the leftmost match, ended lazily |
| `Links.FirstPullMatchUnique` | scripts/hugo_converter.py:625 | there is one leftmost, lazily ended match, so the number is determined |
| `Links.LeadingPullLinkWins` | scripts/hugo_converter.py:624-627 | a text opening with a pull-request link yields that link's number whatever follows, later links included |
| `Links.PullNumberIffMatch` | scripts/hugo_converter.py:625 | a number is found exactly when the pattern matches somewhere in the link |
| `Links.LazyEndFinds` | scripts/hugo_converter.py:625 | the lazy `.+?` reaches `/pull/` and a digit whenever they lie ahead on the same line, stopping at the first such place |
| `Links.PullRequestLink` | scripts/hugo_converter.py:625-627 | `github.com/o/pull/7` yields pull request `7` |
| `HugoConverter.RichTextToMarkdown` | scripts/hugo_converter.py:611-677 | the loop over runs returns the concatenation of each run's markup |
| `HugoConverter.PlainRunsRenderAsText` | scripts/hugo_converter.py:611-684 | runs with no link and no annotation render as their plain text |
| `HugoConverter.CodeRunIsEscaped` | scripts/hugo_converter.py:648-649 | a code run is `<code>` around an escaping of its text that holds no `<` or `>` and reads back as the text |
| `HugoConverter.NewTabExactlyForHttp` | scripts/hugo_converter.py:664-673 | a link opens in a new tab exactly when it starts with `http://` or `https://` |
| `HugoConverter.Rendered` | scripts/hugo_converter.py:74-78 | the kept conversions are non-empty and no more than the blocks |
| `HugoConverter.BlocksToMarkdown` | scripts/hugo_converter.py:70-80 | the loop returns the non-empty conversions joined by a blank line |
| `HugoConverter.IndentChildren` | scripts/hugo_converter.py:180-192 | the child loop returns the indented non-empty child conversions in order |
| `HugoConverter.ConvertListItem` | scripts/hugo_converter.py:171-194 | the loop-based list-item converter returns the list item `ListItem` specifies |
| `HugoConverter.RowOf` | scripts/hugo_converter.py:387-392 | the cell loop of one row returns that row's cell texts |
| `HugoConverter.CollectRows` | scripts/hugo_converter.py:382-393 | the row loop keeps the `table_row` children, in order |
| `HugoConverter.TableLinesOf` | scripts/hugo_converter.py:398-416 | the line-building loop returns the table's lines |
| `HugoConverter.ConvertTable` | scripts/hugo_converter.py:373-416 | the loop-based table converter returns the table `Table` specifies |
| `HugoConverter.MermaidAnywhere` | scripts/hugo_converter.py:738-754 | the recursive detector is true exactly when some block of the flattened tree is Mermaid code |
| `HugoConverter.AnyMermaidConcat` | scripts/hugo_converter.py:740-754 | the detector over two lists is the disjunction of the detectors |
| `HugoConverter.MathAtTopLevel` | scripts/hugo_converter.py:756-772 | math is found exactly when some top-level block is an equation or a text block whose text holds `$`, or two backslashes followed by `(` or `[`; children are not searched |
| `HugoConverter.RenderedConcat` | scripts/hugo_converter.py:74-78 | the kept conversions of two lists are those of each, in order |
| `HugoConverter.MarkdownConcat` | scripts/hugo_converter.py:70-80 | converting two lists is converting each and joining them with a blank line, unless one of them yields nothing |
| `HugoConverter.EmptyBlockDropped` | scripts/hugo_converter.py:74-80 | a block whose converter yields `""` or raises adds nothing to the document |
| `HugoConverter.UnknownTypeDropped` | scripts/hugo_converter.py:138-140 | an unrecognised block type converts to `""` |
| `HugoConverter.DownloadingBlocksDropped` | scripts/hugo_converter.py:82-143 | image blocks and file-hosted video and audio blocks convert to `""`, because their three-argument `download_media` call raises `TypeError` |
| `HugoConverter.MediaRaisesExactlyWhenDownloading` | scripts/hugo_converter.py:251-297 | the image, video and audio converters raise exactly when they reach the three-argument download call |
| `HugoConverter.HeadingLevelIsSecondField` | scripts/hugo_converter.py:157 | the level is the second `_`-separated field of the type name |
| `HugoConverter.HeadingAnchorNormalised` | scripts/hugo_converter.py:166-167 | the anchor has no hyphen and no capital, and is empty exactly when there is no id or it is all hyphens |
| `HugoConverter.HeadingShape` | scripts/hugo_converter.py:155-169 | a `heading_<d>` block is `d` hashes, a space and the text, with ` {#anchor}` exactly when the anchor is non-empty |
| `HugoConverter.HeadingBadLevelDropped` | scripts/hugo_converter.py:155-169 | a level `int()` rejects raises `ValueError`, and the block converts to `""` |
| `HugoConverter.QuoteLines` | scripts/hugo_converter.py:212-220 | the quote has one line per line of the text, each the text line prefixed with `> ` |
| `HugoConverter.IndentKeepsLines` | scripts/hugo_converter.py:188 | indenting keeps the lines, each prefixed with exactly four spaces |
| `HugoConverter.ListItemLayout` | scripts/hugo_converter.py:171-194 | prefix and text, then a newline and the children joined by newlines when any child converts; each child's lines are its own lines indented by four spaces |
| `HugoConverter.TableLayout` | scripts/hugo_converter.py:373-416 | `""` with no `table_row` child; otherwise the header row or a blank one, a separator with one `---` per cell of the first row, then the body rows |
| `HugoConverter.FenceTagLowerCase` | scripts/hugo_converter.py:202-208 | the fence tag is the lower-cased language, or `mermaid` for untagged Mermaid-like code; it holds no capital |
| `HugoConverter.CodeFenceLines` | scripts/hugo_converter.py:196-210 | the code block's lines are the opening fence with its tag, the code's own lines, and the closing fence |
| `HugoConverter.EquationDisplay` | scripts/hugo_converter.py:299-306 | empty exactly when the expression is; otherwise `$$`, the expression's lines, `$$` |
| `HugoConverter.ToggleHoldsChildren` | scripts/hugo_converter.py:308-323 | a `<details>` element whose summary is the text and whose body is exactly the children's document |
| `HugoConverter.CalloutLines` | scripts/hugo_converter.py:325-352 | the first line is `> ` with the icon; the rest are the lines of the text, then a blank line and the children's document when there is one, each prefixed with `> ` |
| `HugoConverter.BookmarkLink` | scripts/hugo_converter.py:354-371 | no URL gives `""`; otherwise a new-tab list link to the URL whose label, escaped, reads back as the caption or else the URL |
| `HugoConverter.LinkPreviewIsBareBookmark` | scripts/hugo_converter.py:549-556 | a link preview is the bookmark of its URL with no caption |
| `HugoConverter.YoutubeVideoMatchesEmbed` | scripts/hugo_converter.py:251-277 | an external YouTube video converts as the embed of the same URL does |
| `HugoConverter.XComEmbedTakenForTweet` | scripts/hugo_converter.py:523-531 | the tweet test is a substring test: any embed whose URL contains `x.com` and yields no tweet id converts to `""`, whatever site it is on |
| `HugoConverter.DropboxLinkContainsXCom` | scripts/hugo_converter.py:523 | a Dropbox link such as `https://www.dropbox.com/s/clip.mp4` contains `x.com` |
| `HugoConverter.ColumnPartsRaiseIff` | scripts/hugo_converter.py:418-481 | gathering the columns raises exactly when one of them is a column with an image to download |
| `HugoConverter.ColumnPartsShape` | scripts/hugo_converter.py:418-481 | at most one part per column, each a flex column around non-empty content |
| `HugoConverter.ImageColumnDropsList` | scripts/hugo_converter.py:418-481 | one such column makes the whole column list convert to `""` |
| `HugoConverter.AttachmentLinks` | scripts/hugo_converter.py:565-609 | PDF and file blocks are `""` exactly without a URL; with a caption they differ only in the icon; without one the file link names the URL's last segment |

## Left out

- HTTP: `requests` and `notion_client` calls are replaced by listings of pages, each a response or a failed request. `retry` is left out; it is inert because the body catches every exception.
- The file system: `open`, `json.load` and `json.dump`, `os.makedirs` and `os.path.exists` become a set of paths. File contents, chunking and directory creation are not modelled; the persisted cache is its snapshot. `save_cache`, which only writes that snapshot out, has nothing left to state and is not modelled.
- MD5 is an uninterpreted function. `fromisoformat`/`isoformat` become integer instants with an `Unparsable` value. Naive and aware datetimes are not distinguished, and `datetime.now()` is a parameter.
- `_optimize_image` is a no-op: it needs PIL and floating point, and its failures are swallowed.
- `Text.Lower`: only ASCII letters are lower-cased; Python's `str.lower` also folds other scripts.
- `Links.DigitRun`: `\d` is read as ASCII digits; Python's `\d` on `str` also matches other Unicode decimal digits.
- `HugoConverter.PyInt`: reads ASCII digits only. Python's `int()` also accepts other Unicode decimal digits (`int("٢")` is 2) and single underscores between digits, so such a heading level is dropped by the model and kept by the source.
- `Urls.UrlParse`: `urlsplit`'s `_checknetloc` is not modelled. It raises `ValueError` for a non-ASCII network location whose NFKC form holds one of `/?#@:` (`https://www.notion.so／T-<id>`, with a full-width slash, is one), and the model parses such a URL. Neither are the IPv6 checks beyond an unbalanced bracket. The sanitising of leading C0 controls and spaces and of tabs, carriage returns and line feeds is modelled, as in CPython 3.12.
- `Media.GenerateFilename`: names a file for a URL whose non-ASCII network location fails the NFKC check, where `_generate_filename` raises and `download_media` returns the URL; and the path is not `unquote`d, so a percent-escape in the base name or extension is kept as it is.
- `Links.RewriteNotionLink`: rewrites a link whose non-ASCII network location fails the NFKC check, where `urlparse` raises and the source returns the link unchanged. Like `urlsplit`, the model deletes tabs, carriage returns and line feeds from the fragment before stripping it, so `#a\tb` becomes `#ab`; the id match still sees the raw text before the `#`. The lemmas about known pages (`RewriteKnownPage`, `RewriteKnownPageFragment`, `RewriteKnownPageQuery`) are stated for an ASCII text before the id, where the check never applies.
- `NotionService.ParsedPage`: an absent, empty and `null` payload or property are one case. A property whose type is `null` is not distinguished from one of another type.
- The YouTube and tweet id extractors (scripts/hugo_converter.py:774-786 and the tweet pattern of `_convert_embed`) are parameters of the converter context.
- `NotionService.WrongTypeEntry`: a property whose `type` is JSON `null` is reported as `got unknown`; Python prints `got None`, because the key is present.
- `HugoConverter.CalloutIcon`: an emoji icon whose `emoji` is JSON `null` gives `💡`; Python gives `None`, which is formatted as the text `None`.
- `CacheManagement.MediaSection`: a `media` section that is JSON `null` is read as empty; in Python `None.get` raises `AttributeError`, which `download_media` catches and answers with the original URL.
- `RecursionError` on very deep block trees is not modelled.
- `should_update_post` is never called by the sync script; it is modelled on its own.
- `NotionService.NotionClient.GetPublishedPosts` assumes every page that announces more carries a cursor. Without one the source loops forever; `MissingCursorLoops` shows this for the block walk.
- The warning for several data sources is logging only and is not modelled.
- The first `_convert_image` (scripts/hugo_converter.py:226) is overridden by the second (483) and is not modelled.
- `_convert_child_page` reads a title it does not use; only its fixed output is modelled.
- `HugoConverter.RichTextToMarkdown`: that the markup of concatenated runs is the concatenation of their markups is not stated as a lemma.
- Paragraphs and the fixed-output types (divider, table of contents, synced, unsupported, child page, column) are modelled in the dispatcher but have no lemma of their own.
- The other steps of `test_connection` and `get_database_stats`, `NotionPost.content` (always `""`), `convert_post` with its YAML front matter and file writing, and `scripts/notion_sync.py` and `scripts/logging_utils.py` are not part of this model.
