/**
 * The Notion side of the synchroniser: the recursive, paginated retrieval of
 * a page's block tree, the paginated listing of published posts, the parsing
 * of a page into a post, the data-source lookup and the schema check.
 *
 * The remote workspace is a value. A paginated endpoint is a `Listing`: the
 * pages it hands out, in order, each either a response or a failed request.
 * A cursor is the index of the page it designates. A remote block carries the
 * listing of its own children, so the workspace is a finite tree.
 */
module NotionService {
  import opened Wrappers
  import opened Text
  import opened Blocks
  import opened CacheManagement

  // ---------------------------------------------------------------------
  // Paginated endpoints
  // ---------------------------------------------------------------------

  /** A `next_cursor`: the index of the page it designates. */
  type Cursor = nat

  /** One response: `results`, `has_more`, `next_cursor`; or a request that raised. */
  datatype Response<T> = Page(results: seq<T>, hasMore: bool, nextCursor: Option<Cursor>) | Failed

  datatype Listing<T> = Listing(pages: seq<Response<T>>)

  /** The answer to a request: no cursor asks for the first page; a cursor past the end is rejected. */
  function Request<T>(l: Listing<T>, cursor: Option<Cursor>): (r: Response<T>)
    ensures cursor.None? && |l.pages| > 0 ==> r == l.pages[0]
  {
    var i := cursor.GetOr(0);
    if i < |l.pages| then l.pages[i] else Failed
  }

  /** Every page that announces more carries the cursor of the page after it. */
  predicate Chained<T>(l: Listing<T>) {
    forall i | 0 <= i < |l.pages| :: l.pages[i].Page? && l.pages[i].hasMore ==> l.pages[i].nextCursor == Some(i + 1)
  }

  // ---------------------------------------------------------------------
  // The block tree
  // ---------------------------------------------------------------------

  /** A block as the server lists it, with the listing the server gives for its id. */
  datatype RemoteBlock = RemoteBlock(id: Option<string>, blockType: string, payload: Option<Payload>,
                                     hasChildren: bool, listing: Listing<RemoteBlock>)

  /** Every listed block's own listing is well chained, at every depth. */
  predicate ChildrenWellChained(l: Listing<RemoteBlock>)
    decreases l, 0
  {
    forall i, k | 0 <= i < |l.pages| && l.pages[i].Page? && 0 <= k < |l.pages[i].results| ::
      WellChained(l.pages[i].results[k].listing)
  }

  predicate WellChained(l: Listing<RemoteBlock>)
    decreases l, 1
  {
    Chained(l) && ChildrenWellChained(l)
  }

  /**
   * A listed block as it is collected: with a `children` list exactly when it
   * has children; a block without an id gets `[]` (the lookup raised `KeyError`).
   */
  function Populate(b: RemoteBlock): (r: Block)
    requires WellChained(b.listing)
    ensures r.id == b.id && r.blockType == b.blockType && r.payload == b.payload && r.hasChildren == b.hasChildren
    ensures r.children.Present? <==> b.hasChildren
    decreases b, 2
  {
    var children :=
      if !b.hasChildren then NoChildrenKey
      else if b.id.None? then Present([])
      else Present(Collect(b.listing, 0));
    Block(b.id, b.blockType, b.payload, b.hasChildren, children)
  }

  /** The blocks of one response, each populated, in order: a failing subtree never drops a sibling. */
  function Resolve(items: seq<RemoteBlock>): (r: seq<Block>)
    requires forall k | 0 <= k < |items| :: WellChained(items[k].listing)
    ensures |r| == |items|
    ensures forall k | 0 <= k < |items| :: r[k] == Populate(items[k])
    decreases items, 3
  {
    seq(|items|, k requires 0 <= k < |items| => Populate(items[k]))
  }

  /**
   * `fetch_children_recursively` from page `i` on: each page's blocks, then the
   * following pages while `has_more`; a failed request ends the walk with what
   * was collected.
   */
  function Collect(l: Listing<RemoteBlock>, i: nat): (r: seq<Block>)
    requires WellChained(l)
    ensures forall b | b in r :: b.children.Present? <==> b.hasChildren
    decreases l, 4, |l.pages| - i
  {
    if i >= |l.pages| || l.pages[i].Failed? then []
    else
      PageBlocksWellChained(l, i);
      Resolve(l.pages[i].results) + (if l.pages[i].hasMore then Collect(l, i + 1) else [])
  }

  lemma PageBlocksWellChained(l: Listing<RemoteBlock>, i: nat)
    requires ChildrenWellChained(l) && i < |l.pages| && l.pages[i].Page?
    ensures forall k | 0 <= k < |l.pages[i].results| :: WellChained(l.pages[i].results[k].listing)
  {
  }

  /** The blocks of pages `i` to `j - 1`, in page order. */
  function Gathered(l: Listing<RemoteBlock>, i: nat, j: nat): seq<Block>
    requires WellChained(l) && j <= |l.pages|
    requires forall m | i <= m < j :: l.pages[m].Page?
    decreases j - i
  {
    if i >= j then []
    else
      PageBlocksWellChained(l, i);
      Resolve(l.pages[i].results) + Gathered(l, i + 1, j)
  }

  /**
   * Items come back in source order across pages: while pages `i` to `j - 1`
   * answer and announce more, the walk from `i` is their blocks followed by the
   * walk from `j`.
   */
  lemma {:induction false} CollectInOrder(l: Listing<RemoteBlock>, i: nat, j: nat)
    requires WellChained(l) && i <= j <= |l.pages|
    requires forall m | i <= m < j :: l.pages[m].Page? && l.pages[m].hasMore
    ensures Collect(l, i) == Gathered(l, i, j) + Collect(l, j)
    decreases j - i
  {
    if i < j {
      CollectInOrder(l, i + 1, j);
      PageBlocksWellChained(l, i);
      CollectStep(l, i, j);
      Regroup(Resolve(l.pages[i].results), Gathered(l, i + 1, j), Collect(l, j),
              Collect(l, i), Collect(l, i + 1), Gathered(l, i, j));
    }
  }

  /** One step of the walk: a page that answers and announces more contributes its blocks, then the walk goes on. */
  lemma CollectStep(l: Listing<RemoteBlock>, i: nat, j: nat)
    requires WellChained(l) && i < j <= |l.pages|
    requires forall m | i <= m < j :: l.pages[m].Page? && l.pages[m].hasMore
    requires forall k | 0 <= k < |l.pages[i].results| :: WellChained(l.pages[i].results[k].listing)
    ensures Collect(l, i) == Resolve(l.pages[i].results) + Collect(l, i + 1)
    ensures Gathered(l, i, j) == Resolve(l.pages[i].results) + Gathered(l, i + 1, j)
  {
  }

  lemma Regroup<T>(here: seq<T>, rest: seq<T>, tail: seq<T>, from: seq<T>, after: seq<T>, pages: seq<T>)
    requires from == here + after && after == rest + tail && pages == here + rest
    ensures from == pages + tail
  {
  }

  /** A request that fails at page `j` leaves exactly the blocks of the pages before it. */
  lemma FailureKeepsPrefix(l: Listing<RemoteBlock>, j: nat)
    requires WellChained(l) && j <= |l.pages|
    requires forall m | 0 <= m < j :: l.pages[m].Page? && l.pages[m].hasMore
    requires j == |l.pages| || l.pages[j].Failed?
    ensures Collect(l, 0) == Gathered(l, 0, j)
  {
    CollectInOrder(l, 0, j);
  }

  /** When every page answers and the last one announces no more, all items come back, page after page. */
  lemma {:induction false} CompleteWalk(l: Listing<RemoteBlock>, i: nat)
    requires WellChained(l) && i < |l.pages|
    requires forall m | i <= m < |l.pages| :: l.pages[m].Page?
    requires forall m | i <= m < |l.pages| - 1 :: l.pages[m].hasMore
    requires !l.pages[|l.pages| - 1].hasMore
    ensures Collect(l, i) == Gathered(l, i, |l.pages|)
    decreases |l.pages| - i
  {
    PageBlocksWellChained(l, i);
    var here := Resolve(l.pages[i].results);
    if i + 1 < |l.pages| {
      CompleteWalk(l, i + 1);
      assert Gathered(l, i, |l.pages|) == here + Gathered(l, i + 1, |l.pages|);
    } else {
      assert Gathered(l, i + 1, |l.pages|) == [];
      assert Gathered(l, i, |l.pages|) == here + [];
    }
  }

  /** A block whose subtree cannot be fetched at all still comes back, with `children == []`. */
  lemma SubtreeFailureIsolated(b: RemoteBlock)
    requires WellChained(b.listing) && b.hasChildren
    requires b.listing.pages == [] || b.listing.pages[0].Failed?
    ensures Populate(b).children == Present([])
  {
  }

  /**
   * `fetch_children_recursively`: the loop over pages and, inside it, the loop
   * over the blocks of a page, recursing into every block with children.
   */
  method FetchChildren(l: Listing<RemoteBlock>) returns (collected: seq<Block>)
    requires WellChained(l)
    ensures collected == Collect(l, 0)
    decreases l
  {
    collected := [];
    var hasMore := true;
    var cursor: Option<Cursor> := None;
    ghost var next: nat := 0;
    while hasMore
      invariant next <= |l.pages|
      invariant hasMore ==> cursor.GetOr(0) == next && collected + Collect(l, next) == Collect(l, 0)
      invariant !hasMore ==> collected == Collect(l, 0)
      decreases |l.pages| - next, hasMore
    {
      var resp := Request(l, cursor);
      if resp.Failed? {
        CollectEnds(l, next, collected);
        break;
      }
      assert resp == l.pages[next];
      PageBlocksWellChained(l, next);
      var blocks := FetchPage(resp.results);
      CollectAdvance(l, next, collected, blocks);
      assert resp.hasMore ==> resp.nextCursor == Some(next + 1);
      collected := collected + blocks;
      hasMore := resp.hasMore;
      cursor := resp.nextCursor;
      next := next + 1;
    }
  }

  /**
   * One page of the walk: when what was collected, followed by the walk from
   * page `i`, is the whole walk, adding page `i`'s blocks keeps it so.
   */
  lemma CollectAdvance(l: Listing<RemoteBlock>, i: nat, collected: seq<Block>, blocks: seq<Block>)
    requires WellChained(l) && i < |l.pages| && l.pages[i].Page?
    requires forall k | 0 <= k < |l.pages[i].results| :: WellChained(l.pages[i].results[k].listing)
    requires blocks == Resolve(l.pages[i].results)
    requires collected + Collect(l, i) == Collect(l, 0)
    ensures l.pages[i].hasMore ==> (collected + blocks) + Collect(l, i + 1) == Collect(l, 0)
    ensures !l.pages[i].hasMore ==> collected + blocks == Collect(l, 0)
  {
    var after := if l.pages[i].hasMore then Collect(l, i + 1) else [];
    assert Collect(l, i) == blocks + after;
    Reassociate(collected, blocks, after);
    if !l.pages[i].hasMore {
      assert (collected + blocks) + [] == collected + blocks;
    }
  }

  /** A walk that reaches the end of the listing or a failed request has nothing more to add. */
  lemma CollectEnds(l: Listing<RemoteBlock>, i: nat, collected: seq<Block>)
    requires WellChained(l) && (i >= |l.pages| || l.pages[i].Failed?)
    requires collected + Collect(l, i) == Collect(l, 0)
    ensures collected == Collect(l, 0)
  {
    assert Collect(l, i) == [];
    assert collected + [] == collected;
  }

  /** The blocks of one response, in order, each with its subtree. */
  method FetchPage(items: seq<RemoteBlock>) returns (blocks: seq<Block>)
    requires forall k | 0 <= k < |items| :: WellChained(items[k].listing)
    ensures blocks == Resolve(items)
    decreases items
  {
    blocks := [];
    var k := 0;
    while k < |items|
      invariant 0 <= k <= |items|
      invariant blocks == Resolve(items)[..k]
    {
      var b := FetchBlock(items[k]);
      assert Resolve(items)[..k + 1] == Resolve(items)[..k] + [b];
      blocks := blocks + [b];
      k := k + 1;
    }
    assert Resolve(items)[..k] == Resolve(items);
  }

  /** One listed block, with its children fetched when it has any. */
  method FetchBlock(item: RemoteBlock) returns (b: Block)
    requires WellChained(item.listing)
    ensures b == Populate(item)
    decreases item
  {
    var children: ChildrenField := NoChildrenKey;
    if item.hasChildren {
      if item.id.None? {
        children := Present([]);
      } else {
        var sub := FetchChildren(item.listing);
        children := Present(sub);
      }
    }
    b := Block(item.id, item.blockType, item.payload, item.hasChildren, children);
  }

  /** `_get_page_blocks`: the page is the container of its top-level blocks. */
  method GetPageBlocks(content: Listing<RemoteBlock>) returns (blocks: seq<Block>)
    requires WellChained(content)
    ensures blocks == Collect(content, 0)
    ensures forall b | b in blocks :: b.children.Present? <==> b.hasChildren
  {
    blocks := FetchChildren(content);
  }

  // ---------------------------------------------------------------------
  // A missing cursor
  // ---------------------------------------------------------------------

  /** The variables of the page loop: `local_has_more`, `local_cursor` and the blocks collected. */
  datatype Walk = Walk(hasMore: bool, cursor: Option<Cursor>, collected: seq<Block>)

  /** One pass of the page loop, for any listing. */
  function WalkStep(l: Listing<RemoteBlock>, w: Walk): (r: Walk)
    requires ChildrenWellChained(l)
    ensures !w.hasMore ==> r == w
  {
    if !w.hasMore then w
    else
      var resp := Request(l, w.cursor);
      if resp.Failed? then w.(hasMore := false)
      else
        assert forall k | 0 <= k < |resp.results| :: WellChained(resp.results[k].listing);
        Walk(resp.hasMore, resp.nextCursor, w.collected + Resolve(resp.results))
  }

  function Walks(l: Listing<RemoteBlock>, w: Walk, n: nat): Walk
    requires ChildrenWellChained(l)
  {
    if n == 0 then w else WalkStep(l, Walks(l, w, n - 1))
  }

  /**
   * On a well-chained listing the page loop follows `Collect`: while it runs it
   * has taken the first `n` pages and its cursor designates page `n`; once it
   * stops it holds everything the walk collects.
   */
  lemma {:induction false} WalkInvariant(l: Listing<RemoteBlock>, n: nat)
    requires WellChained(l)
    ensures var w := Walks(l, Walk(true, None, []), n);
            && (w.hasMore ==> n <= |l.pages| && w.cursor.GetOr(0) == n && w.collected + Collect(l, n) == Collect(l, 0))
            && (!w.hasMore ==> w.collected == Collect(l, 0))
  {
    if n > 0 {
      WalkInvariant(l, n - 1);
      var before := Walks(l, Walk(true, None, []), n - 1);
      if before.hasMore {
        var resp := Request(l, before.cursor);
        if resp.Failed? {
          CollectEnds(l, n - 1, before.collected);
        } else {
          assert resp == l.pages[n - 1];
          PageBlocksWellChained(l, n - 1);
          CollectAdvance(l, n - 1, before.collected, Resolve(resp.results));
        }
      }
    }
  }

  /** The loop ends within one pass more than there are pages, holding what `Collect` describes. */
  lemma WalksReachCollect(l: Listing<RemoteBlock>)
    requires WellChained(l)
    ensures var w := Walks(l, Walk(true, None, []), |l.pages| + 1);
            !w.hasMore && w.collected == Collect(l, 0)
  {
    WalkInvariant(l, |l.pages| + 1);
  }

  function Repeat(s: seq<Block>, n: nat): (r: seq<Block>)
    ensures |r| == n * |s|
  {
    if n == 0 then [] else Repeat(s, n - 1) + s
  }

  /**
   * A first page that announces more but carries no `next_cursor` sends the loop
   * back to the first page: after any number of passes it is still running, with
   * no cursor, having collected that page's blocks once per pass.
   */
  lemma {:induction false} MissingCursorLoops(l: Listing<RemoteBlock>, n: nat)
    requires ChildrenWellChained(l) && |l.pages| > 0
    requires l.pages[0].Page? && l.pages[0].hasMore && l.pages[0].nextCursor.None?
    ensures Walks(l, Walk(true, None, []), n) == Walk(true, None, Repeat(Resolve(l.pages[0].results), n))
  {
    assert forall k | 0 <= k < |l.pages[0].results| :: WellChained(l.pages[0].results[k].listing);
    if n > 0 {
      MissingCursorLoops(l, n - 1);
    }
  }

  // ---------------------------------------------------------------------
  // Pages of the database and the posts parsed from them
  // ---------------------------------------------------------------------

  /** A page property, by its type; the value the parser reads from it. */
  datatype PropValue =
    | TitleProp(titleTexts: seq<string>)        // `plain_text` of each title run
    | RichTextProp(texts: seq<string>)          // `plain_text` of each rich-text run
    | DateProp(date: Option<Stamp>)             // `date.start`; `None` for a `null` date
    | MultiSelectProp(names: seq<string>)       // `name` of each option, in order
    | CheckboxProp(checked: bool)
    | OtherProp(typeName: string)

  /** A truthy `cover` object: external or uploaded, another type, or missing a key the parser reads. */
  datatype Cover = ExternalCover(url: string) | FileCover(url: string) | OtherCover | MalformedCover

  /** A database page: keys the parser needs may be missing (`None`). */
  datatype RemotePage = RemotePage(id: Option<string>, properties: Option<map<string, PropValue>>,
                                   cover: Option<Cover>, lastEditedTime: Option<Stamp>,
                                   content: Listing<RemoteBlock>)

  /** `NotionPost` once parsed. Timestamps are instants. */
  datatype NotionPost = NotionPost(id: string, title: string, slug: string, date: int, tags: seq<string>,
                                   lastEdited: int, coverImage: Option<string>, blocks: seq<Block>)

  /** `Title`: the first run's text, `"Untitled"` when absent or empty; `None` when it is not a title. */
  function TitleField(props: map<string, PropValue>): (r: Option<string>)
    ensures "Title" !in props ==> r == Some("Untitled")
  {
    if "Title" !in props then Some("Untitled")
    else match props["Title"]
      case TitleProp(ts) => Some(if ts != [] then ts[0] else "Untitled")
      case _ => None
  }

  /** `Slug`: the first run's text, else the id without hyphens; `None` when it is not rich text. */
  function SlugField(props: map<string, PropValue>, id: string): (r: Option<string>)
    ensures "Slug" !in props ==> r == Some(RemoveChar(id, '-'))
  {
    if "Slug" !in props then Some(RemoveChar(id, '-'))
    else match props["Slug"]
      case RichTextProp(ts) => Some(if ts != [] then ts[0] else RemoveChar(id, '-'))
      case _ => None
  }

  /** `Date`: its start, `now` when absent or empty; `None` when unparsable or not a date. */
  function DateField(props: map<string, PropValue>, now: int): (r: Option<int>)
    ensures "Date" !in props ==> r == Some(now)
  {
    if "Date" !in props then Some(now)
    else match props["Date"]
      case DateProp(None) => Some(now)
      case DateProp(Some(Iso(t))) => Some(t)
      case _ => None
  }

  /** `Tags`: the option names in order, `[]` when absent; `None` when not a multi-select. */
  function TagsField(props: map<string, PropValue>): (r: Option<seq<string>>)
    ensures "Tags" !in props ==> r == Some([])
  {
    if "Tags" !in props then Some([])
    else match props["Tags"]
      case MultiSelectProp(names) => Some(names)
      case _ => None
  }

  /** The cover's URL for an external or uploaded cover; `None` when reading the cover raises. */
  function CoverField(cover: Option<Cover>): (r: Option<Option<string>>)
    ensures cover.None? ==> r == Some(None)
  {
    match cover
    case None => Some(None)
    case Some(ExternalCover(u)) => Some(Some(u))
    case Some(FileCover(u)) => Some(Some(u))
    case Some(OtherCover) => Some(None)
    case Some(MalformedCover) => None
  }

  /** `_parse_page`: `None` exactly when one of the reads raises. */
  function ParsedPage(page: RemotePage, now: int): (r: Option<NotionPost>)
    requires WellChained(page.content)
    ensures r.Some? <==>
      && page.id.Some? && page.properties.Some?
      && TitleField(page.properties.value).Some?
      && SlugField(page.properties.value, page.id.value).Some?
      && DateField(page.properties.value, now).Some?
      && TagsField(page.properties.value).Some?
      && CoverField(page.cover).Some?
      && page.lastEditedTime.Some? && page.lastEditedTime.value.Iso?
    ensures r.Some? ==> r.value.id == page.id.value && r.value.blocks == Collect(page.content, 0)
  {
    if page.id.None? || page.properties.None? then None
    else
      var props := page.properties.value;
      var title := TitleField(props);
      var slug := SlugField(props, page.id.value);
      var date := DateField(props, now);
      var tags := TagsField(props);
      var cover := CoverField(page.cover);
      if title.None? || slug.None? || date.None? || tags.None? || cover.None? then None
      else match page.lastEditedTime
        case Some(Iso(edited)) =>
          Some(NotionPost(page.id.value, title.value, slug.value, date.value, tags.value,
                          edited, cover.value, Collect(page.content, 0)))
        case _ => None
  }

  /** The defaults of a parsed post: title, hyphen-free slug, tags in their order. */
  lemma ParseDefaults(page: RemotePage, now: int)
    requires WellChained(page.content)
    requires ParsedPage(page, now).Some?
    ensures var post := ParsedPage(page, now).value;
            var props := page.properties.value;
            && ("Title" !in props || props["Title"].titleTexts == [] ==> post.title == "Untitled")
            && ("Slug" !in props || props["Slug"].texts == [] ==> post.slug == RemoveChar(page.id.value, '-') && '-' !in post.slug)
            && ("Tags" in props ==> post.tags == props["Tags"].names)
            && ("Tags" !in props ==> post.tags == [])
            && ("Date" !in props ==> post.date == now)
  {
  }

  /**
   * `_parse_page`, step by step: each field is read in the source's order and a
   * read that raises ends the parse with `None`.
   */
  method ParsePage(page: RemotePage, now: int) returns (post: Option<NotionPost>)
    requires WellChained(page.content)
    ensures post == ParsedPage(page, now)
  {
    if page.id.None? || page.properties.None? {
      return None;
    }
    var id := page.id.value;
    var props := page.properties.value;
    var title := TitleField(props);
    if title.None? { return None; }
    var slug := SlugField(props, id);
    if slug.None? { return None; }
    var date := DateField(props, now);
    if date.None? { return None; }
    var tags := TagsField(props);
    if tags.None? { return None; }
    var cover := CoverField(page.cover);
    if cover.None? { return None; }
    if page.lastEditedTime.None? || page.lastEditedTime.value.Unparsable? {
      return None;
    }
    var edited := page.lastEditedTime.value.instant;
    var blocks := GetPageBlocks(page.content);
    post := Some(NotionPost(id, title.value, slug.value, date.value, tags.value, edited, cover.value, blocks));
  }

  /** Every page's content is well chained. */
  predicate PagesWellChained(l: Listing<RemotePage>) {
    forall i, k | 0 <= i < |l.pages| && l.pages[i].Page? && 0 <= k < |l.pages[i].results| ::
      WellChained(l.pages[i].results[k].content)
  }

  lemma PageContentsWellChained(l: Listing<RemotePage>, i: nat)
    requires PagesWellChained(l) && i < |l.pages| && l.pages[i].Page?
    ensures forall k | 0 <= k < |l.pages[i].results| :: WellChained(l.pages[i].results[k].content)
  {
  }

  /** The posts parsed from a response's pages, in order, skipping pages that do not parse. */
  function ParsedAll(pages: seq<RemotePage>, now: int): (r: seq<NotionPost>)
    requires forall k | 0 <= k < |pages| :: WellChained(pages[k].content)
    ensures |r| <= |pages|
  {
    if pages == [] then []
    else
      var first := ParsedPage(pages[0], now);
      (if first.Some? then [first.value] else []) + ParsedAll(pages[1..], now)
  }

  /** A post comes from the response exactly when some page of it parses to that post. */
  lemma {:induction false} ParsedAllMembers(pages: seq<RemotePage>, now: int, p: NotionPost)
    requires forall k | 0 <= k < |pages| :: WellChained(pages[k].content)
    ensures p in ParsedAll(pages, now) <==> exists k | 0 <= k < |pages| :: ParsedPage(pages[k], now) == Some(p)
  {
    if pages != [] {
      ParsedAllMembers(pages[1..], now, p);
      if exists k | 0 <= k < |pages| :: ParsedPage(pages[k], now) == Some(p) {
        var k :| 0 <= k < |pages| && ParsedPage(pages[k], now) == Some(p);
        if k > 0 {
          assert ParsedPage(pages[1..][k - 1], now) == Some(p);
        }
      }
      if p in ParsedAll(pages[1..], now) {
        var k :| 0 <= k < |pages[1..]| && ParsedPage(pages[1..][k], now) == Some(p);
        assert ParsedPage(pages[k + 1], now) == Some(p);
      }
    }
  }

  /**
   * The posts of the query from page `i` on; `None` when a request fails (the
   * exception is caught by `get_published_posts`, which then returns `[]`).
   */
  function Published(l: Listing<RemotePage>, i: nat, now: int): (r: Option<seq<NotionPost>>)
    requires Chained(l) && PagesWellChained(l)
    decreases |l.pages| - i
  {
    if i >= |l.pages| then None
    else match l.pages[i]
      case Failed => None
      case Page(results, hasMore, _) =>
        PageContentsWellChained(l, i);
        var here := ParsedAll(results, now);
        if !hasMore then Some(here)
        else match Published(l, i + 1, now)
          case Some(rest) => Some(here + rest)
          case None => None
  }

  /** The posts of pages `i` to `j - 1`. */
  function PostsOfPages(l: Listing<RemotePage>, i: nat, j: nat, now: int): seq<NotionPost>
    requires PagesWellChained(l) && j <= |l.pages|
    requires forall m | i <= m < j :: l.pages[m].Page?
    decreases j - i
  {
    if i >= j then []
    else
      PageContentsWellChained(l, i);
      ParsedAll(l.pages[i].results, now) + PostsOfPages(l, i + 1, j, now)
  }

  /**
   * `get_published_posts` concatenates the parsed posts of all pages in order
   * when every request succeeds, and yields nothing as soon as one fails.
   */
  lemma {:induction false} PublishedConcatenates(l: Listing<RemotePage>, i: nat, now: int)
    requires Chained(l) && PagesWellChained(l) && i < |l.pages|
    requires forall m | i <= m < |l.pages| :: l.pages[m].Page?
    requires forall m | i <= m < |l.pages| - 1 :: l.pages[m].hasMore
    requires !l.pages[|l.pages| - 1].hasMore
    ensures Published(l, i, now) == Some(PostsOfPages(l, i, |l.pages|, now))
    decreases |l.pages| - i
  {
    PageContentsWellChained(l, i);
    var here := ParsedAll(l.pages[i].results, now);
    if i + 1 < |l.pages| {
      PublishedConcatenates(l, i + 1, now);
      assert l.pages[i].hasMore;
      assert Published(l, i, now) == Some(here + PostsOfPages(l, i + 1, |l.pages|, now));
      assert PostsOfPages(l, i, |l.pages|, now) == here + PostsOfPages(l, i + 1, |l.pages|, now);
    } else {
      assert !l.pages[i].hasMore;
      assert Published(l, i, now) == Some(here);
      assert PostsOfPages(l, i + 1, |l.pages|, now) == [];
      assert PostsOfPages(l, i, |l.pages|, now) == here + [];
      assert here + [] == here;
    }
  }

  /** One failed request anywhere along the chain makes the whole listing fail. */
  lemma {:induction false} PublishedFailure(l: Listing<RemotePage>, i: nat, j: nat, now: int)
    requires Chained(l) && PagesWellChained(l) && i <= j < |l.pages|
    requires forall m | i <= m < j :: l.pages[m].Page? && l.pages[m].hasMore
    requires l.pages[j].Failed?
    ensures Published(l, i, now) == None
    decreases j - i
  {
    if i < j {
      PublishedFailure(l, i + 1, j, now);
    }
  }

  // ---------------------------------------------------------------------
  // The client: data-source lookup and post listing
  // ---------------------------------------------------------------------

  /** What `_fetch_database_latest` returns: the `id` of each data source (`None` if the key is missing). */
  datatype DatabaseObject = DatabaseObject(dataSources: seq<Option<string>>)

  datatype ServiceError = RequestFailed | NoDataSources | MissingId

  /**
   * `_ensure_data_source_id` as a transition: the answer, and the cached id
   * afterwards. `database` is `None` when the request raised.
   */
  function ResolveDataSource(cached: Option<string>, database: Option<DatabaseObject>): (r: (Result<string, ServiceError>, Option<string>))
    ensures cached.Some? && cached.value != [] ==> r == (Ok(cached.value), cached)
    ensures r.0.Err? ==> r.1 == cached
    ensures r.0.Ok? ==> r.1 == Some(r.0.value)
    ensures (cached.None? || cached.value == []) && database.None? ==> r == (Err(RequestFailed), cached)
    ensures (cached.None? || cached.value == []) && database.Some? && database.value.dataSources == [] ==>
              r == (Err(NoDataSources), cached)
    ensures (cached.None? || cached.value == []) && database.Some? && database.value.dataSources != [] ==>
              match database.value.dataSources[0]
              case None => r == (Err(MissingId), cached)
              case Some(id) => r == (Ok(id), Some(id))
  {
    if cached.Some? && cached.value != [] then (Ok(cached.value), cached)
    else if database.None? then (Err(RequestFailed), cached)
    else if database.value.dataSources == [] then (Err(NoDataSources), cached)
    else match database.value.dataSources[0]
      case None => (Err(MissingId), cached)
      case Some(id) => (Ok(id), Some(id))
  }

  /** Asking again after a successful lookup gives the same answer and leaves the same cache. */
  lemma ResolveIsStable(cached: Option<string>, database: Option<DatabaseObject>)
    ensures var (r, c) := ResolveDataSource(cached, database);
            r.Ok? ==> ResolveDataSource(c, database) == (r, c)
  {
  }

  /** The first data source wins, and once cached it is returned without consulting the database. */
  lemma FirstDataSourceWins(cached: Option<string>, database: Option<DatabaseObject>, later: Option<DatabaseObject>)
    requires cached.None? && database.Some? && |database.value.dataSources| > 0
    requires database.value.dataSources[0].Some? && database.value.dataSources[0].value != []
    ensures var (r, c) := ResolveDataSource(cached, database);
            && r == Ok(database.value.dataSources[0].value)
            && ResolveDataSource(c, later) == (r, c)
  {
  }

  class NotionClient {
    /** `_data_source_id` */
    var dataSourceId: Option<string>

    constructor ()
      ensures dataSourceId == None
    {
      dataSourceId := None;
    }

    /** `_ensure_data_source_id` */
    method EnsureDataSourceId(database: Option<DatabaseObject>) returns (r: Result<string, ServiceError>)
      modifies this
      ensures (r, dataSourceId) == ResolveDataSource(old(dataSourceId), database)
    {
      if dataSourceId.Some? && dataSourceId.value != [] {
        return Ok(dataSourceId.value);
      }
      if database.None? {
        return Err(RequestFailed);
      }
      var sources := database.value.dataSources;
      if sources == [] {
        return Err(NoDataSources);
      }
      if sources[0].None? {
        return Err(MissingId);
      }
      dataSourceId := sources[0];
      r := Ok(sources[0].value);
    }

    /**
     * `get_published_posts`: query page after page, keeping the pages that parse;
     * any exception (the data-source lookup or a query) gives `[]`.
     */
    method GetPublishedPosts(database: Option<DatabaseObject>, query: Listing<RemotePage>, now: int)
      returns (posts: seq<NotionPost>)
      requires Chained(query) && PagesWellChained(query)
      modifies this
      ensures dataSourceId == ResolveDataSource(old(dataSourceId), database).1
      ensures ResolveDataSource(old(dataSourceId), database).0.Err? ==> posts == []
      ensures ResolveDataSource(old(dataSourceId), database).0.Ok? ==>
                posts == Published(query, 0, now).GetOr([])
    {
      ghost var resolved := ResolveDataSource(dataSourceId, database);
      posts := [];
      var cursor: Option<Cursor> := None;
      ghost var next: nat := 0;
      assert posts + Published(query, next, now).GetOr([]) == Published(query, next, now).GetOr([]);
      while true
        invariant next <= |query.pages|
        invariant cursor.GetOr(0) == next
        invariant next > 0 ==> resolved.0.Ok? && dataSourceId == resolved.1
        invariant next == 0 ==> dataSourceId == old(dataSourceId)
        invariant Published(query, next, now).Some? ==> Published(query, 0, now) == Some(posts + Published(query, next, now).value)
        invariant Published(query, next, now).None? ==> Published(query, 0, now).None?
        decreases |query.pages| - next
      {
        ResolveIsStable(old(dataSourceId), database);
        var source := EnsureDataSourceId(database);
        if source.Err? {
          return [];
        }
        var response := Request(query, cursor);
        if response.Failed? {
          assert Published(query, next, now).None?;
          return [];
        }
        assert response == query.pages[next];
        PageContentsWellChained(query, next);
        var parsed := ParsePages(response.results, now);
        ghost var before := posts;
        posts := posts + parsed;
        assert Published(query, next, now) ==
          if response.hasMore then (if Published(query, next + 1, now).Some? then Some(parsed + Published(query, next + 1, now).value) else None)
          else Some(parsed);
        if response.hasMore {
          if Published(query, next + 1, now).Some? {
            var rest := Published(query, next + 1, now).value;
            assert before + (parsed + rest) == posts + rest;
          }
          cursor := response.nextCursor;
          next := next + 1;
        } else {
          return;
        }
      }
    }
  }

  /** `_parse_page` over the pages of one response, keeping those that parse. */
  method ParsePages(pages: seq<RemotePage>, now: int) returns (posts: seq<NotionPost>)
    requires forall k | 0 <= k < |pages| :: WellChained(pages[k].content)
    ensures posts == ParsedAll(pages, now)
  {
    posts := [];
    var k := 0;
    while k < |pages|
      invariant 0 <= k <= |pages|
      invariant posts == ParsedAll(pages[..k], now)
    {
      var post := ParsePage(pages[k], now);
      ParsedAllSnoc(pages[..k + 1], now);
      assert pages[..k + 1][..k] == pages[..k];
      if post.Some? {
        posts := posts + [post.value];
      }
      k := k + 1;
    }
    assert pages[..k] == pages;
  }

  /** Parsing one more page appends its post, if it parses. */
  lemma {:induction false} ParsedAllSnoc(pages: seq<RemotePage>, now: int)
    requires |pages| > 0
    requires forall k | 0 <= k < |pages| :: WellChained(pages[k].content)
    ensures var last := ParsedPage(pages[|pages| - 1], now);
            ParsedAll(pages, now) == ParsedAll(pages[..|pages| - 1], now) + (if last.Some? then [last.value] else [])
  {
    if |pages| > 1 {
      ParsedAllSnoc(pages[1..], now);
      assert pages[1..][..|pages[1..]| - 1] == pages[..|pages| - 1][1..];
      assert pages[1..][|pages[1..]| - 1] == pages[|pages| - 1];
    }
  }

  // ---------------------------------------------------------------------
  // Schema check of `test_connection`
  // ---------------------------------------------------------------------

  /** The properties a blog database needs, with their types, in declaration order. */
  const RequiredProperties: seq<(string, string)> :=
    [("Title", "title"), ("Published", "checkbox"), ("Date", "date"), ("Slug", "rich_text"), ("Tags", "multi_select")]

  /** The required names absent from the schema, in declaration order. */
  function Missing(schema: map<string, Option<string>>, required: seq<(string, string)>): (r: seq<string>)
  {
    if required == [] then []
    else
      var last := required[|required| - 1];
      Missing(schema, required[..|required| - 1]) + (if last.0 !in schema then [last.0] else [])
  }

  /** A name is reported missing exactly when it is required and absent from the schema. */
  lemma {:induction false} MissingMembers(schema: map<string, Option<string>>, required: seq<(string, string)>, n: string)
    ensures n in Missing(schema, required) <==> n !in schema && exists k | 0 <= k < |required| :: required[k].0 == n
  {
    if required != [] {
      var init := required[..|required| - 1];
      MissingMembers(schema, init, n);
      if exists k | 0 <= k < |required| :: required[k].0 == n {
        var k :| 0 <= k < |required| && required[k].0 == n;
        if k < |init| {
          assert init[k].0 == n;
        }
      }
      if exists k | 0 <= k < |init| :: init[k].0 == n {
        var k :| 0 <= k < |init| && init[k].0 == n;
        assert required[k].0 == n;
      }
    }
  }

  /** `"<name> (expected <type>, got <actual>)"` */
  function WrongTypeEntry(name: string, expected: string, actual: Option<string>): string {
    name + " (expected " + expected + ", got " + actual.GetOr("unknown") + ")"
  }

  /** The required names present with another type (or none), in declaration order. */
  function WrongTypes(schema: map<string, Option<string>>, required: seq<(string, string)>): (r: seq<string>)
  {
    if required == [] then []
    else
      var (name, expected) := required[|required| - 1];
      WrongTypes(schema, required[..|required| - 1])
      + (if name in schema && schema[name] != Some(expected) then [WrongTypeEntry(name, expected, schema[name])] else [])
  }

  /** `x` is the line reported for the required property `req`: present, with another type or none. */
  predicate ReportedWrong(schema: map<string, Option<string>>, req: (string, string), x: string) {
    req.0 in schema && schema[req.0] != Some(req.1) && x == WrongTypeEntry(req.0, req.1, schema[req.0])
  }

  /** A line is in the wrong-type list exactly when some required property present with another type reports it. */
  lemma {:induction false} WrongTypesMembers(schema: map<string, Option<string>>, required: seq<(string, string)>, x: string)
    ensures x in WrongTypes(schema, required) <==> exists k | 0 <= k < |required| :: ReportedWrong(schema, required[k], x)
  {
    if required != [] {
      var init := required[..|required| - 1];
      WrongTypesMembers(schema, init, x);
      if exists k | 0 <= k < |required| :: ReportedWrong(schema, required[k], x) {
        var k :| 0 <= k < |required| && ReportedWrong(schema, required[k], x);
        if k < |init| {
          assert init[k] == required[k];
        }
      }
      if exists k | 0 <= k < |init| :: ReportedWrong(schema, init[k], x) {
        var k :| 0 <= k < |init| && ReportedWrong(schema, init[k], x);
        assert required[k] == init[k];
      }
    }
  }

  /** How many required properties are present with the expected type. */
  function CountRight(schema: map<string, Option<string>>, required: seq<(string, string)>): (n: nat)
    ensures n <= |required|
  {
    if required == [] then 0
    else
      var (name, expected) := required[|required| - 1];
      CountRight(schema, required[..|required| - 1]) + (if name in schema && schema[name] == Some(expected) then 1 else 0)
  }

  /** Each required property is missing, of the wrong type, or as required: exactly one of these. */
  lemma {:induction false} ClassificationIsExclusive(schema: map<string, Option<string>>, required: seq<(string, string)>)
    ensures |Missing(schema, required)| + |WrongTypes(schema, required)| + CountRight(schema, required) == |required|
  {
    if required != [] {
      ClassificationIsExclusive(schema, required[..|required| - 1]);
    }
  }

  /** The warnings `test_connection` adds: one line per non-empty list. */
  function SchemaWarnings(missing: seq<string>, wrongTypes: seq<string>): (w: seq<string>)
    ensures |w| == (if missing != [] then 1 else 0) + (if wrongTypes != [] then 1 else 0)
    ensures missing != [] ==> w[0] == "Missing properties: " + Join(", ", missing)
    ensures wrongTypes != [] ==> w[|w| - 1] == "Wrong property types: " + Join(", ", wrongTypes)
  {
    (if missing != [] then ["Missing properties: " + Join(", ", missing)] else [])
    + (if wrongTypes != [] then ["Wrong property types: " + Join(", ", wrongTypes)] else [])
  }

  /**
   * The property check of `test_connection`: walk the required properties in
   * order, appending each to the missing or the wrong-type list.
   * `schema` maps each property name to its `type` (`None` if it has none).
   */
  method CheckRequiredProperties(schema: map<string, Option<string>>)
    returns (missing: seq<string>, wrongTypes: seq<string>, warnings: seq<string>)
    ensures missing == Missing(schema, RequiredProperties)
    ensures wrongTypes == WrongTypes(schema, RequiredProperties)
    ensures warnings == SchemaWarnings(missing, wrongTypes)
  {
    missing, wrongTypes := [], [];
    for i := 0 to |RequiredProperties|
      invariant missing == Missing(schema, RequiredProperties[..i])
      invariant wrongTypes == WrongTypes(schema, RequiredProperties[..i])
    {
      var (name, expected) := RequiredProperties[i];
      assert RequiredProperties[..i + 1][..i] == RequiredProperties[..i];
      if name !in schema {
        missing := missing + [name];
      } else if schema[name] != Some(expected) {
        wrongTypes := wrongTypes + [WrongTypeEntry(name, expected, schema[name])];
      }
    }
    assert RequiredProperties[..|RequiredProperties|] == RequiredProperties;
    warnings := SchemaWarnings(missing, wrongTypes);
  }
}
