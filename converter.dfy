/**
 * `HugoConverter`: Notion blocks to Hugo Markdown. Every converter is a
 * function of the block; a converter that raises returns `Err`, which
 * `_convert_block` turns into `""`. The loops of `_rich_text_to_markdown`,
 * `_blocks_to_markdown`, `_convert_list_item` and `_convert_table` are
 * methods proved equal to those functions.
 */
module HugoConverter {
  import opened Wrappers
  import opened Text
  import opened Blocks
  import opened Html
  import opened Links

  /** The exceptions the converters can raise. */
  datatype ConvertError = TypeError | ValueError

  /**
   * What the converter reads besides the blocks: the id→slug map set by
   * `set_id_to_slug_mapping`, and the YouTube and tweet id extractors, which
   * stay abstract.
   */
  datatype Context = Context(idToSlug: map<string, string>,
                             youtubeId: string -> string,
                             tweetId: string -> Option<string>)

  // ---------------------------------------------------------------------
  // Rich text
  // ---------------------------------------------------------------------

  const GithubIcon: string :=
    "<img src=\"https://github.githubassets.com/images/modules/logos_page/GitHub-Mark.png\" alt=\"GitHub\" style=\"display:inline-block; height:1.5em; vertical-align:middle;\">"

  /** Python truthiness of an optional string. */
  predicate Truthy(s: Option<string>) { s.Some? && s.value != "" }

  function Tag(name: string, on: bool, inner: string): string {
    if on then "<" + name + ">" + inner + "</" + name + ">" else inner
  }

  /** A code run is escaped and wrapped alone; otherwise bold, italic, strikethrough, underline from the inside out. */
  function Styled(text: string, a: Annotations): string {
    if a.code then "<code>" + EscapeHtml(text) + "</code>"
    else Tag("u", a.underline, Tag("del", a.strikethrough, Tag("em", a.italic, Tag("strong", a.bold, text))))
  }

  function Colored(text: string, color: string): string {
    if color != "default" then "<span style=\"color: " + color + "\">" + text + "</span>" else text
  }

  /** The test deciding whether a link gets `target="_blank"`. */
  predicate OpensNewTab(href: string) {
    (StartsWith(href, "http://") || StartsWith(href, "https://") || StartsWith(href, "//"))
    && !StartsWith(href, "/") && !StartsWith(href, "#")
  }

  function Anchor(href: string, text: string): string {
    if OpensNewTab(href) then "<a href=\"" + href + "\" target=\"_blank\" rel=\"noopener noreferrer\">" + text + "</a>"
    else "<a href=\"" + href + "\">" + text + "</a>"
  }

  /** The text of a run: a GitHub pull-request link shows the icon and the number instead. */
  function RunText(rt: RichText): string {
    if Truthy(rt.href) && GithubPullNumber(rt.href.value).Some? then
      GithubIcon + " Pull Request #" + GithubPullNumber(rt.href.value).value
    else rt.plainText
  }

  /** Where a run links to: a pull-request URL as it is, any other link through `RewriteNotionLink`. */
  function RunTarget(idToSlug: map<string, string>, rt: RichText): Option<string> {
    if !Truthy(rt.href) then None
    else if GithubPullNumber(rt.href.value).Some? then rt.href
    else Some(RewriteNotionLink(idToSlug, rt.href.value))
  }

  /** One run of `_rich_text_to_markdown`. */
  function RunMarkdown(idToSlug: map<string, string>, rt: RichText): string {
    var shown := Colored(Styled(RunText(rt), rt.annotations), rt.annotations.color);
    var target := RunTarget(idToSlug, rt);
    if Truthy(target) then Anchor(target.value, shown) else shown
  }

  /** `_rich_text_to_markdown`: the runs rendered and concatenated. */
  function RichTextMarkdown(idToSlug: map<string, string>, runs: seq<RichText>): string {
    if runs == [] then ""
    else RichTextMarkdown(idToSlug, runs[..|runs| - 1]) + RunMarkdown(idToSlug, runs[|runs| - 1])
  }

  /** `_rich_text_to_plain_text`: the `plain_text` of the runs, concatenated. */
  function PlainText(runs: seq<RichText>): string {
    if runs == [] then "" else PlainText(runs[..|runs| - 1]) + runs[|runs| - 1].plainText
  }

  /** The loop of `_rich_text_to_markdown`: collect the rendered runs, then join them. */
  method RichTextToMarkdown(idToSlug: map<string, string>, runs: seq<RichText>) returns (md: string)
    ensures md == RichTextMarkdown(idToSlug, runs)
  {
    if runs == [] {
      return "";
    }
    var result: seq<string> := [];
    for i := 0 to |runs|
      invariant Concat(result) == RichTextMarkdown(idToSlug, runs[..i])
    {
      var text := RunMarkdown(idToSlug, runs[i]);
      ConcatSnoc(result, text);
      RichTextStep(idToSlug, runs, i);
      result := result + [text];
    }
    assert runs[..|runs|] == runs;
    md := Concat(result);
  }

  lemma RichTextStep(idToSlug: map<string, string>, runs: seq<RichText>, i: nat)
    requires i < |runs|
    ensures RichTextMarkdown(idToSlug, runs[..i + 1]) == RichTextMarkdown(idToSlug, runs[..i]) + RunMarkdown(idToSlug, runs[i])
  {
    assert runs[..i + 1][..i] == runs[..i];
  }

  /** Runs without link or annotations render as their plain text. */
  lemma {:induction false} PlainRunsRenderAsText(idToSlug: map<string, string>, runs: seq<RichText>)
    requires forall k :: 0 <= k < |runs| ==> runs[k].href.None? && runs[k].annotations == PlainStyle
    ensures RichTextMarkdown(idToSlug, runs) == PlainText(runs)
  {
    if runs != [] {
      PlainRunsRenderAsText(idToSlug, runs[..|runs| - 1]);
    }
  }

  /**
   * A code run becomes one `<code>` element whose content holds no tag
   * character and reads back as the run's text.
   */
  lemma CodeRunIsEscaped(text: string, a: Annotations)
    requires a.code
    ensures exists e :: Styled(text, a) == "<code>" + e + "</code>"
                        && '<' !in e && '>' !in e && Unescape(e) == text
  {
    EscapeRoundTrip(text);
    assert Styled(text, a) == "<code>" + EscapeHtml(text) + "</code>";
  }

  /**
   * `target="_blank"` goes exactly to `http://` and `https://` links: a
   * protocol-relative `//` link passes the external test but also starts with `/`.
   */
  lemma NewTabExactlyForHttp(href: string)
    ensures OpensNewTab(href) <==> StartsWith(href, "http://") || StartsWith(href, "https://")
  {
    if StartsWith(href, "//") {
      assert href[..1] == href[..2][..1];
    }
    if StartsWith(href, "http://") || StartsWith(href, "https://") {
      assert href[0] == 'h';
    }
  }

  // ---------------------------------------------------------------------
  // Block converters
  // ---------------------------------------------------------------------

  /** The media URL of a payload: `external.url` for external media, `file.url` otherwise. */
  function MediaUrl(p: Payload): string {
    if p.sourceType == "external" then p.externalUrl else p.fileUrl
  }

  /** `url.split('/')[-1]` */
  function LastSegment(url: string): string {
    var pieces := Split(url, '/');
    pieces[|pieces| - 1]
  }

  function Paragraph(idToSlug: map<string, string>, b: Block): string {
    if b.payload.None? then "" else RichTextMarkdown(idToSlug, b.payload.value.richText)
  }

  /** `block['type'].split('_')[1]` for a heading type, read past the `heading_` prefix. */
  function HeadingLevel(blockType: string): string
    requires StartsWith(blockType, "heading_")
  {
    Split(blockType[8..], '_')[0]
  }

  /** The value of a run of decimal digits. */
  function DigitsValue(d: string): nat
    requires AllChars(d, IsDigit)
  {
    if d == [] then 0 else DigitsValue(d[..|d| - 1]) * 10 + (d[|d| - 1] - '0') as nat
  }

  /** `int(s)` on a string: surrounding white space, an optional sign, then decimal digits; `None` where Python raises `ValueError`. */
  function PyInt(s: string): Option<int> {
    var t := Strip(s);
    var signed := t != [] && (t[0] == '-' || t[0] == '+');
    var digits := if signed then t[1..] else t;
    if digits != [] && AllChars(digits, IsDigit) then
      Some(if signed && t[0] == '-' then -(DigitsValue(digits) as int) else DigitsValue(digits))
    else None
  }

  /** The heading anchor: the block id without hyphens, lower-cased. */
  function HeadingAnchor(id: Option<string>): string {
    Lower(RemoveChar(id.GetOr(""), '-'))
  }

  function Heading(idToSlug: map<string, string>, b: Block): Result<string, ConvertError>
    requires StartsWith(b.blockType, "heading_")
  {
    if b.payload.None? then Ok("")
    else
      var text := RichTextMarkdown(idToSlug, b.payload.value.richText);
      var anchor := HeadingAnchor(b.id);
      match PyInt(HeadingLevel(b.blockType))
      case None => Err(ValueError)
      case Some(n) =>
        var hashes := RepeatChar('#', if n > 0 then n else 0);
        Ok(if anchor != "" then hashes + " " + text + " {#" + anchor + "}" else hashes + " " + text)
  }

  /** A child's conversion with every line indented by four spaces. */
  function Indent(s: string): string {
    Join("\n", PrefixAll("    ", Split(s, '\n')))
  }

  function Indented(parts: seq<string>): (r: seq<string>)
    ensures |r| == |parts|
    ensures forall k :: 0 <= k < |parts| ==> r[k] == Indent(parts[k])
  {
    seq(|parts|, k requires 0 <= k < |parts| => Indent(parts[k]))
  }

  function ListItem(m: Context, b: Block, prefix: string): string
    decreases b, 0
  {
    if b.payload.None? then ""
    else
      var text := RichTextMarkdown(m.idToSlug, b.payload.value.richText);
      var children := b.Kids();
      var childContent := if children != [] then Indented(Rendered(m, children)) else [];
      if childContent != [] then prefix + text + "\n" + Join("\n", childContent) else prefix + text
  }

  /** The code of a block looks like a Mermaid diagram. */
  predicate MermaidLike(code: string) {
    Contains(code, "graph TD") || Contains(code, "flowchart") || Contains(code, "sequenceDiagram")
  }

  /** The info string of a code fence: the language lower-cased, or `mermaid` for an untagged diagram. */
  function FenceTag(language: string, code: string): string {
    var lowered := Lower(language);
    if lowered == "" && MermaidLike(code) then "mermaid" else lowered
  }

  function CodeBlock(b: Block): string {
    if b.payload.None? then ""
    else
      var code := PlainText(b.payload.value.richText);
      "```" + FenceTag(b.payload.value.language, code) + "\n" + code + "\n```"
  }

  function Quote(idToSlug: map<string, string>, b: Block): string {
    if b.payload.None? then ""
    else Join("\n", PrefixAll("> ", Split(RichTextMarkdown(idToSlug, b.payload.value.richText), '\n')))
  }

  /** The overriding `_convert_image`: a block with a URL reaches the three-argument `download_media` call. */
  function Image(b: Block): Result<string, ConvertError> {
    if b.payload.None? || MediaUrl(b.payload.value) == "" then Ok("") else Err(TypeError)
  }

  function YoutubeShortcode(id: string): string { "{{< youtube \"" + id + "\" >}}" }

  function Video(m: Context, b: Block): Result<string, ConvertError> {
    if b.payload.None? then Ok("")
    else
      var p := b.payload.value;
      if p.sourceType == "external" then
        var url := p.externalUrl;
        if Contains(url, "youtube.com") || Contains(url, "youtu.be") then
          var id := m.youtubeId(url);
          Ok(if id != "" then YoutubeShortcode(id) else "")
        else if Contains(url, "vimeo.com") then
          Ok("{{< vimeo \"" + LastSegment(url) + "\" >}}")
        else
          Ok("<video controls style=\"width: 100%; max-width: 800px;\">\n  <source src=\"" + url + "\">\n</video>")
      else if p.fileUrl != "" then Err(TypeError)
      else Ok("")
  }

  function Audio(b: Block): Result<string, ConvertError> {
    if b.payload.None? then Ok("")
    else
      var p := b.payload.value;
      if p.sourceType != "external" && p.fileUrl != "" then Err(TypeError)
      else if p.externalUrl != "" && p.sourceType == "external" then
        Ok("<audio controls preload=\"none\" style=\"width: 100%;\">\n  <source src=\"" + p.externalUrl + "\">\n</audio>")
      else Ok("")
  }

  function Equation(b: Block): string {
    var expression := if b.payload.Some? then b.payload.value.expression else "";
    if expression != "" then "$$\n" + expression + "\n$$" else ""
  }

  function Toggle(m: Context, b: Block): string
    decreases b, 0
  {
    if b.payload.None? then ""
    else
      var text := RichTextMarkdown(m.idToSlug, b.payload.value.richText);
      var children := b.Kids();
      var content := if children != [] then Markdown(m, children) else "";
      "<details>\n<summary>" + text + "</summary>\n\n" + content + "\n</details>"
  }

  /** The emoji of an emoji icon (`💡` when its key is missing); `💡` for any other icon. */
  function CalloutIcon(icon: Icon): string {
    match icon
    case EmojiIcon(emoji) => emoji.GetOr("💡")
    case _ => "💡"
  }

  function Callout(m: Context, b: Block): string
    decreases b, 0
  {
    if b.payload.None? then ""
    else
      var p := b.payload.value;
      var icon := CalloutIcon(p.icon);
      var text := RichTextMarkdown(m.idToSlug, p.richText);
      var children := b.Kids();
      var content := if children != [] then Markdown(m, children) else "";
      var body := if content != "" then text + "\n\n" + content else text;
      Join("\n", ["> " + icon + " "] + PrefixAll("> ", Split(body, '\n')))
  }

  /** An anchor opening in a new tab, as bookmarks and link previews emit it. */
  function ExternalListLink(url: string, text: string): string {
    "- <a href=\"" + url + "\" target=\"_blank\" rel=\"noopener noreferrer\">" + EscapeHtml(text) + "</a>"
  }

  function Bookmark(b: Block): string {
    if b.payload.None? || b.payload.value.url == "" then ""
    else
      var url := b.payload.value.url;
      var caption := PlainText(b.payload.value.caption);
      ExternalListLink(url, if caption != "" then caption else url)
  }

  function IFrame(url: string): string {
    "<iframe src=\"" + url + "\" style=\"width:100%; height:400px;\"></iframe>"
  }

  /** A tweet or YouTube embed without an id falls off the end of `_convert_embed`, whose `None` is dropped like `""`. */
  function Embed(m: Context, b: Block): string {
    var url := if b.payload.Some? then b.payload.value.url else "";
    if url == "" then ""
    else if Contains(url, "twitter.com") || Contains(url, "x.com") then
      match m.tweetId(url)
      case Some(id) => "{{< tweet user=\"user\" id=\"" + id + "\" >}}"
      case None => ""
    else if Contains(url, "youtube.com") || Contains(url, "youtu.be") then
      var id := m.youtubeId(url);
      if id != "" then YoutubeShortcode(id) else ""
    else if Contains(url, "gist.github.com") then "{{< gist url=\"" + url + "\" >}}"
    else IFrame(url)
  }

  function LinkPreview(b: Block): string {
    var url := if b.payload.Some? then b.payload.value.url else "";
    if url != "" then ExternalListLink(url, url) else ""
  }

  function Pdf(b: Block): string {
    if b.payload.None? || MediaUrl(b.payload.value) == "" then ""
    else
      var caption := PlainText(b.payload.value.caption);
      "📄 [" + (if caption != "" then caption else "PDF Document") + "](" + MediaUrl(b.payload.value) + ")"
  }

  function FileLink(b: Block): string {
    if b.payload.None? || MediaUrl(b.payload.value) == "" then ""
    else
      var url := MediaUrl(b.payload.value);
      var caption := PlainText(b.payload.value.caption);
      "📎 [" + (if caption != "" then caption else LastSegment(url)) + "](" + url + ")"
  }

  // ---------------------------------------------------------------------
  // Tables
  // ---------------------------------------------------------------------

  /** `'| ' + ' | '.join(cells) + ' |'` */
  function RowLine(cells: seq<string>): string {
    "| " + Join(" | ", cells) + " |"
  }

  /** `[s] * n` */
  function Copies(s: string, n: nat): (r: seq<string>)
    ensures |r| == n && forall k :: 0 <= k < n ==> r[k] == s
  {
    seq(n, _ => s)
  }

  /** Table cells, each rendered as rich text, in order. */
  function CellsMarkdown(idToSlug: map<string, string>, cells: seq<seq<RichText>>): (r: seq<string>)
    ensures |r| == |cells|
  {
    if cells == [] then []
    else CellsMarkdown(idToSlug, cells[..|cells| - 1]) + [RichTextMarkdown(idToSlug, cells[|cells| - 1])]
  }

  /** The cells of one `table_row` child, rendered. */
  function RowCells(idToSlug: map<string, string>, row: Block): seq<string> {
    CellsMarkdown(idToSlug, if row.payload.Some? then row.payload.value.cells else [])
  }

  /** The rows of a table: its `table_row` children in order; other children are skipped. */
  function TableRows(idToSlug: map<string, string>, children: seq<Block>): seq<seq<string>> {
    if children == [] then []
    else
      var last := children[|children| - 1];
      TableRows(idToSlug, children[..|children| - 1])
        + if last.blockType == "table_row" then [RowCells(idToSlug, last)] else []
  }

  function BodyLines(rows: seq<seq<string>>): (r: seq<string>)
    ensures |r| == |rows| && forall k :: 0 <= k < |rows| ==> r[k] == RowLine(rows[k])
  {
    seq(|rows|, k requires 0 <= k < |rows| => RowLine(rows[k]))
  }

  /** The lines of a non-empty table: header, separator, body. */
  function TableLines(rows: seq<seq<string>>, hasHeader: bool): seq<string>
    requires rows != []
  {
    var width := |rows[0]|;
    if hasHeader then [RowLine(rows[0]), RowLine(Copies("---", width))] + BodyLines(rows[1..])
    else [RowLine(Copies("", width)), RowLine(Copies("---", width))] + BodyLines(rows)
  }

  function Table(idToSlug: map<string, string>, b: Block): string {
    if b.payload.None? then ""
    else
      var rows := TableRows(idToSlug, b.Kids());
      if rows == [] then "" else Join("\n", TableLines(rows, b.payload.value.hasColumnHeader))
  }

  // ---------------------------------------------------------------------
  // Column lists
  // ---------------------------------------------------------------------

  predicate AllImages(blocks: seq<Block>) {
    forall k :: 0 <= k < |blocks| ==> blocks[k].blockType == "image"
  }

  /** An image of an image-only column that reaches the three-argument `download_media` call. */
  predicate Downloads(b: Block) {
    b.payload.Some? && MediaUrl(b.payload.value) != ""
  }

  function FlexColumn(content: string): string {
    "<div style=\"flex: 1;\">\\n\\n" + content + "\\n\\n</div>"
  }

  /** The column contents gathered by `_convert_column_list`, or the error one of its image columns raises. */
  function ColumnParts(m: Context, columns: seq<Block>): Result<seq<string>, ConvertError>
    decreases columns, 0
  {
    if columns == [] then Ok([])
    else
      var column := columns[|columns| - 1];
      var children := column.Kids();
      match ColumnParts(m, columns[..|columns| - 1])
      case Err(e) => Err(e)
      case Ok(parts) =>
        if column.blockType != "column" then Ok(parts)
        else if AllImages(children) && children != [] then
          if exists k :: 0 <= k < |children| && Downloads(children[k]) then Err(TypeError) else Ok(parts)
        else
          var content := if children != [] then Markdown(m, children) else "";
          Ok(if content != "" then parts + [FlexColumn(content)] else parts)
  }

  const GridOpen: string :=
    "<div style=\"display: grid; grid-template-columns: repeat(auto-fit, minmax(300px, 1fr)); gap: 20px; margin: 20px 0;\">\n    "
  const FlexOpen: string := "<div style=\"display: flex; gap: 20px; flex-wrap: wrap;\">\n    "
  const LayoutClose: string := "\n    </div>"

  /**
   * `_convert_column_list`. No image is ever appended (its download raises),
   * so the image count equals the number of parts exactly when there are none,
   * and then the grid layout is chosen.
   */
  function ColumnList(m: Context, b: Block): Result<string, ConvertError>
    decreases b, 0
  {
    var columns := b.Kids();
    if columns == [] then Ok("")
    else
      match ColumnParts(m, columns)
      case Err(e) => Err(e)
      case Ok(parts) =>
        Ok((if parts == [] then GridOpen else FlexOpen) + Join("\n", parts) + LayoutClose)
  }

  // ---------------------------------------------------------------------
  // Dispatch and documents
  // ---------------------------------------------------------------------

  /** The types `_convert_block` recognises besides the `heading_` family. */
  const KnownTypes: set<string> := {
    "paragraph", "bulleted_list_item", "numbered_list_item", "code", "quote", "divider",
    "image", "video", "audio", "equation", "toggle", "callout", "bookmark", "embed", "table",
    "column_list", "link_preview", "child_page", "pdf", "file", "table_of_contents",
    "column", "synced_block", "unsupported" }

  /** The dispatch of `_convert_block`, with the exception a converter raises. */
  function Render(m: Context, b: Block): Result<string, ConvertError>
    decreases b, 1
  {
    var t := b.blockType;
    if t == "paragraph" then Ok(Paragraph(m.idToSlug, b))
    else if StartsWith(t, "heading_") then Heading(m.idToSlug, b)
    else if t == "bulleted_list_item" then Ok(ListItem(m, b, "- "))
    else if t == "numbered_list_item" then Ok(ListItem(m, b, "1. "))
    else if t == "code" then Ok(CodeBlock(b))
    else if t == "quote" then Ok(Quote(m.idToSlug, b))
    else if t == "divider" then Ok("---")
    else if t == "image" then Image(b)
    else if t == "video" then Video(m, b)
    else if t == "audio" then Audio(b)
    else if t == "equation" then Ok(Equation(b))
    else if t == "toggle" then Ok(Toggle(m, b))
    else if t == "callout" then Ok(Callout(m, b))
    else if t == "bookmark" then Ok(Bookmark(b))
    else if t == "embed" then Ok(Embed(m, b))
    else if t == "table" then Ok(Table(m.idToSlug, b))
    else if t == "column_list" then ColumnList(m, b)
    else if t == "link_preview" then Ok(LinkPreview(b))
    else if t == "child_page" then Ok("")
    else if t == "pdf" then Ok(Pdf(b))
    else if t == "file" then Ok(FileLink(b))
    else if t == "table_of_contents" then Ok("{{< toc >}}")
    else if t == "column" then Ok("")
    else if t == "synced_block" then Ok("<!-- Synced block -->")
    else if t == "unsupported" then Ok("<!-- Unsupported block type -->")
    else Ok("")
  }

  /** `_convert_block`: the converter's output, or `""` when it raises. */
  function ConvertBlock(m: Context, b: Block): string
    decreases b, 2
  {
    match Render(m, b)
    case Ok(s) => s
    case Err(_) => ""
  }

  /** The non-empty conversions of the blocks, in order. */
  function Rendered(m: Context, blocks: seq<Block>): (r: seq<string>)
    ensures |r| <= |blocks|
    ensures forall k :: 0 <= k < |r| ==> r[k] != ""
    decreases blocks, 0
  {
    if blocks == [] then []
    else
      var out := ConvertBlock(m, blocks[|blocks| - 1]);
      Rendered(m, blocks[..|blocks| - 1]) + if out != "" then [out] else []
  }

  /** `_blocks_to_markdown` */
  function Markdown(m: Context, blocks: seq<Block>): string
    decreases blocks, 1
  {
    Join("\n\n", Rendered(m, blocks))
  }

  /** The loop of `_blocks_to_markdown`: keep each non-empty conversion, then join with blank lines. */
  method BlocksToMarkdown(m: Context, blocks: seq<Block>) returns (md: string)
    ensures md == Markdown(m, blocks)
  {
    var parts: seq<string> := [];
    for i := 0 to |blocks|
      invariant parts == Rendered(m, blocks[..i])
    {
      var markdown := ConvertBlock(m, blocks[i]);
      if markdown != "" {
        parts := parts + [markdown];
      }
      assert blocks[..i + 1][..i] == blocks[..i];
    }
    assert blocks[..|blocks|] == blocks;
    md := Join("\n\n", parts);
  }

  /** The loop of `_convert_list_item` over the children: each non-empty conversion, indented. */
  method IndentChildren(m: Context, children: seq<Block>) returns (childContent: seq<string>)
    ensures childContent == Indented(Rendered(m, children))
  {
    childContent := [];
    for i := 0 to |children|
      invariant childContent == Indented(Rendered(m, children[..i]))
    {
      var childText := ConvertBlock(m, children[i]);
      RenderedStep(m, children, i);
      if childText != "" {
        IndentedSnoc(Rendered(m, children[..i]), childText);
        childContent := childContent + [Indent(childText)];
      }
    }
    assert children[..|children|] == children;
  }

  lemma RenderedStep(m: Context, blocks: seq<Block>, i: nat)
    requires i < |blocks|
    ensures Rendered(m, blocks[..i + 1]) ==
            Rendered(m, blocks[..i]) + if ConvertBlock(m, blocks[i]) != "" then [ConvertBlock(m, blocks[i])] else []
  {
    assert blocks[..i + 1][..i] == blocks[..i];
  }

  lemma IndentedSnoc(parts: seq<string>, x: string)
    ensures Indented(parts + [x]) == Indented(parts) + [Indent(x)]
  {
  }

  /** `_convert_list_item` */
  method ConvertListItem(m: Context, b: Block, prefix: string) returns (md: string)
    ensures md == ListItem(m, b, prefix)
  {
    if b.payload.None? {
      return "";
    }
    var text := RichTextToMarkdown(m.idToSlug, b.payload.value.richText);
    var children := b.Kids();
    if children != [] {
      var childContent := IndentChildren(m, children);
      if childContent != [] {
        text := text + "\n" + Join("\n", childContent);
      }
    }
    md := prefix + text;
  }

  /** One row of `_convert_table`: the loop over the cells of a `table_row`. */
  method RowOf(idToSlug: map<string, string>, child: Block) returns (row: seq<string>)
    ensures row == RowCells(idToSlug, child)
  {
    var cells := if child.payload.Some? then child.payload.value.cells else [];
    row := [];
    for j := 0 to |cells|
      invariant row == CellsMarkdown(idToSlug, cells[..j])
    {
      var cellText := RichTextToMarkdown(idToSlug, cells[j]);
      CellsStep(idToSlug, cells, j);
      row := row + [cellText];
    }
    assert cells[..|cells|] == cells;
  }

  lemma CellsStep(idToSlug: map<string, string>, cells: seq<seq<RichText>>, j: nat)
    requires j < |cells|
    ensures CellsMarkdown(idToSlug, cells[..j + 1]) == CellsMarkdown(idToSlug, cells[..j]) + [RichTextMarkdown(idToSlug, cells[j])]
  {
    assert cells[..j + 1][..j] == cells[..j];
  }

  lemma TableRowsStep(idToSlug: map<string, string>, children: seq<Block>, i: nat)
    requires i < |children|
    ensures TableRows(idToSlug, children[..i + 1]) ==
            TableRows(idToSlug, children[..i])
              + if children[i].blockType == "table_row" then [RowCells(idToSlug, children[i])] else []
  {
    assert children[..i + 1][..i] == children[..i];
  }

  /** The rows loop of `_convert_table`: one row per `table_row` child. */
  method CollectRows(idToSlug: map<string, string>, children: seq<Block>) returns (rows: seq<seq<string>>)
    ensures rows == TableRows(idToSlug, children)
  {
    rows := [];
    for i := 0 to |children|
      invariant rows == TableRows(idToSlug, children[..i])
    {
      TableRowsStep(idToSlug, children, i);
      if children[i].blockType == "table_row" {
        var row := RowOf(idToSlug, children[i]);
        rows := rows + [row];
      }
    }
    assert children[..|children|] == children;
  }

  /** The lines loop of `_convert_table`: header and separator, then one line per remaining row. */
  method TableLinesOf(rows: seq<seq<string>>, hasHeader: bool) returns (lines: seq<string>)
    requires rows != []
    ensures lines == TableLines(rows, hasHeader)
  {
    var width := |rows[0]|;
    var body: seq<seq<string>>;
    if hasHeader {
      lines := [RowLine(rows[0]), RowLine(Copies("---", width))];
      body := rows[1..];
    } else {
      lines := [RowLine(Copies("", width)), RowLine(Copies("---", width))];
      body := rows;
    }
    ghost var head := lines;
    for k := 0 to |body|
      invariant lines == head + BodyLines(body[..k])
    {
      lines := lines + [RowLine(body[k])];
    }
    assert body[..|body|] == body;
  }

  /** `_convert_table` */
  method ConvertTable(idToSlug: map<string, string>, b: Block) returns (md: string)
    ensures md == Table(idToSlug, b)
  {
    if b.payload.None? {
      return "";
    }
    var hasHeader := b.payload.value.hasColumnHeader;
    var rows := CollectRows(idToSlug, b.Kids());
    if rows == [] {
      return "";
    }
    var lines := TableLinesOf(rows, hasHeader);
    md := Join("\n", lines);
  }

  // ---------------------------------------------------------------------
  // Front-matter flags
  // ---------------------------------------------------------------------

  /** A code block that `_has_mermaid` accepts: tagged `mermaid` in any case, or Mermaid-like text. */
  predicate MermaidCode(b: Block) {
    b.blockType == "code" && b.payload.Some?
    && (Lower(b.payload.value.language) == "mermaid" || MermaidLike(PlainText(b.payload.value.richText)))
  }

  /** `_has_mermaid`: each block, then its children, then the following blocks. */
  predicate HasMermaid(blocks: seq<Block>) {
    blocks != []
    && (MermaidCode(blocks[0])
        || (blocks[0].children.Present? && HasMermaid(blocks[0].children.blocks))
        || HasMermaid(blocks[1..]))
  }

  /** Every block of a forest, in document order (pre-order). */
  function Flatten(blocks: seq<Block>): seq<Block> {
    if blocks == [] then []
    else [blocks[0]] + (if blocks[0].children.Present? then Flatten(blocks[0].children.blocks) else [])
         + Flatten(blocks[1..])
  }

  predicate AnyMermaid(blocks: seq<Block>) {
    exists k :: 0 <= k < |blocks| && MermaidCode(blocks[k])
  }

  lemma AnyMermaidConcat(a: seq<Block>, b: seq<Block>)
    ensures AnyMermaid(a + b) <==> AnyMermaid(a) || AnyMermaid(b)
  {
    if AnyMermaid(a + b) {
      var k :| 0 <= k < |a + b| && MermaidCode((a + b)[k]);
      if k >= |a| {
        assert b[k - |a|] == (a + b)[k];
      }
    }
    if AnyMermaid(a) {
      var k :| 0 <= k < |a| && MermaidCode(a[k]);
      assert (a + b)[k] == a[k];
    }
    if AnyMermaid(b) {
      var k :| 0 <= k < |b| && MermaidCode(b[k]);
      assert (a + b)[|a| + k] == b[k];
    }
  }

  /** `_has_mermaid` finds a Mermaid code block exactly when one occurs anywhere in the tree. */
  lemma {:induction false} MermaidAnywhere(blocks: seq<Block>)
    ensures HasMermaid(blocks) <==> AnyMermaid(Flatten(blocks))
  {
    if blocks != [] {
      var head := blocks[0];
      var nested := if head.children.Present? then Flatten(head.children.blocks) else [];
      if head.children.Present? {
        MermaidAnywhere(head.children.blocks);
      }
      MermaidAnywhere(blocks[1..]);
      AnyMermaidConcat([head], nested);
      AnyMermaidConcat([head] + nested, Flatten(blocks[1..]));
      assert AnyMermaid([head]) <==> MermaidCode(head) by {
        assert [head][0] == head;
      }
    }
  }

  /** The inline-formula markers `_has_math` looks for in plain text. */
  predicate MathText(t: string) {
    '$' in t || Contains(t, "\\\\(") || Contains(t, "\\\\[")
  }

  predicate MathBlock(b: Block) {
    b.blockType == "equation"
    || (b.blockType in ["paragraph", "bulleted_list_item", "numbered_list_item"]
        && MathText(if b.payload.Some? then PlainText(b.payload.value.richText) else ""))
  }

  /** `_has_math`: the top-level blocks only, in order. */
  predicate HasMath(blocks: seq<Block>) {
    blocks != [] && (MathBlock(blocks[0]) || HasMath(blocks[1..]))
  }

  /** `_has_math` holds exactly when some top-level block is an equation or has a formula marker; children are not searched. */
  lemma {:induction false} MathAtTopLevel(blocks: seq<Block>)
    ensures HasMath(blocks) <==> exists k :: 0 <= k < |blocks| && MathBlock(blocks[k])
  {
    if blocks != [] {
      MathAtTopLevel(blocks[1..]);
      if exists k :: 0 <= k < |blocks| && MathBlock(blocks[k]) {
        var k :| 0 <= k < |blocks| && MathBlock(blocks[k]);
        if k > 0 {
          assert blocks[1..][k - 1] == blocks[k];
        }
      }
      if exists k :: 0 <= k < |blocks[1..]| && MathBlock(blocks[1..][k]) {
        var k :| 0 <= k < |blocks[1..]| && MathBlock(blocks[1..][k]);
        assert blocks[k + 1] == blocks[1..][k];
      }
    }
  }

  // ---------------------------------------------------------------------
  // Properties of the conversion
  // ---------------------------------------------------------------------

  /** Conversions keep block order: the blocks of a concatenation render as the concatenation. */
  lemma {:induction false} RenderedConcat(m: Context, a: seq<Block>, b: seq<Block>)
    ensures Rendered(m, a + b) == Rendered(m, a) + Rendered(m, b)
  {
    if b == [] {
      assert a + b == a;
    } else {
      var init := b[..|b| - 1];
      assert (a + b)[..|a + b| - 1] == a + init;
      assert (a + b)[|a + b| - 1] == b[|b| - 1];
      RenderedConcat(m, a, init);
    }
  }

  /**
   * The document of two runs of blocks is the two documents separated by a
   * blank line, the separator appearing only when both render something.
   */
  lemma MarkdownConcat(m: Context, a: seq<Block>, b: seq<Block>)
    ensures Markdown(m, a + b) ==
            if Rendered(m, a) == [] then Markdown(m, b)
            else if Rendered(m, b) == [] then Markdown(m, a)
            else Markdown(m, a) + "\n\n" + Markdown(m, b)
  {
    RenderedConcat(m, a, b);
    JoinConcat("\n\n", Rendered(m, a), Rendered(m, b));
  }

  /** A block whose converter raises, or that renders as nothing, leaves the document unchanged. */
  lemma EmptyBlockDropped(m: Context, blocks: seq<Block>, b: Block)
    requires Render(m, b).Err? || ConvertBlock(m, b) == ""
    ensures Markdown(m, blocks + [b]) == Markdown(m, blocks)
  {
    assert (blocks + [b])[..|blocks|] == blocks;
    assert Rendered(m, blocks + [b]) == Rendered(m, blocks);
  }

  /** A block of a type `_convert_block` does not recognise converts to `""`. */
  lemma UnknownTypeDropped(m: Context, b: Block)
    requires b.blockType !in KnownTypes && !StartsWith(b.blockType, "heading_")
    ensures ConvertBlock(m, b) == ""
  {
  }

  /**
   * Blocks that reach the three-argument `download_media` call raise
   * `TypeError` and convert to `""`: every image, and a file-hosted video or audio.
   */
  lemma DownloadingBlocksDropped(m: Context, b: Block)
    requires b.payload.Some?
    requires b.blockType == "image"
             || ((b.blockType == "video" || b.blockType == "audio")
                 && b.payload.value.sourceType != "external" && b.payload.value.fileUrl != "")
    ensures ConvertBlock(m, b) == ""
  {
  }

  /** The level of a heading is the second `_`-separated field of its type. */
  lemma HeadingLevelIsSecondField(t: string)
    requires StartsWith(t, "heading_")
    ensures Split(t, '_') == ["heading"] + Split(t[8..], '_')
    ensures HeadingLevel(t) == Split(t, '_')[1]
  {
    assert t == "heading" + ("_" + t[8..]);
    SplitAppend("heading", t[8..], '_');
  }

  /** The heading anchor holds no hyphen and no upper-case ASCII letter, and is empty only for a missing or all-hyphen id. */
  lemma HeadingAnchorNormalised(id: Option<string>)
    ensures '-' !in HeadingAnchor(id)
    ensures forall k :: 0 <= k < |HeadingAnchor(id)| ==> !IsAsciiUpper(HeadingAnchor(id)[k])
    ensures HeadingAnchor(id) == "" <==> id.None? || forall k :: 0 <= k < |id.value| ==> id.value[k] == '-'
  {
    var raw := id.GetOr("");
    var compact := RemoveChar(raw, '-');
    assert |HeadingAnchor(id)| == |compact|;
    if compact == [] && id.Some? {
      assert multiset(raw)['-' := 0] == multiset{};
      forall k | 0 <= k < |raw| ensures raw[k] == '-' {
        assert raw[k] in multiset(raw);
        assert multiset(raw)['-' := 0][raw[k]] == 0;
      }
    }
    if id.Some? && compact != [] {
      assert compact[0] in multiset(compact);
      var k :| 0 <= k < |raw| && raw[k] == compact[0];
    }
  }

  /**
   * A heading of level `d` (one digit from 1 to 9) is `d` hashes, a space,
   * the text, and the ` {#anchor}` suffix exactly when the anchor is not empty.
   */
  lemma HeadingShape(idToSlug: map<string, string>, b: Block, d: char)
    requires b.blockType == "heading_" + [d] && '1' <= d <= '9' && b.payload.Some?
    ensures var text := RichTextMarkdown(idToSlug, b.payload.value.richText);
            var anchor := HeadingAnchor(b.id);
            var hashes := RepeatChar('#', (d - '0') as nat);
            Heading(idToSlug, b) == Ok(if anchor != "" then hashes + " " + text + " {#" + anchor + "}" else hashes + " " + text)
  {
    var t := b.blockType;
    assert StartsWith(t, "heading_");
    assert t[8..] == [d];
    SplitNoSep([d], '_');
    assert HeadingLevel(t) == [d];
    assert Strip([d]) == [d];
    assert AllChars([d], IsDigit);
    assert DigitsValue([d]) == (d - '0') as nat by {
      assert [d][..0] == [];
    }
    assert PyInt([d]) == Some((d - '0') as int);
  }

  /** A heading whose level is not a number raises `ValueError` and converts to `""`. */
  lemma HeadingBadLevelDropped(m: Context, b: Block)
    requires StartsWith(b.blockType, "heading_") && b.payload.Some?
    requires PyInt(HeadingLevel(b.blockType)).None?
    ensures Render(m, b) == Err(ValueError) && ConvertBlock(m, b) == ""
  {
    assert b.blockType[0] == 'h';
  }

  /** A quote has as many lines as its text, each line of the text behind `"> "`. */
  lemma QuoteLines(idToSlug: map<string, string>, b: Block)
    requires b.payload.Some?
    ensures var text := RichTextMarkdown(idToSlug, b.payload.value.richText);
            Split(Quote(idToSlug, b), '\n') == PrefixAll("> ", Split(text, '\n'))
  {
    PrefixLinesKeepsLines("> ", RichTextMarkdown(idToSlug, b.payload.value.richText));
  }

  /** Indenting a child's conversion keeps its lines, each behind exactly four spaces. */
  lemma IndentKeepsLines(s: string)
    ensures Split(Indent(s), '\n') == PrefixAll("    ", Split(s, '\n'))
  {
    PrefixLinesKeepsLines("    ", s);
  }

  /**
   * A list item is the prefix and the text, then one part per non-empty
   * child conversion, in order, whose lines are the child's lines each
   * indented by four spaces.
   */
  lemma ListItemLayout(m: Context, b: Block, prefix: string)
    requires b.payload.Some?
    ensures var text := RichTextMarkdown(m.idToSlug, b.payload.value.richText);
            var kids := Rendered(m, b.Kids());
            var parts := Indented(kids);
            && (kids == [] ==> ListItem(m, b, prefix) == prefix + text)
            && (kids != [] ==> ListItem(m, b, prefix) == prefix + text + "\n" + Join("\n", parts))
            && forall k :: 0 <= k < |parts| ==> Split(parts[k], '\n') == PrefixAll("    ", Split(kids[k], '\n'))
  {
    var kids := Rendered(m, b.Kids());
    forall k | 0 <= k < |kids|
      ensures Split(Indented(kids)[k], '\n') == PrefixAll("    ", Split(kids[k], '\n'))
    {
      IndentKeepsLines(kids[k]);
    }
  }

  /**
   * A table without `table_row` children converts to `""`. Otherwise its
   * lines are a header (the first row, or blank cells when there is no
   * column header), a separator with one `---` per cell of the first row,
   * and the remaining rows in order.
   */
  lemma TableLayout(idToSlug: map<string, string>, b: Block)
    requires b.payload.Some?
    ensures var rows := TableRows(idToSlug, b.Kids());
            var hasHeader := b.payload.value.hasColumnHeader;
            && (rows == [] ==> Table(idToSlug, b) == "")
            && (rows != [] ==>
                  var lines := TableLines(rows, hasHeader);
                  && Table(idToSlug, b) == Join("\n", lines)
                  && |lines| == (if hasHeader then |rows| + 1 else |rows| + 2)
                  && lines[0] == (if hasHeader then RowLine(rows[0]) else RowLine(Copies("", |rows[0]|)))
                  && lines[1] == RowLine(Copies("---", |rows[0]|))
                  && lines[2..] == BodyLines(if hasHeader then rows[1..] else rows))
  {
  }

  /**
   * The info string of a code fence is lower case; it is `mermaid` when the
   * block has no language but its text looks like a Mermaid diagram, and the
   * lower-cased language otherwise.
   */
  lemma FenceTagLowerCase(language: string, code: string)
    ensures var tag := FenceTag(language, code);
            && (forall k :: 0 <= k < |tag| ==> !IsAsciiUpper(tag[k]))
            && (language == "" && MermaidLike(code) ==> tag == "mermaid")
            && (language != "" ==> tag == Lower(language))
  {
    var lowered := Lower(language);
    assert |lowered| == |language|;
  }



  /** A column holding only images, one of which has a URL: its download raises. */
  predicate RaisingColumn(column: Block) {
    column.blockType == "column" && column.Kids() != [] && AllImages(column.Kids())
    && exists j :: 0 <= j < |column.Kids()| && Downloads(column.Kids()[j])
  }

  /** Gathering the columns raises exactly when one of them, wherever it stands, is a raising image column. */
  lemma {:induction false} ColumnPartsRaiseIff(m: Context, columns: seq<Block>)
    ensures ColumnParts(m, columns).Err? <==> exists k :: 0 <= k < |columns| && RaisingColumn(columns[k])
  {
    if columns != [] {
      var init := columns[..|columns| - 1];
      ColumnPartsRaiseIff(m, init);
      if exists k :: 0 <= k < |init| && RaisingColumn(init[k]) {
        var k :| 0 <= k < |init| && RaisingColumn(init[k]);
        assert columns[k] == init[k];
      } else {
        forall k | 0 <= k < |init| ensures !RaisingColumn(columns[k]) {
          assert init[k] == columns[k];
        }
      }
    }
  }

  /** A flex column around a non-empty document. */
  ghost predicate WrapsContent(part: string) {
    exists c :: c != "" && part == FlexColumn(c)
  }

  /** Each gathered part wraps the non-empty document of one column: at most one part per column. */
  lemma {:induction false} ColumnPartsShape(m: Context, columns: seq<Block>)
    requires ColumnParts(m, columns).Ok?
    ensures var parts := ColumnParts(m, columns).value;
            |parts| <= |columns| && forall k :: 0 <= k < |parts| ==> WrapsContent(parts[k])
  {
    if columns != [] {
      var init := columns[..|columns| - 1];
      ColumnPartsShape(m, init);
      var column := columns[|columns| - 1];
      var children := column.Kids();
      var before := ColumnParts(m, init).value;
      var parts := ColumnParts(m, columns).value;
      var content := if children != [] then Markdown(m, children) else "";
      if column.blockType == "column" && !(AllImages(children) && children != []) && content != "" {
        assert parts == before + [FlexColumn(content)];
        assert WrapsContent(FlexColumn(content));
      } else {
        assert parts == before;
      }
    }
  }

  /** A column list with a raising image column converts to `""`: its images never reach the page. */
  lemma ImageColumnDropsList(m: Context, b: Block, k: nat)
    requires b.blockType == "column_list" && k < |b.Kids()| && RaisingColumn(b.Kids()[k])
    ensures ConvertBlock(m, b) == ""
  {
    ColumnPartsRaiseIff(m, b.Kids());
    assert ColumnList(m, b).Err?;
    assert !StartsWith(b.blockType, "heading_") by {
      assert b.blockType[0] == 'c';
    }
  }

  // ---------------------------------------------------------------------
  // Block layouts
  // ---------------------------------------------------------------------

  /**
   * A code block is an opening fence with its info string, the code's own
   * lines untouched (no annotation, link or escaping applies), and a closing fence.
   */
  lemma CodeFenceLines(b: Block)
    requires b.payload.Some? && '\n' !in b.payload.value.language
    ensures var code := PlainText(b.payload.value.richText);
            Split(CodeBlock(b), '\n') == ["```" + FenceTag(b.payload.value.language, code)] + Split(code, '\n') + ["```"]
  {
    var p := b.payload.value;
    var code := PlainText(p.richText);
    var lowered := Lower(p.language);
    forall k | 0 <= k < |lowered| ensures lowered[k] != '\n' {
      assert lowered[k] == LowerChar(p.language[k]);
      assert p.language[k] != '\n';
    }
    var tag := FenceTag(p.language, code);
    assert '\n' !in tag;
    FramedLines("```" + tag, code, "```");
    assert CodeBlock(b) == "```" + tag + "\n" + code + "\n" + "```";
  }

  /** An equation is its expression between two `$$` lines, and nothing when the expression is empty. */
  lemma EquationDisplay(b: Block)
    ensures var e := if b.payload.Some? then b.payload.value.expression else "";
            && (Equation(b) == "" <==> e == "")
            && (e != "" ==> Split(Equation(b), '\n') == ["$$"] + Split(e, '\n') + ["$$"])
  {
    var e := if b.payload.Some? then b.payload.value.expression else "";
    FramedLines("$$", e, "$$");
    assert e != "" ==> Equation(b) == "$$" + "\n" + e + "\n" + "$$";
  }

  /**
   * Every line of a callout is quoted: a first line holding the icon, then the
   * lines of its text followed, after a blank line, by its children's document.
   */
  lemma CalloutLines(m: Context, b: Block)
    requires b.payload.Some? && '\n' !in CalloutIcon(b.payload.value.icon)
    ensures var text := RichTextMarkdown(m.idToSlug, b.payload.value.richText);
            var content := Markdown(m, b.Kids());
            var body := if content != "" then text + "\n\n" + content else text;
            var lines := Split(Callout(m, b), '\n');
            && lines[0] == "> " + CalloutIcon(b.payload.value.icon) + " "
            && lines[1..] == PrefixAll("> ", Split(body, '\n'))
            && forall k :: 0 <= k < |lines| ==> StartsWith(lines[k], "> ")
  {
    var p := b.payload.value;
    var text := RichTextMarkdown(m.idToSlug, p.richText);
    var content := Markdown(m, b.Kids());
    assert b.Kids() == [] ==> content == "";
    var body := if content != "" then text + "\n\n" + content else text;
    var first := "> " + CalloutIcon(p.icon) + " ";
    assert Callout(m, b) == Join("\n", [first] + PrefixAll("> ", Split(body, '\n')));
    QuotedLines(first, body, Callout(m, b));
  }

  /** The lines of a quote headed by `first` over `body`, with every line starting `> `. */
  lemma QuotedLines(first: string, body: string, quote: string)
    requires '\n' !in first && StartsWith(first, "> ")
    requires quote == Join("\n", [first] + PrefixAll("> ", Split(body, '\n')))
    ensures var lines := Split(quote, '\n');
            && lines[0] == first
            && lines[1..] == PrefixAll("> ", Split(body, '\n'))
            && forall k :: 0 <= k < |lines| ==> StartsWith(lines[k], "> ")
  {
    HeadedLines(first, "> ", body);
    var lines := Split(quote, '\n');
    assert lines == [first] + PrefixAll("> ", Split(body, '\n'));
    assert lines[1..] == PrefixAll("> ", Split(body, '\n'));
  }

  /** A toggle is a `<details>` element: its text is the summary and its children's whole document the content. */
  lemma ToggleHoldsChildren(m: Context, b: Block)
    requires b.payload.Some?
    ensures var open := "<details>\n<summary>" + RichTextMarkdown(m.idToSlug, b.payload.value.richText) + "</summary>\n\n";
            var t := Toggle(m, b);
            && StartsWith(t, open) && EndsWith(t, "\n</details>")
            && t[|open|..|t| - 11] == Markdown(m, b.Kids())
  {
    assert b.Kids() == [] ==> Markdown(m, b.Kids()) == "";
  }

  /**
   * A bookmark with a URL is a list item linking to it in a new tab; its shown
   * text, the caption or else the URL, is escaped and reads back unchanged.
   * Without a URL it is nothing.
   */
  lemma BookmarkLink(b: Block)
    ensures b.payload.None? || b.payload.value.url == "" ==> Bookmark(b) == ""
    ensures b.payload.Some? && b.payload.value.url != "" ==>
              var url := b.payload.value.url;
              var caption := PlainText(b.payload.value.caption);
              exists e :: && Bookmark(b) == "- <a href=\"" + url + "\" target=\"_blank\" rel=\"noopener noreferrer\">" + e + "</a>"
                          && '<' !in e && '>' !in e
                          && Unescape(e) == (if caption != "" then caption else url)
  {
    if b.payload.Some? && b.payload.value.url != "" {
      var url := b.payload.value.url;
      var caption := PlainText(b.payload.value.caption);
      var shown := if caption != "" then caption else url;
      EscapeRoundTrip(shown);
      assert Bookmark(b) == ExternalListLink(url, shown);
    }
  }

  /** A link preview renders exactly as a bookmark of the same URL without a caption. */
  lemma LinkPreviewIsBareBookmark(b: Block)
    requires b.payload.Some?
    ensures LinkPreview(b) == Bookmark(b.(payload := Some(b.payload.value.(caption := []))))
  {
  }

  /**
   * The converters that call `download_media` with three arguments raise
   * exactly when they reach it: an image with any URL, a file-hosted video or
   * audio with a URL. External video and audio never raise.
   */
  lemma MediaRaisesExactlyWhenDownloading(m: Context, b: Block)
    ensures Image(b).Err? <==> b.payload.Some? && MediaUrl(b.payload.value) != ""
    ensures Video(m, b).Err? <==>
              b.payload.Some? && b.payload.value.sourceType != "external" && b.payload.value.fileUrl != ""
    ensures Audio(b).Err? <==>
              b.payload.Some? && b.payload.value.sourceType != "external" && b.payload.value.fileUrl != ""
  {
  }

  /** A YouTube URL gives the same output as an external video and as an embed. */
  lemma YoutubeVideoMatchesEmbed(m: Context, video: Block, embed: Block, url: string)
    requires video.payload.Some? && video.payload.value.sourceType == "external" && video.payload.value.externalUrl == url
    requires embed.payload.Some? && embed.payload.value.url == url
    requires Contains(url, "youtube.com") || Contains(url, "youtu.be")
    requires !Contains(url, "twitter.com") && !Contains(url, "x.com")
    ensures Video(m, video) == Ok(Embed(m, embed))
  {
    assert url != "";
  }

  /**
   * The tweet test is a substring test: an embed whose URL merely contains
   * `x.com`, a Dropbox link for one, takes the tweet branch and is dropped
   * when no tweet id is found in it.
   */
  lemma XComEmbedTakenForTweet(m: Context, b: Block)
    requires b.payload.Some? && Contains(b.payload.value.url, "x.com")
    requires m.tweetId(b.payload.value.url).None?
    ensures Embed(m, b) == ""
  {
  }

  /** `https://www.dropbox.com/s/clip.mp4` is such a link: `x.com` sits inside `dropbox.com`. */
  lemma DropboxLinkContainsXCom()
    ensures Contains("https://www.dropbox.com/s/clip.mp4", "x.com")
  {
    assert OccursAt("https://www.dropbox.com/s/clip.mp4", "x.com", 18);
  }

  /**
   * A PDF and a file link are Markdown links to the media URL, and nothing
   * without one. With a caption the two differ only in their icon; without,
   * a file link shows the last path segment of its URL, a `/`-free suffix of it.
   */
  lemma AttachmentLinks(b: Block)
    ensures Pdf(b) == "" <==> b.payload.None? || MediaUrl(b.payload.value) == ""
    ensures FileLink(b) == "" <==> b.payload.None? || MediaUrl(b.payload.value) == ""
    ensures b.payload.Some? && MediaUrl(b.payload.value) != "" && PlainText(b.payload.value.caption) != "" ==>
              Pdf(b)[0] == '📄' && FileLink(b)[0] == '📎' && Pdf(b)[1..] == FileLink(b)[1..]
    ensures b.payload.Some? && MediaUrl(b.payload.value) != "" && PlainText(b.payload.value.caption) == "" ==>
              var url := MediaUrl(b.payload.value);
              && FileLink(b) == "📎 [" + LastSegment(url) + "](" + url + ")"
              && '/' !in LastSegment(url) && EndsWith(url, LastSegment(url))
  {
    if b.payload.Some? {
      LastPieceIsSuffix(MediaUrl(b.payload.value), '/');
    }
  }
}
