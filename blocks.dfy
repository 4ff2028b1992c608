/**
 * Notion content as the synchroniser sees it: rich-text runs and blocks,
 * each block carrying the payload stored under its type name and, once
 * fetched, its children.
 */
module Blocks {
  import opened Wrappers

  /** The `annotations` object of a rich-text run; `color` is `"default"` when absent. */
  datatype Annotations = Annotations(bold: bool, italic: bool, strikethrough: bool,
                                     underline: bool, code: bool, color: string)

  /** One rich-text run: its `plain_text`, its `href` (JSON `null` or absent is `None`) and its annotations. */
  datatype RichText = RichText(plainText: string, href: Option<string>, annotations: Annotations)

  /** A callout's `icon`: absent, `null` or not an object; an emoji icon (its `emoji` key may be absent); anything else. */
  datatype Icon = NoIcon | EmojiIcon(emoji: Option<string>) | OtherIcon

  /**
   * The object stored under a block's type name. Keys a block type does not use
   * take the defaults the converters read them with: `[]`, `""`, `false`, `NoIcon`.
   * `sourceType` is the media `type` (`external` or `file`); `externalUrl` and
   * `fileUrl` are `external.url` and `file.url`.
   */
  datatype Payload = Payload(
    richText: seq<RichText>,
    language: string,
    sourceType: string,
    externalUrl: string,
    fileUrl: string,
    caption: seq<RichText>,
    expression: string,
    icon: Icon,
    url: string,
    hasColumnHeader: bool,
    cells: seq<seq<RichText>>)

  /**
   * A block. `payload` is `None` when the object under the type name is absent
   * or empty; `children` is `NoChildrenKey` when the block has no `children` key, which
   * the fetcher adds exactly to the blocks with `has_children`.
   */
  datatype Block = Block(id: Option<string>, blockType: string, payload: Option<Payload>,
                         hasChildren: bool, children: ChildrenField)
  {
    /** `block.get('children', [])` */
    function Kids(): (r: seq<Block>)
      ensures children.NoChildrenKey? ==> r == []
      ensures children.Present? ==> r == children.blocks
    {
      if children.Present? then children.blocks else []
    }
  }

  /** The `children` key of a block: absent, or the list the fetcher stored there. */
  datatype ChildrenField = NoChildrenKey | Present(blocks: seq<Block>)

  /** A payload with every key at its default, to be updated with the keys a test needs. */
  const EmptyPayload: Payload := Payload([], "", "", "", "", [], "", NoIcon, "", false, [])

  const PlainStyle: Annotations := Annotations(false, false, false, false, false, "default")
}
