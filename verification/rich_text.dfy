/** The rich-text renderer (`renderRichTextDOM` and `renderChildrenDOM`): from
    the content API's block/inline tree to a tree of DOM elements built node by
    node, never from a markup string. */
module RichText {
  import opened Wrappers
  import Viewport

  /** The value of a `children` property, or of the blocks argument: absent or
      falsy, a truthy value that is not an array, or an array. */
  datatype Field = Missing | NonArray | Array(items: seq<Slot>)

  /** An array element: `null`/`undefined`, or any other value, read through
      the properties it has (a primitive has none). */
  datatype Slot = Nullish | Obj(node: RtNode)

  /** A block or inline node, as the renderer reads it, property by property.
      `kind` is the `type` property ("" when absent or empty); a flag is
      `true` when the property is truthy. */
  datatype RtNode = RtNode(
    kind: string,
    level: Option<int>,
    format: Option<string>,
    text: Option<string>,
    url: Option<string>,
    bold: bool,
    italic: bool,
    underline: bool,
    strikethrough: bool,
    code: bool,
    children: Field,
    aos: Option<string>,
    aosDuration: Option<string>)

  /** A node of the given type with no other properties. */
  function Bare(kind: string): RtNode {
    RtNode(kind, None, None, None, None, false, false, false, false, false, Missing, None, None)
  }

  /** The produced DOM: elements with attributes, inline style declarations
      (by their `style` property names) and children, and text nodes. */
  datatype Dom =
    | Element(tag: string, attrs: map<string, string>, style: map<string, string>, children: seq<Dom>)
    | Text(data: string)

  /** The children an element gets from `textContent = s`: none for "". */
  function TextContent(s: string): seq<Dom> {
    if s == "" then [] else [Text(s)]
  }

  /* ---------- inline nodes ---------- */

  /** The text-decoration keywords of a text node, underline first. */
  function Decorations(n: RtNode): seq<string> {
    (if n.underline then ["underline"] else []) + (if n.strikethrough then ["line-through"] else [])
  }

  /** `parts.join(' ')`. */
  function JoinSpaces(parts: seq<string>): string
    decreases |parts|
  {
    if parts == [] then ""
    else if |parts| == 1 then parts[0]
    else parts[0] + " " + JoinSpaces(parts[1..])
  }

  /** The inline style of a plain text node; the flags add up independently. */
  function TextStyle(n: RtNode): map<string, string> {
    var weight := if n.bold then map["fontWeight" := "600"] else map[];
    var slant := if n.italic then weight["fontStyle" := "italic"] else weight;
    if Decorations(n) != [] then slant["textDecoration" := JoinSpaces(Decorations(n))] else slant
  }

  /** A text node: `code` gives a bare `code` element, anything else a styled
      `span`; the text is `text ?? ''`. */
  function RenderText(n: RtNode): Dom {
    if n.code then Element("code", map[], map[], TextContent(n.text.GetOr("")))
    else Element("span", map[], TextStyle(n), TextContent(n.text.GetOr("")))
  }

  /** The attributes of a link: its url (or `#`), opened in a new browsing
      context without opener or referrer. */
  function LinkAttrs(url: Option<string>): map<string, string> {
    map["href" := (if Truthy(url) then url.value else "#"),
        "target" := "_blank",
        "rel" := "noopener noreferrer"]
  }

  /** A node a `renderChildrenDOM` fragment receives directly: a `span`, a
      `code` or an `a` element, never a bare text node. */
  predicate InlineTop(d: Dom) {
    d.Element? && (d.tag == "span" || d.tag == "code" || d.tag == "a")
  }

  /** `renderChildrenDOM`: a missing or non-array value renders nothing, and
      whatever is rendered is a run of `span`, `code` and `a` elements. */
  function RenderChildren(f: Field): (r: seq<Dom>)
    ensures !f.Array? ==> r == []
    ensures forall i :: 0 <= i < |r| ==> InlineTop(r[i])
    decreases f
  {
    match f
    case Missing => []
    case NonArray => []
    case Array(items) => RenderSlots(items)
  }

  /** The nodes of an array, rendered in order and concatenated. */
  function RenderSlots(s: seq<Slot>): (r: seq<Dom>)
    ensures forall i :: 0 <= i < |r| ==> InlineTop(r[i])
    decreases s
  {
    if s == [] then [] else RenderSlot(s[0]) + RenderSlots(s[1..])
  }

  /** An array element: nothing for `null`. */
  function RenderSlot(slot: Slot): (r: seq<Dom>)
    ensures slot.Nullish? ==> r == []
    ensures forall i :: 0 <= i < |r| ==> InlineTop(r[i])
    decreases slot
  {
    match slot
    case Nullish => []
    case Obj(n) => RenderInline(n)
  }

  /** One inline node: skipped without a type, a leaf for text, an anchor for
      a link, and for any other type whatever its children render to. */
  function RenderInline(n: RtNode): (r: seq<Dom>)
    ensures n.kind == "" ==> r == []
    ensures n.kind == "text" || n.kind == "link" ==> |r| == 1
    ensures forall i :: 0 <= i < |r| ==> InlineTop(r[i])
    decreases n
  {
    if n.kind == "" then []
    else if n.kind == "text" then [RenderText(n)]
    else if n.kind == "link" then [Element("a", LinkAttrs(n.url), map[], RenderChildren(n.children))]
    else RenderChildren(n.children)
  }

  /* ---------- blocks ---------- */

  /** `h1`..`h6` in order. */
  const HeadingTags: seq<string> := ["h1", "h2", "h3", "h4", "h5", "h6"]

  /** The declared level when it lies in 1..6, else 3. */
  function HeadingLevel(level: Option<int>): int {
    if level.Some? && 1 <= level.value <= 6 then level.value else 3
  }

  /** `h${level}`. */
  function HeadingTag(level: Option<int>): string {
    "h" + [('0' as int + HeadingLevel(level)) as char]
  }

  function BlockTag(n: RtNode): string {
    if n.kind == "heading" then HeadingTag(n.level)
    else if n.kind == "paragraph" then "p"
    else if n.kind == "list" then (if n.format == Some("ordered") then "ol" else "ul")
    else "div"
  }

  /** The non-null elements of an array, in order. */
  function NonNull(s: seq<Slot>): (r: seq<RtNode>)
    ensures |r| <= |s|
  {
    if s == [] then []
    else (if s[0].Obj? then [s[0].node] else []) + NonNull(s[1..])
  }

  /** The items of a list block: one `li` per non-null item, holding the
      rendering of the item's children. A `children` value that is not an
      array gives no items. */
  function ListItems(s: seq<Slot>): (r: seq<Dom>)
    ensures |r| == |NonNull(s)|
    ensures forall i :: 0 <= i < |r| ==>
      r[i] == Element("li", map[], map[], RenderChildren(NonNull(s)[i].children))
  {
    if s == [] then []
    else
      (if s[0].Obj? then [Element("li", map[], map[], RenderChildren(s[0].node.children))] else [])
      + ListItems(s[1..])
  }

  function BlockBody(n: RtNode): seq<Dom> {
    if n.kind == "list" then (if n.children.Array? then ListItems(n.children.items) else [])
    else RenderChildren(n.children)
  }

  /** The scroll-animation attributes of a top-level block, on wide viewports. */
  function MotionAttrs(n: RtNode, motion: bool): map<string, string> {
    if motion then
      map["data-aos" := (if Truthy(n.aos) then n.aos.value else "fade-up"),
          "data-aos-duration" := (if Truthy(n.aosDuration) then n.aosDuration.value else "700")]
    else map[]
  }

  /** One top-level block: the element its type selects, carrying exactly the
      two animation attributes when motion is on and none otherwise, with no
      inline style. */
  function RenderBlock(n: RtNode, motion: bool): (d: Dom)
    ensures d.Element? && d.tag == BlockTag(n) && d.style == map[]
    ensures motion ==> d.attrs.Keys == {"data-aos", "data-aos-duration"}
    ensures !motion ==> d.attrs == map[]
    ensures n.kind == "list" ==> forall i :: 0 <= i < |d.children| ==> d.children[i].Element? && d.children[i].tag == "li"
    ensures n.kind != "list" ==> forall i :: 0 <= i < |d.children| ==> InlineTop(d.children[i])
  {
    Element(BlockTag(n), MotionAttrs(n, motion), map[], BlockBody(n))
  }

  /** The blocks that are rendered: non-null and with a type, in order. */
  function Kept(s: seq<Slot>): (r: seq<RtNode>)
    ensures |r| <= |s|
    ensures forall i :: 0 <= i < |r| ==> r[i].kind != ""
  {
    if s == [] then []
    else (if s[0].Obj? && s[0].node.kind != "" then [s[0].node] else []) + Kept(s[1..])
  }

  /** Each kept block is rendered on its own, in order; the others leave no
      trace. */
  function RenderBlocks(s: seq<Slot>, motion: bool): (r: seq<Dom>)
    ensures |r| == |Kept(s)|
    ensures forall i :: 0 <= i < |r| ==> r[i] == RenderBlock(Kept(s)[i], motion)
  {
    if s == [] then []
    else
      (if s[0].Obj? && s[0].node.kind != "" then [RenderBlock(s[0].node, motion)] else [])
      + RenderBlocks(s[1..], motion)
  }

  /** `renderRichTextDOM`: anything but a non-empty array gives an empty
      fragment; otherwise one `div` wrapping the rendered blocks, each
      carrying the animation attributes exactly when the viewport is wider
      than the breakpoint. */
  function RenderRichText(blocks: Field, width: int): (r: seq<Dom>)
    ensures r == [] <==> !(blocks.Array? && blocks.items != [])
    ensures r != [] ==>
      && |r| == 1
      && r[0].Element?
      && r[0] == Element("div", map[], map[], r[0].children)
      && |r[0].children| == |Kept(blocks.items)|
      && forall i :: 0 <= i < |r[0].children| ==>
           && r[0].children[i].Element?
           && r[0].children[i].tag == BlockTag(Kept(blocks.items)[i])
           && ("data-aos" in r[0].children[i].attrs <==> width > 768)
           && ("data-aos-duration" in r[0].children[i].attrs <==> width > 768)
  {
    if blocks.Array? && blocks.items != [] then
      [Element("div", map[], map[], RenderBlocks(blocks.items, Viewport.MotionEnabled(width)))]
    else []
  }
}
