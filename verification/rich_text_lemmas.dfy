/** What the rich-text renderer guarantees: the shape of each node it emits,
    that the emitted tree is safe by construction, and that the author's text
    arrives whole, once and in order. */
module RichTextLemmas {
  import opened Wrappers
  import opened RichText
  import Viewport

  /* ---------- the shape of inline output ---------- */

  /** The style of a plain text node: one declaration per set flag, the
      decorations joined underline first. */
  lemma TextStyleShape(n: RtNode)
    ensures var st := TextStyle(n);
      && st.Keys <= {"fontWeight", "fontStyle", "textDecoration"}
      && ("fontWeight" in st <==> n.bold)
      && (n.bold ==> st["fontWeight"] == "600")
      && ("fontStyle" in st <==> n.italic)
      && (n.italic ==> st["fontStyle"] == "italic")
      && ("textDecoration" in st <==> n.underline || n.strikethrough)
      && (n.underline && n.strikethrough ==> st["textDecoration"] == "underline line-through")
      && (n.underline && !n.strikethrough ==> st["textDecoration"] == "underline")
      && (!n.underline && n.strikethrough ==> st["textDecoration"] == "line-through")
  {
    if n.underline && n.strikethrough {
      assert Decorations(n) == ["underline", "line-through"];
      assert JoinSpaces(["line-through"]) == "line-through";
    }
  }

  /** A text node becomes exactly one leaf element with no attributes and no
      nested elements: a bare `code` element when `code` is set, otherwise a
      `span` whose style is the sum of its independent flags, the decorations
      joined underline first. */
  lemma TextNodeShape(n: RtNode)
    requires n.kind == "text"
    ensures |RenderInline(n)| == 1
    ensures var d := RenderInline(n)[0];
      && d.Element?
      && d.attrs == map[]
      && (forall i :: 0 <= i < |d.children| ==> d.children[i] == Text(n.text.GetOr("")))
      && NodeDomText(d) == n.text.GetOr("")
      && (n.code ==> d.tag == "code" && d.style == map[])
      && (!n.code ==>
          && d.tag == "span"
          && d.style.Keys <= {"fontWeight", "fontStyle", "textDecoration"}
          && ("fontWeight" in d.style <==> n.bold)
          && (n.bold ==> d.style["fontWeight"] == "600")
          && ("fontStyle" in d.style <==> n.italic)
          && (n.italic ==> d.style["fontStyle"] == "italic")
          && ("textDecoration" in d.style <==> n.underline || n.strikethrough)
          && (n.underline && n.strikethrough ==> d.style["textDecoration"] == "underline line-through")
          && (n.underline && !n.strikethrough ==> d.style["textDecoration"] == "underline")
          && (!n.underline && n.strikethrough ==> d.style["textDecoration"] == "line-through"))
  {
    TextStyleShape(n);
    var t := n.text.GetOr("");
    if t != "" {
      assert DomText([Text(t)]) == t + DomText([]);
    }
  }

  /** A link becomes one anchor that opens in a new browsing context with
      neither opener nor referrer, points at the node's url (or `#` when it is
      missing or empty) and wraps the rendering of the node's children. */
  lemma LinkShape(n: RtNode)
    requires n.kind == "link"
    ensures |RenderInline(n)| == 1
    ensures var d := RenderInline(n)[0];
      && d.Element?
      && d.tag == "a"
      && d.attrs.Keys == {"href", "target", "rel"}
      && d.attrs["target"] == "_blank"
      && d.attrs["rel"] == "noopener noreferrer"
      && (Truthy(n.url) ==> d.attrs["href"] == n.url.value)
      && (!Truthy(n.url) ==> d.attrs["href"] == "#")
      && d.style == map[]
      && d.children == RenderChildren(n.children)
  {
  }

  /** A node without a type is skipped; a node of any other unknown type
      degrades to the rendering of its children (nothing when it has none). */
  lemma UnknownInlineDegrades(n: RtNode)
    requires n.kind != "text" && n.kind != "link"
    ensures n.kind == "" ==> RenderInline(n) == []
    ensures n.kind != "" ==> RenderInline(n) == RenderChildren(n.children)
    ensures n.children.Missing? || n.children.NonArray? ==> RenderInline(n) == []
  {
  }

  /* ---------- the shape of block output ---------- */

  /** The heading tag is `h` followed by the declared level when that lies in
      1..6, and `h3` for any other level or none. */
  lemma HeadingTagFollowsLevel(level: Option<int>)
    ensures HeadingTag(level) in HeadingTags
    ensures level.Some? && 1 <= level.value <= 6 ==> HeadingTag(level) == HeadingTags[level.value - 1]
    ensures !(level.Some? && 1 <= level.value <= 6) ==> HeadingTag(level) == "h3"
  {
    var l := HeadingLevel(level);
    if l == 1 { assert HeadingTag(level) == "h1"; }
    else if l == 2 { assert HeadingTag(level) == "h2"; }
    else if l == 3 { assert HeadingTag(level) == "h3"; }
    else if l == 4 { assert HeadingTag(level) == "h4"; }
    else if l == 5 { assert HeadingTag(level) == "h5"; }
    else { assert HeadingTag(level) == "h6"; }
  }

  /** The element a typed block becomes: the tag its type selects, its
      children rendered by the inline renderer (a list gets one `li` per
      non-null item instead), and the animation attributes, with their
      defaults, exactly when motion is enabled. */
  lemma BlockShape(n: RtNode, motion: bool)
    requires n.kind != ""
    ensures var d := RenderBlock(n, motion);
      && d.Element?
      && d.style == map[]
      && (n.kind == "heading" ==>
            && d.tag in HeadingTags
            && (n.level.Some? && 1 <= n.level.value <= 6 ==> d.tag == HeadingTags[n.level.value - 1])
            && (!(n.level.Some? && 1 <= n.level.value <= 6) ==> d.tag == "h3")
            && d.children == RenderChildren(n.children))
      && (n.kind == "paragraph" ==> d.tag == "p" && d.children == RenderChildren(n.children))
      && (n.kind == "list" ==>
            && (d.tag == "ol" <==> n.format == Some("ordered"))
            && (d.tag == "ul" <==> n.format != Some("ordered"))
            && (n.children.Array? ==> |d.children| == |NonNull(n.children.items)|)
            && (!n.children.Array? ==> d.children == [])
            && forall i :: 0 <= i < |d.children| ==> d.children[i].Element? && d.children[i].tag == "li")
      && (n.kind != "heading" && n.kind != "paragraph" && n.kind != "list" ==>
            d.tag == "div" && d.children == RenderChildren(n.children))
      && (motion ==>
            && d.attrs.Keys == {"data-aos", "data-aos-duration"}
            && d.attrs["data-aos"] == (if Truthy(n.aos) then n.aos.value else "fade-up")
            && d.attrs["data-aos-duration"] == (if Truthy(n.aosDuration) then n.aosDuration.value else "700"))
      && (!motion ==> d.attrs == map[])
  {
    HeadingTagFollowsLevel(n.level);
  }

  /* ---------- safety of the emitted tree ---------- */

  const AllowedTags: set<string> :=
    {"div", "p", "h1", "h2", "h3", "h4", "h5", "h6", "ol", "ul", "li", "span", "code", "a"}

  const AllowedAttrs: set<string> := {"href", "target", "rel", "data-aos", "data-aos-duration"}

  const AllowedStyles: set<string> := {"fontWeight", "fontStyle", "textDecoration"}

  /** Every element has a tag, attributes and style properties from fixed
      lists, author text sits only in text nodes, only anchors carry `href`,
      and every anchor opens in a new context without opener or referrer. */
  ghost predicate SafeNode(d: Dom)
    decreases d
  {
    match d
    case Text(_) => true
    case Element(tag, attrs, style, kids) =>
      && tag in AllowedTags
      && attrs.Keys <= AllowedAttrs
      && style.Keys <= AllowedStyles
      && ("href" in attrs <==> tag == "a")
      && (tag == "a" ==>
            && "target" in attrs && attrs["target"] == "_blank"
            && "rel" in attrs && attrs["rel"] == "noopener noreferrer")
      && forall i :: 0 <= i < |kids| ==> SafeNode(kids[i])
  }

  ghost predicate AllSafe(ds: seq<Dom>) {
    forall i :: 0 <= i < |ds| ==> SafeNode(ds[i])
  }

  lemma {:induction false} ChildrenSafe(f: Field)
    ensures AllSafe(RenderChildren(f))
    decreases f
  {
    match f
    case Missing =>
    case NonArray =>
    case Array(items) => SlotsSafe(items);
  }

  lemma {:induction false} SlotsSafe(s: seq<Slot>)
    ensures AllSafe(RenderSlots(s))
    decreases s
  {
    if s != [] {
      SlotSafe(s[0]);
      SlotsSafe(s[1..]);
      var a, b := RenderSlot(s[0]), RenderSlots(s[1..]);
      assert RenderSlots(s) == a + b;
      forall i | 0 <= i < |a + b|
        ensures SafeNode((a + b)[i])
      {
        if i < |a| { assert (a + b)[i] == a[i]; } else { assert (a + b)[i] == b[i - |a|]; }
      }
    }
  }

  lemma {:induction false} SlotSafe(slot: Slot)
    ensures AllSafe(RenderSlot(slot))
    decreases slot
  {
    match slot
    case Nullish =>
    case Obj(n) => InlineSafe(n);
  }

  lemma {:induction false} InlineSafe(n: RtNode)
    ensures AllSafe(RenderInline(n))
    decreases n
  {
    if n.kind == "" {
    } else if n.kind == "text" {
      TextNodeShape(n);
      var d := RenderText(n);
      assert forall i :: 0 <= i < |d.children| ==> SafeNode(d.children[i]);
      assert SafeNode(d);
    } else {
      ChildrenSafe(n.children);
      if n.kind == "link" {
        var d := Element("a", LinkAttrs(n.url), map[], RenderChildren(n.children));
        assert SafeNode(d);
      }
    }
  }

  lemma BlockSafe(n: RtNode, motion: bool)
    requires n.kind != ""
    ensures SafeNode(RenderBlock(n, motion))
  {
    BlockShape(n, motion);
    var d := RenderBlock(n, motion);
    if n.kind == "list" {
      if n.children.Array? {
        var s := n.children.items;
        forall i | 0 <= i < |d.children|
          ensures SafeNode(d.children[i])
        {
          ChildrenSafe(NonNull(s)[i].children);
        }
      }
    } else {
      ChildrenSafe(n.children);
    }
  }

  /** Whatever the author wrote, the rendered document is made of safe
      elements only: the structural defence against markup injection. */
  lemma RenderRichTextSafe(blocks: Field, width: int)
    ensures AllSafe(RenderRichText(blocks, width))
  {
    var r := RenderRichText(blocks, width);
    if r != [] {
      var kids := r[0].children;
      forall i | 0 <= i < |kids|
        ensures SafeNode(kids[i])
      {
        BlockSafe(Kept(blocks.items)[i], Viewport.MotionEnabled(width));
      }
      assert SafeNode(r[0]);
    }
  }

  /* ---------- the author's text arrives whole ---------- */

  /** The text content of emitted nodes, in document order. */
  function DomText(ds: seq<Dom>): string
    decreases ds
  {
    if ds == [] then "" else NodeDomText(ds[0]) + DomText(ds[1..])
  }

  function NodeDomText(d: Dom): string
    decreases d
  {
    match d
    case Text(s) => s
    case Element(_, _, _, kids) => DomText(kids)
  }

  /** The text an author put in inline nodes the renderer reaches: the
      `text ?? ''` of text nodes, and the text under links and unknown nodes. */
  function FieldText(f: Field): string
    decreases f
  {
    match f
    case Missing => ""
    case NonArray => ""
    case Array(items) => SlotsText(items)
  }

  function SlotsText(s: seq<Slot>): string
    decreases s
  {
    if s == [] then "" else SlotText(s[0]) + SlotsText(s[1..])
  }

  function SlotText(slot: Slot): string
    decreases slot
  {
    match slot
    case Nullish => ""
    case Obj(n) => NodeText(n)
  }

  function NodeText(n: RtNode): string
    decreases n
  {
    if n.kind == "" then ""
    else if n.kind == "text" then n.text.GetOr("")
    else FieldText(n.children)
  }

  /** The text of a block: that of its children, or for a list that of each
      non-null item's children. */
  function BlockText(n: RtNode): string {
    if n.kind == "list" then (if n.children.Array? then ItemsText(n.children.items) else "")
    else FieldText(n.children)
  }

  function ItemsText(s: seq<Slot>): string
    decreases |s|
  {
    if s == [] then ""
    else (if s[0].Obj? then FieldText(s[0].node.children) else "") + ItemsText(s[1..])
  }

  function BlocksText(s: seq<Slot>): string
    decreases |s|
  {
    if s == [] then ""
    else (if s[0].Obj? && s[0].node.kind != "" then BlockText(s[0].node) else "") + BlocksText(s[1..])
  }

  function DocumentText(blocks: Field): string {
    if blocks.Array? then BlocksText(blocks.items) else ""
  }

  lemma {:induction false} DomTextAppend(a: seq<Dom>, b: seq<Dom>)
    ensures DomText(a + b) == DomText(a) + DomText(b)
    decreases |a|
  {
    if a == [] {
      assert a + b == b;
    } else {
      assert (a + b)[0] == a[0];
      assert (a + b)[1..] == a[1..] + b;
      DomTextAppend(a[1..], b);
    }
  }

  lemma DomTextSingle(d: Dom)
    ensures DomText([d]) == NodeDomText(d)
  {
    assert [d][1..] == [];
  }

  lemma {:induction false} ChildrenText(f: Field)
    ensures DomText(RenderChildren(f)) == FieldText(f)
    decreases f
  {
    match f
    case Missing =>
    case NonArray =>
    case Array(items) => SlotsTextPreserved(items);
  }

  lemma {:induction false} SlotsTextPreserved(s: seq<Slot>)
    ensures DomText(RenderSlots(s)) == SlotsText(s)
    decreases s
  {
    if s != [] {
      DomTextAppend(RenderSlot(s[0]), RenderSlots(s[1..]));
      SlotTextPreserved(s[0]);
      SlotsTextPreserved(s[1..]);
    }
  }

  lemma {:induction false} SlotTextPreserved(slot: Slot)
    ensures DomText(RenderSlot(slot)) == SlotText(slot)
    decreases slot
  {
    match slot
    case Nullish =>
    case Obj(n) => InlineTextPreserved(n);
  }

  /** The renderer neither drops, duplicates nor reorders the text of the
      inline nodes it reaches. */
  lemma {:induction false} InlineTextPreserved(n: RtNode)
    ensures DomText(RenderInline(n)) == NodeText(n)
    decreases n
  {
    if n.kind == "" {
    } else if n.kind == "text" {
      TextNodeShape(n);
      DomTextSingle(RenderText(n));
    } else {
      ChildrenText(n.children);
      if n.kind == "link" {
        DomTextSingle(Element("a", LinkAttrs(n.url), map[], RenderChildren(n.children)));
      }
    }
  }

  lemma {:induction false} ListItemsText(s: seq<Slot>)
    ensures DomText(ListItems(s)) == ItemsText(s)
    decreases |s|
  {
    if s != [] {
      var head := if s[0].Obj? then [Element("li", map[], map[], RenderChildren(s[0].node.children))] else [];
      assert ListItems(s) == head + ListItems(s[1..]);
      DomTextAppend(head, ListItems(s[1..]));
      if s[0].Obj? {
        DomTextSingle(head[0]);
        ChildrenText(s[0].node.children);
      }
      ListItemsText(s[1..]);
    }
  }

  lemma BlockTextPreserved(n: RtNode, motion: bool)
    ensures NodeDomText(RenderBlock(n, motion)) == BlockText(n)
  {
    if n.kind == "list" {
      if n.children.Array? {
        ListItemsText(n.children.items);
      }
    } else {
      ChildrenText(n.children);
    }
  }

  lemma {:induction false} BlocksTextPreserved(s: seq<Slot>, motion: bool)
    ensures DomText(RenderBlocks(s, motion)) == BlocksText(s)
    decreases |s|
  {
    if s != [] {
      var head := if s[0].Obj? && s[0].node.kind != "" then [RenderBlock(s[0].node, motion)] else [];
      assert RenderBlocks(s, motion) == head + RenderBlocks(s[1..], motion);
      DomTextAppend(head, RenderBlocks(s[1..], motion));
      if head != [] {
        DomTextSingle(head[0]);
        BlockTextPreserved(s[0].node, motion);
      }
      BlocksTextPreserved(s[1..], motion);
    }
  }

  /** All the text of a document reaches the page, in order, on every
      viewport. */
  lemma RenderRichTextKeepsText(blocks: Field, width: int)
    ensures DomText(RenderRichText(blocks, width)) == DocumentText(blocks)
  {
    if blocks.Array? && blocks.items != [] {
      var motion := Viewport.MotionEnabled(width);
      var div := Element("div", map[], map[], RenderBlocks(blocks.items, motion));
      DomTextSingle(div);
      BlocksTextPreserved(blocks.items, motion);
    }
  }

  /* ---------- examples ---------- */

  /** A heading declared at level 9 renders as `h3` and keeps its text. */
  lemma OutOfRangeHeadingExample()
    ensures var hi := Bare("text").(text := Some("Hi"));
      var heading := Bare("heading").(level := Some(9), children := Array([Obj(hi)]));
      var r := RenderRichText(Array([Obj(heading)]), 500);
      && |r| == 1
      && |r[0].children| == 1
      && r[0].children[0].tag == "h3"
      && DomText(r) == "Hi"
  {
    var hi := Bare("text").(text := Some("Hi"));
    var heading := Bare("heading").(level := Some(9), children := Array([Obj(hi)]));
    var h := HeadingExampleBlock();
    assert RenderBlocks([Obj(heading)], false) == [h] + RenderBlocks([], false);
    assert RenderBlocks([], false) == [];
    assert RenderBlocks([Obj(heading)], false) == [h];
    assert !Viewport.MotionEnabled(500);
    assert RenderRichText(Array([Obj(heading)]), 500) == [Element("div", map[], map[], RenderBlocks([Obj(heading)], false))];
    var r := RenderRichText(Array([Obj(heading)]), 500);
    assert r == [Element("div", map[], map[], [h])];
    assert r[0].children[0] == h;
    HeadingExampleText(h);
  }

  /** The heading block of the example above, rendered without motion. */
  lemma HeadingExampleBlock() returns (h: Dom)
    ensures var hi := Bare("text").(text := Some("Hi"));
      var heading := Bare("heading").(level := Some(9), children := Array([Obj(hi)]));
      && h == RenderBlock(heading, false)
      && h == Element("h3", map[], map[], [Element("span", map[], map[], [Text("Hi")])])
  {
    var hi := Bare("text").(text := Some("Hi"));
    var heading := Bare("heading").(level := Some(9), children := Array([Obj(hi)]));
    var span := Element("span", map[], map[], [Text("Hi")]);
    assert RenderText(hi) == span;
    assert RenderSlots([Obj(hi)]) == [span] + RenderSlots([]);
    HeadingTagFollowsLevel(Some(9));
    h := RenderBlock(heading, false);
  }

  lemma HeadingExampleText(h: Dom)
    requires h == Element("h3", map[], map[], [Element("span", map[], map[], [Text("Hi")])])
    ensures DomText([Element("div", map[], map[], [h])]) == "Hi"
  {
    var span := Element("span", map[], map[], [Text("Hi")]);
    assert DomText([Text("Hi")]) == "Hi" + DomText([]);
    assert DomText([span]) == "Hi" + DomText([]);
    assert DomText([h]) == "Hi" + DomText([]);
  }

  /** `renderRichTextDOM([])`, `renderRichTextDOM(null)` and `renderRichTextDOM({})` give an empty fragment. */
  lemma EmptyInputExample(width: int)
    ensures RenderRichText(Array([]), width) == []
    ensures RenderRichText(Missing, width) == []
    ensures RenderRichText(NonArray, width) == []
  {
  }
}
