/** The list branch of `renderRichTextDOM` exactly as assets/js/script.js
    writes it: `(block.children || []).forEach(item => ... item.children ...)`.
    A truthy `children` that is not an array has no `forEach`, and a `null`
    item has no `children`: either throws a TypeError out of the whole render,
    and `None` stands for that throw. The rest of the model renders such lists
    as if the bad values were absent (`RichText.ListItems`). */
module RichTextAsWritten {
  import opened Wrappers
  import opened RichText
  import Viewport

  /** The items of a list as written: `None` as soon as an item is null. */
  function ItemsAsWritten(s: seq<Slot>): (r: Option<seq<Dom>>)
    ensures r.Some? <==> Nullish !in s
    ensures r.Some? ==> r.value == ListItems(s)
  {
    if s == [] then Some([])
    else if s[0].Nullish? then None
    else
      var rest := ItemsAsWritten(s[1..]);
      if rest.None? then None
      else Some([Element("li", map[], map[], RenderChildren(s[0].node.children))] + rest.value)
  }

  /** A list block the written code throws on. */
  predicate ThrowsOn(n: RtNode) {
    n.kind == "list" && (n.children.NonArray? || (n.children.Array? && Nullish in n.children.items))
  }

  function BlockAsWritten(n: RtNode, motion: bool): (r: Option<Dom>)
    ensures r.None? <==> ThrowsOn(n)
    ensures r.Some? ==> r.value == RenderBlock(n, motion)
  {
    if n.kind == "list" then
      match n.children
      case Missing => Some(RenderBlock(n, motion))
      case NonArray => None
      case Array(items) =>
        var li := ItemsAsWritten(items);
        if li.None? then None
        else Some(Element(BlockTag(n), MotionAttrs(n, motion), map[], li.value))
    else Some(RenderBlock(n, motion))
  }

  /** The blocks as written: one throwing block aborts them all. */
  function BlocksAsWritten(s: seq<Slot>, motion: bool): (r: Option<seq<Dom>>)
    ensures r.None? <==> exists n :: n in Kept(s) && ThrowsOn(n)
    ensures r.Some? ==> r.value == RenderBlocks(s, motion)
  {
    if s == [] then Some([])
    else
      var rest := BlocksAsWritten(s[1..], motion);
      if s[0].Obj? && s[0].node.kind != "" then
        var b := BlockAsWritten(s[0].node, motion);
        assert Kept(s) == [s[0].node] + Kept(s[1..]);
        if b.None? || rest.None? then None else Some([b.value] + rest.value)
      else
        assert Kept(s) == Kept(s[1..]);
        rest
  }

  /** `renderRichTextDOM` as written: it throws exactly when some rendered
      list block has a non-array `children` or a null item, and otherwise
      agrees with the model's renderer. */
  function RenderRichTextAsWritten(blocks: Field, width: int): (r: Option<seq<Dom>>)
    ensures r.None? <==>
      blocks.Array? && exists n :: n in Kept(blocks.items) && ThrowsOn(n)
    ensures r.Some? ==> r.value == RenderRichText(blocks, width)
  {
    if blocks.Array? && blocks.items != [] then
      var bs := BlocksAsWritten(blocks.items, Viewport.MotionEnabled(width));
      if bs.None? then None else Some([Element("div", map[], map[], bs.value)])
    else Some([])
  }

  /** A paragraph followed by a list with one null item: the written code
      throws, so the paragraph is lost too, while the model renders the
      paragraph and an empty `ul`. */
  lemma NullListItemAbortsRender()
    ensures RenderRichTextAsWritten(Array([Obj(Bare("paragraph")), Obj(Bare("list").(children := Array([Nullish])))]), 1024).None?
    ensures var list := Bare("list").(children := Array([Nullish]));
      RenderRichText(Array([Obj(Bare("paragraph")), Obj(list)]), 1024)
      == [Element("div", map[], map[], [RenderBlock(Bare("paragraph"), true), RenderBlock(list, true)])]
    ensures var list := Bare("list").(children := Array([Nullish]));
      RenderBlock(list, true).tag == "ul" && RenderBlock(list, true).children == []
  {
    var para := Bare("paragraph");
    var list := Bare("list").(children := Array([Nullish]));
    var s := [Obj(para), Obj(list)];
    assert s[1..] == [Obj(list)];
    assert Kept(s[1..]) == [list] + Kept([]);
    assert Kept(s) == [para, list];
    assert ThrowsOn(list);
    assert BlockAsWritten(list, true).None?;
    assert BlocksAsWritten(s, true).None?;
    assert ListItems([Nullish]) == [] + ListItems([]);
    assert Viewport.MotionEnabled(1024);
    assert RenderBlocks(s[1..], true) == [RenderBlock(list, true)] + RenderBlocks([], true);
    assert RenderBlocks(s, true) == [RenderBlock(para, true)] + RenderBlocks(s[1..], true);
    assert RenderBlocks(s, true) == [RenderBlock(para, true), RenderBlock(list, true)];
    assert RenderRichText(Array(s), 1024) == [Element("div", map[], map[], RenderBlocks(s, true))];
  }
}
