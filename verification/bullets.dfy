/** `addBulletList(items)`: one line per item, a bullet glyph followed by the
    item's text indented past the glyph, each item optionally a link. */
module Bullets {
  import opened Geometry
  import opened Pagination
  import opened Canvas

  /** A list item: a plain string, or a `{ label, link }` object whose link may
      be absent (`None`) or any string, the empty one included. */
  datatype Item = Plain(text: string) | Labeled(labelText: string, link: Option<string>)

  /** What an item is drawn as: its text and the link target it carries. */
  datatype Entry = Entry(text: string, link: Option<string>)

  /** The bullet as the source text spells it: the bytes of "• " (U+2022 and
      a space) as they read once decoded as Windows-1252. */
  const BulletSymbol: string := "\U{e2}\U{20ac}\U{a2} "

  /** Gap between the bullet glyph and the item text. */
  const BulletGap: real := 4.0

  /** A string item has no link; an object's label is its text and its link
      counts only when truthy, so an empty link string means "no link". */
  function Normalize(item: Item): (e: Entry)
    ensures item.Plain? ==> e == Entry(item.text, None)
    ensures item.Labeled? ==> e.text == item.labelText
    ensures e.link.Some? <==> item.Labeled? && item.link.Some? && item.link.value != ""
    ensures e.link.Some? ==> e.link == item.link
  {
    match item
    case Plain(s) => Entry(s, None)
    case Labeled(labelText, link) => Entry(labelText, if link.Some? && link.value != "" then link else None)
  }

  /** Indent of the item text: the measured bullet width plus the gap. */
  function TextIndent(m: Metrics): (indent: real)
    ensures ValidMetrics(m) ==> indent >= BulletGap
  {
    m.widthOf(BulletSymbol) + BulletGap
  }

  /** The glyph call every item begins with: continued, across the full
      content width. */
  function Glyph(g: PageGeometry, y: real): Op
  {
    Text(BulletSymbol, Flow(y), Style(None, false, 0.0, Some(ContentWidth(g)), true))
  }

  /** Call `t` is a bullet glyph of geometry `g`, on whichever line. */
  predicate DrawsGlyph(g: PageGeometry, t: Op)
  {
    t.Text? && t == Glyph(g, t.anchor.y)
  }

  /** Call `t` draws `item` as the list does: its normalised text and link,
      underlined exactly when it links, indented past the bullet, with indent
      and width together spanning the content width. */
  predicate DrawsItem(g: PageGeometry, m: Metrics, item: Item, t: Op)
  {
    && t.Text?
    && t.s == Normalize(item).text
    && t.style.link == Normalize(item).link
    && (t.style.underline <==> t.style.link.Some?)
    && t.style.indent == TextIndent(m)
    && t.style.width.Some?
    && t.style.indent + t.style.width.value == ContentWidth(g)
  }

  /** Calls `2 * i` and `2 * i + 1`, an item's glyph and text, are drawn
      in the flow on cursor line `tops[i]`. */
  predicate PairsOn(ops: seq<Op>, tops: seq<real>)
  {
    && |ops| == 2 * |tops|
    && forall i :: 0 <= i < |tops| ==> InFlow(ops[2 * i], tops[i]) && InFlow(ops[2 * i + 1], tops[i])
  }

  /** One item's line at cursor line `y`: the glyph, then the item's text. */
  function ItemLine(g: PageGeometry, m: Metrics, y: real, item: Item): seq<Op>
  {
    var e := Normalize(item);
    var indent := TextIndent(m);
    [ Glyph(g, y),
      Text(e.text, Flow(y), Style(e.link, e.link.Some?, indent, Some(ContentWidth(g) - indent), false)) ]
  }

  /** An item's line is the glyph continued on the same cursor line by the
      item's text, drawn as `DrawsItem` says. */
  lemma ItemLineShape(g: PageGeometry, m: Metrics, y: real, item: Item)
    ensures var line := ItemLine(g, m, y, item);
            && IsLine(line) && |line| == 2 && TopOf(line) == y
            && line[0] == Glyph(g, y)
            && line[1].anchor == Flow(y)
            && DrawsItem(g, m, item, line[1])
  {
    var line := ItemLine(g, m, y, item);
    assert line[1].anchor == Flow(y);
  }

  /** Where the items go: the first on `y`, each next one on the cursor line
      the previous one advanced to. */
  function ItemTops(g: PageGeometry, m: Metrics, y: real, items: seq<Item>): (p: Placement)
    ensures |p.tops| == |items|
    ensures |items| > 0 ==> p.tops[0] == y
    ensures forall i, j :: 0 <= i && j == i + 1 && j < |items| ==>
              p.tops[j] == p.tops[i] + m.lineAdvance(ItemLine(g, m, p.tops[i], items[i]))
    ensures |items| == 0 ==> p.end == y
    ensures |items| > 0 ==>
              p.end == p.tops[|items| - 1] + m.lineAdvance(ItemLine(g, m, p.tops[|items| - 1], items[|items| - 1]))
    decreases |items|
  {
    if |items| == 0 then Placement([], y)
    else
      var n := |items| - 1;
      var before := ItemTops(g, m, y, items[..n]);
      var top := before.end;
      var tops := before.tops + [top];
      assert forall i :: 0 <= i < n ==> tops[i] == before.tops[i] && items[..n][i] == items[i];
      Placement(tops, top + m.lineAdvance(ItemLine(g, m, top, items[n])))
  }

  /** The items' lines on the given cursor lines. */
  function ItemLines(g: PageGeometry, m: Metrics, tops: seq<real>, items: seq<Item>): (lines: seq<seq<Op>>)
    requires |tops| == |items|
    ensures |lines| == |items|
    ensures forall i :: 0 <= i < |items| ==> lines[i] == ItemLine(g, m, tops[i], items[i])
  {
    seq(|items|, i requires 0 <= i < |items| => ItemLine(g, m, tops[i], items[i]))
  }

  /** Items never move the cursor up: every item's line, and the list's end,
      lie at or below where the list started. */
  lemma ItemsFlowDown(g: PageGeometry, m: Metrics, y: real, items: seq<Item>)
    ensures var p := ItemTops(g, m, y, items);
            ValidMetrics(m) ==> y <= p.end && forall i :: 0 <= i < |items| ==> y <= p.tops[i] <= p.end
  {
    var p := ItemTops(g, m, y, items);
    if ValidMetrics(m) {
      forall i, j | 0 <= i && j == i + 1 && j < |items|
        ensures p.tops[i] <= p.tops[j]
      {
        assert m.lineAdvance(ItemLine(g, m, p.tops[i], items[i])) >= 0.0;
      }
      if |items| > 0 {
        assert m.lineAdvance(ItemLine(g, m, p.tops[|items| - 1], items[|items| - 1])) >= 0.0;
      }
      PlacedDownward(y, p.tops, p.end);
    }
  }

  /** The items in order, each on the cursor line `ItemTops` gives it, then
      half a line of space; the list never breaks the page itself. */
  function BulletList(g: PageGeometry, m: Metrics, c: Cursor, items: seq<Item>): (r: Rendered)
    ensures r.cursor.pageCount == c.pageCount && CountNewPages(r.ops) == 0
    ensures |r.ops| == 2 * |items|
    ensures forall i :: 0 <= i < |items| ==> DrawsGlyph(g, r.ops[2 * i])
    ensures forall i :: 0 <= i < |items| ==> DrawsItem(g, m, items[i], r.ops[2 * i + 1])
    // item i, glyph and text, is drawn in the flow on the i-th placed line
    ensures PairsOn(r.ops, ItemTops(g, m, c.y, items).tops)
    ensures r.cursor.y == ItemTops(g, m, c.y, items).end + m.moveDown(0.5)
    ensures ValidMetrics(m) ==> r.cursor.y >= c.y
  {
    var p := ItemTops(g, m, c.y, items);
    BulletOps(g, m, p.tops, items);
    ItemsFlowDown(g, m, c.y, items);
    Rendered(Flatten(ItemLines(g, m, p.tops, items)), Cursor(p.end + m.moveDown(0.5), c.pageCount))
  }

  /** The call-level facts of `BulletList`, from the per-item ones. */
  lemma BulletOps(g: PageGeometry, m: Metrics, tops: seq<real>, items: seq<Item>)
    requires |tops| == |items|
    ensures var ops := Flatten(ItemLines(g, m, tops, items));
            && |ops| == 2 * |items|
            && CountNewPages(ops) == 0
            && (forall i :: 0 <= i < |items| ==> DrawsGlyph(g, ops[2 * i]))
            && (forall i :: 0 <= i < |items| ==> DrawsItem(g, m, items[i], ops[2 * i + 1]))
            && PairsOn(ops, tops)
  {
    var lines := ItemLines(g, m, tops, items);
    forall i | 0 <= i < |lines|
      ensures IsLine(lines[i])
    {
      ItemLineShape(g, m, tops[i], items[i]);
    }
    FlattenLinesHasNoNewPage(lines);
    FlattenPairs(lines);
    var ops := Flatten(lines);
    forall i | 0 <= i < |items|
      ensures DrawsGlyph(g, ops[2 * i])
      ensures DrawsItem(g, m, items[i], ops[2 * i + 1])
      ensures InFlow(ops[2 * i], tops[i]) && InFlow(ops[2 * i + 1], tops[i])
    {
      ItemLineShape(g, m, tops[i], items[i]);
      assert ops[2 * i] == lines[i][0] && ops[2 * i + 1] == lines[i][1];
    }
  }

  /** With every line advancing the cursor, the items' cursor lines strictly
      increase down the page. */
  lemma {:induction false} ItemTopsIncrease(g: PageGeometry, m: Metrics, y: real, items: seq<Item>, i: int, j: int)
    requires forall line :: m.lineAdvance(line) > 0.0
    requires 0 <= i < j < |items|
    ensures ItemTops(g, m, y, items).tops[i] < ItemTops(g, m, y, items).tops[j]
    decreases j - i
  {
    var p := ItemTops(g, m, y, items);
    assert p.tops[j] == p.tops[j - 1] + m.lineAdvance(ItemLine(g, m, p.tops[j - 1], items[j - 1]));
    if i < j - 1 {
      ItemTopsIncrease(g, m, y, items, i, j - 1);
    }
  }

  /** With every line advancing the cursor, the list draws each item
      strictly below the one before it. */
  lemma BulletListDescends(g: PageGeometry, m: Metrics, c: Cursor, items: seq<Item>, i: int, j: int)
    requires forall line :: m.lineAdvance(line) > 0.0
    requires 0 <= i < j < |items|
    ensures var r := BulletList(g, m, c, items);
            && r.ops[2 * i + 1].Text? && r.ops[2 * j + 1].Text?
            && r.ops[2 * i + 1].anchor.y < r.ops[2 * j + 1].anchor.y
  {
    ItemTopsIncrease(g, m, c.y, items, i, j);
  }

  /** Whether an item is a string or an object matters only through its
      normal form: a label without a (truthy) link draws like a string. */
  lemma ItemLineDependsOnEntry(g: PageGeometry, m: Metrics, y: real, a: Item, b: Item)
    requires Normalize(a) == Normalize(b)
    ensures ItemLine(g, m, y, a) == ItemLine(g, m, y, b)
  {
  }

  lemma FalsyLinkIsPlain(s: string)
    ensures Normalize(Labeled(s, Some(""))) == Normalize(Plain(s))
    ensures Normalize(Labeled(s, None)) == Normalize(Plain(s))
  {
  }
}
