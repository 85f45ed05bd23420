/** `addHeader(title)`: a section title on a light background box. Before
    drawing anything it reserves the box plus one line of text, breaking the
    page when that does not fit. */
module Headers {
  import opened Geometry
  import opened Pagination
  import opened Canvas

  /** Height of the background box (`sectionHeaderHeight`). */
  const BoxHeight: real := 22.0

  /** Allowance for one line of text and its bottom gap below the box. */
  const LineAllowance: real := 14.0

  /** Space reserved before a header is drawn. */
  const RequiredHeight: real := BoxHeight + LineAllowance

  /** The title sits this far right of the left margin ... */
  const TitleInset: real := 5.0

  /** ... and this far below the top of its box. */
  const TitleDrop: real := 6.0

  /** Where the header's box starts: on the current line when the reservation
      fits, else on the top margin of a new page. */
  function HeaderTop(g: PageGeometry, c: Cursor): (y: real)
    ensures RemainingSpace(g, c) < RequiredHeight ==> y == g.margins.top
    ensures RequiredHeight <= RemainingSpace(g, c) ==> y == c.y
  {
    EnsureSpace(g, c, RequiredHeight).y
  }

  function AddHeader(g: PageGeometry, m: Metrics, c: Cursor, title: string): (r: Rendered)
    // a page is added exactly when the space left is strictly short of the reservation
    ensures r.cursor.pageCount == c.pageCount + 1 <==> RemainingSpace(g, c) < RequiredHeight
    ensures r.cursor.pageCount == c.pageCount || r.cursor.pageCount == c.pageCount + 1
    ensures CountNewPages(r.ops) == r.cursor.pageCount - c.pageCount
    // the check comes first: only page breaks precede the box and the title
    ensures |r.ops| >= 2
    ensures forall k :: 0 <= k < |r.ops| - 2 ==> r.ops[k] == NewPage
    ensures r.ops[|r.ops| - 2] == FillRect(g.margins.left, HeaderTop(g, c), ContentWidth(g), BoxHeight)
    ensures r.ops[|r.ops| - 1] == Text(title, At(g.margins.left + TitleInset, HeaderTop(g, c) + TitleDrop), PlainStyle)
    // the box and one line of text fit below the box's top whenever they fit on a page at all
    ensures RequiredHeight <= UsableHeight(g) ==> RequiredHeight <= g.height - g.margins.bottom - HeaderTop(g, c)
    // the cursor ends below the title
    ensures ValidMetrics(m) ==> r.cursor.y >= HeaderTop(g, c) + TitleDrop
  {
    var reserved := EnsureSpace(g, c, RequiredHeight);
    var breaks := if reserved.pageCount == c.pageCount then [] else [NewPage];
    var x := g.margins.left;
    var titleOp := Text(title, At(x + TitleInset, reserved.y + TitleDrop), PlainStyle);
    var after := reserved.y + TitleDrop + m.lineAdvance([titleOp]) + m.moveDown(1.0);
    var drawing := [FillRect(x, reserved.y, ContentWidth(g), BoxHeight), titleOp];
    assert CountNewPages(drawing) == 0 by {
      assert drawing[1..][1..] == [];
    }
    CountNewPagesAppend(breaks, drawing);
    Rendered(breaks + drawing, Cursor(after, reserved.pageCount))
  }

  /** A header arriving with the cursor 10 points above the bottom edge of an
      800-point page with 50-point margins moves to page 2 and is drawn on
      the new page's top margin. */
  lemma HeaderNearBottom(m: Metrics)
    ensures var g := Uniform(600.0, 800.0, 50.0);
            var r := AddHeader(g, m, Cursor(790.0, 1), "Skills");
            && r.cursor.pageCount == 2
            && r.ops[0] == NewPage
            && r.ops[1] == FillRect(50.0, 50.0, 500.0, 22.0)
            && r.ops[2] == Text("Skills", At(55.0, 56.0), PlainStyle)
  {
  }

  /** With exactly the reserved height left, the header stays on its page. */
  lemma HeaderExactFit(m: Metrics)
    ensures var g := Uniform(600.0, 800.0, 50.0);
            var r := AddHeader(g, m, Cursor(714.0, 1), "Skills");
            && r.cursor.pageCount == 1
            && r.ops[0] == FillRect(50.0, 714.0, 500.0, 22.0)
  {
  }
}
