/** The vertical cursor pdfkit keeps in `doc.y`, together with the number of
    pages: the first one and those added by the CV's own `addPage` calls
    (pages pdfkit starts by itself inside a `text` call are not counted), and the one page-break rule the CV uses: reserve
    space ahead of drawing, and start a new page only when the reservation
    does not fit. */
module Pagination {
  import opened Geometry

  datatype Cursor = Cursor(y: real, pageCount: nat)

  /** A new document: one page, the cursor on its top margin. */
  function Start(g: PageGeometry): (c: Cursor)
    ensures c.pageCount == 1
    ensures RemainingSpace(g, c) == UsableHeight(g)
  {
    Cursor(g.margins.top, 1)
  }

  /** Height left between the cursor and the bottom margin of the current page. */
  function RemainingSpace(g: PageGeometry, c: Cursor): real
  {
    g.height - g.margins.bottom - c.y
  }

  /** `doc.addPage()`: one more page, the cursor back on the top margin. */
  function AddPage(g: PageGeometry, c: Cursor): (c': Cursor)
    ensures c'.pageCount == c.pageCount + 1
    ensures RemainingSpace(g, c') == UsableHeight(g)
  {
    Cursor(g.margins.top, c.pageCount + 1)
  }

  /** Reserve `required` points before drawing: break the page exactly when
      the space left is strictly smaller than the reservation. */
  function EnsureSpace(g: PageGeometry, c: Cursor, required: real): (c': Cursor)
    ensures c' == c <==> required <= RemainingSpace(g, c)
    ensures c' == c || c' == AddPage(g, c)
    ensures c'.pageCount == c.pageCount + 1 <==> RemainingSpace(g, c) < required
    ensures required <= UsableHeight(g) ==> required <= RemainingSpace(g, c')
  {
    if RemainingSpace(g, c) < required then AddPage(g, c) else c
  }

  /** Reserving the same height twice with nothing drawn in between breaks
      the page at most once, provided the height fits on a fresh page. */
  lemma EnsureSpaceIdempotent(g: PageGeometry, c: Cursor, required: real)
    requires required <= UsableHeight(g)
    ensures EnsureSpace(g, EnsureSpace(g, c, required), required) == EnsureSpace(g, c, required)
    ensures EnsureSpace(g, EnsureSpace(g, c, required), required).pageCount <= c.pageCount + 1
  {
  }

  /** Without that proviso the rule is not idempotent: a reservation taller
      than a whole page breaks the page again on every call made with the
      cursor at or below the top margin. */
  lemma EnsureSpaceOversized(g: PageGeometry, c: Cursor, required: real)
    requires g.margins.top <= c.y
    requires UsableHeight(g) < required
    ensures EnsureSpace(g, c, required) == AddPage(g, c)
    ensures EnsureSpace(g, EnsureSpace(g, c, required), required).pageCount == c.pageCount + 2
  {
    var c1 := EnsureSpace(g, c, required);
    assert RemainingSpace(g, c) < required;
    assert RemainingSpace(g, c1) < required;
  }
}
