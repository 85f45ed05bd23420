/** Page geometry of the generated CV: the page size and the four margins.
    pdfkit applies the document's margins to every page it creates, so one
    value of this type describes the whole document. Lengths are PDF points,
    modelled as exact reals. */
module Geometry {

  datatype Margins = Margins(top: real, bottom: real, left: real, right: real)

  datatype PageGeometry = PageGeometry(width: real, height: real, margins: Margins)

  /** `new PDFDocument({ margin: m })`: the single margin option sets all four sides. */
  function Uniform(width: real, height: real, margin: real): (g: PageGeometry)
    ensures g.width == width && g.height == height
    ensures g.margins.top == margin && g.margins.bottom == margin
    ensures g.margins.left == margin && g.margins.right == margin
  {
    PageGeometry(width, height, Margins(margin, margin, margin, margin))
  }

  /** pdfkit's default page size (US Letter); the CV does not choose another. */
  const LetterWidth: real := 612.0
  const LetterHeight: real := 792.0

  /** The margin the CV document is created with. */
  const CvMargin: real := 50.0

  const CvGeometry: PageGeometry := Uniform(LetterWidth, LetterHeight, CvMargin)

  /** The usable width between the left and right margins. It is computed once
      per document and shared by the header boxes and the bullet lists. */
  function ContentWidth(g: PageGeometry): (w: real)
    ensures g.margins.left + w + g.margins.right == g.width
    ensures w > 0.0 <==> g.margins.left + g.margins.right < g.width
  {
    g.width - g.margins.left - g.margins.right
  }

  /** The usable height between the top and bottom margins of a fresh page. */
  function UsableHeight(g: PageGeometry): (h: real)
    ensures g.margins.top + h + g.margins.bottom == g.height
  {
    g.height - g.margins.top - g.margins.bottom
  }

  /** A geometry whose margins leave room for content in both directions. */
  predicate Valid(g: PageGeometry)
  {
    && g.margins.top >= 0.0 && g.margins.bottom >= 0.0
    && g.margins.left >= 0.0 && g.margins.right >= 0.0
    && ContentWidth(g) > 0.0 && UsableHeight(g) > 0.0
  }

  /** The CV's page is valid: 512 points wide and 692 points high inside its margins. */
  lemma CvGeometryValid()
    ensures Valid(CvGeometry)
    ensures ContentWidth(CvGeometry) == 512.0
    ensures UsableHeight(CvGeometry) == 692.0
  {
  }
}
