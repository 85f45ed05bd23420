# CV layout core, in Dafny

The program serves a one-page-style résumé as a PDF built with pdfkit. All of
its own logic sits in the helpers of `generateCVStream`: a content width
computed once from the page size and margins; `addHeader`, which reserves
room for a section title box plus one line before drawing and breaks the page
only when that room is missing; `addBulletList`, which normalises string and
`{label, link}` items and indents each item's text past a measured bullet;
`addExperience`, which draws a `title | company | duration` heading and then a
bullet list; `addContactInfo`, which stacks fields at a fixed indent, each 4
points below where the previous ended, with the profile fields as links; and
`addParagraph`.

The model keeps pdfkit's cursor (`doc.y`) and a page count (the first page
plus those added by the CV's own `addPage` calls) as an immutable `Cursor`, and turns every helper into a pure function from a cursor to the
drawing calls it issues (`Op`: a page break, a filled box, or a text call
with its position and link/underline/indent/width/continued options) and the
cursor it leaves. What pdfkit measures (string widths, how far a line of text
or a `moveDown` moves the cursor) enters as the opaque `Metrics` functions,
assumed only to be non-negative where a lemma needs it, and strictly positive
line advances in the two lemmas about items being drawn strictly below each
other (`Bullets.ItemTopsIncrease`, `Bullets.BulletListDescends`). Lengths are exact
reals.

Modules: `Geometry` (page size, margins, content width), `Pagination` (cursor,
remaining space, `addPage`, the reservation rule), `Canvas` (drawing calls,
metrics, call streams), `Headers`, `Bullets`, `Experience`, `Contact`, and
`Document` (the blocks in order).

Behaviour of the code worth noting:
- `addExperience` reserves no space before its heading; the heading and the
  points simply flow, and never break the page themselves.
- Reserving the same height twice breaks the page at most once only when the
  height fits on a fresh page (`EnsureSpaceIdempotent`); otherwise every call
  breaks again (`EnsureSpaceOversized`).
- Nothing keeps the cursor above the bottom margin: only headers reserve
  space, and everything else is left to pdfkit's flow.
- Page geometry is not validated anywhere; no geometry error exists.

## Model

| member | source | states |
|---|---|---|
| Geometry.Uniform | api/index.js:8 | the single `margin` option sets all four margins to the same value |
| Geometry.ContentWidth | api/index.js:19-20 | content width plus left and right margins fills the page width; it is positive exactly when the side margins leave room |
| Geometry.CvGeometryValid | api/index.js:8 | with 50-point margins on pdfkit's default Letter page the content area is 512 by 692 points |
| Pagination.Start | api/index.js:8 | a new document has one page and a full page of usable height below the cursor |
| Pagination.AddPage | api/index.js:37 | a page break adds exactly one page and leaves a full usable page height below the cursor |
| Pagination.EnsureSpace | api/index.js:31-38 | the page breaks exactly when the space left is strictly below the reservation (equality fits); otherwise the cursor is unchanged; afterwards the reservation fits whenever it fits on a page at all |
| Pagination.EnsureSpaceIdempotent | api/index.js:31-38 | reserving the same fitting height twice with nothing drawn between breaks the page at most once |
| Pagination.EnsureSpaceOversized | api/index.js:31-38 | a reservation taller than a page breaks the page on every call |
| Headers.HeaderTop | api/index.js:34-41 | the header box starts on the top margin of a new page when the 36 points do not fit, else on the current line |
| Headers.AddHeader | api/index.js:26-50 | one page is added exactly when fewer than 22 + 14 points remain; only that break precedes the box and title; the box is at the left margin, post-check y, content width, 22 high; the title is at left margin + 5, y + 6; the cursor ends below the title |
| Headers.HeaderNearBottom | api/index.js:34-47 | a header arriving 10 points above the bottom of an 800-point page goes to page 2 on its top margin |
| Headers.HeaderExactFit | api/index.js:36 | with exactly 36 points left the header stays on the page |
| Bullets.Normalize | api/index.js:109-110 | a string item is its own text with no link; an object's text is its label and its link counts only when present and non-empty |
| Bullets.TextIndent | api/index.js:104-106 | the text indent is the measured bullet width plus 4, so at least 4 |
| Bullets.ItemLineShape | api/index.js:112-125 | an item is a continued bullet glyph across the content width, then its normalised text, underlined exactly when it carries a link, whose indent plus width equals the content width |
| Bullets.ItemTops | api/index.js:108-126 | items are placed in their given order, the first where the list starts and each next one on the line the previous one's text advanced to |
| Bullets.ItemsFlowDown | api/index.js:108-126 | every item and the list's end lie at or below where the list started |
| Bullets.BulletList | api/index.js:103-129 | a list of n items issues 2n calls, glyph then item text for each item in order, both in the flow on the line `ItemTops` places that item on; it never breaks the page and ends half a line below where the last item ended, no higher than it started |
| Bullets.BulletListDescends | api/index.js:108-126 | when every line advances the cursor, each drawn item lies strictly below the ones before it |
| Bullets.ItemTopsIncrease | api/index.js:108-126 | when every line advances the cursor, items' lines strictly increase down the page |
| Bullets.ItemLineDependsOnEntry | api/index.js:109-125 | how an item is drawn depends only on its normalised text and link |
| Bullets.FalsyLinkIsPlain | api/index.js:110 | an object with no link or an empty link draws exactly like a string item |
| Experience.Heading | api/index.js:135 | the heading starts with the title, ends with the duration, and has the separator right after the title |
| Experience.AddExperience | api/index.js:131-139 | the heading `title | company | duration` is drawn first in the flow at the cursor, followed by exactly the bullet list of the points drawn from 0.3 lines below the line the heading advanced to, ending where that list ends; no page break |
| Experience.PointsPlaced | api/index.js:131-139 | point i's glyph and text are drawn on the i-th line of the list placed from below the heading, and the entry ends half a line below where the last point ended |
| Experience.HeadingInjective | api/index.js:135 | when title and company contain no bar, the heading determines title, company and duration |
| Experience.HeadingAmbiguous | api/index.js:135 | a bar inside the title makes two different entries share a heading |
| Contact.FieldLineShape | api/index.js:70-98 | every field starts at left margin + 5 on its own cursor line, the rest of a link field continuing in the flow; only a link field's last call carries a target, that field's URL, and a call is underlined exactly when it links |
| Contact.FieldTops | api/index.js:66-98 | the first field starts where the block does and each next field starts 4 points below where the previous one ended, whatever kind either field is |
| Contact.FieldsFlowDown | api/index.js:66-98 | every field and the block's end lie at or below where the block started |
| Contact.AddContactInfo | api/index.js:63-101 | the calls are the fields' lines in the given order, field i's on the i-th line `FieldTops` places (the first at the cursor, each next one 4 points below where the previous ended), then 0.7 lines of space; text only, every explicitly placed call at left margin + 5, links exactly the underlined calls, no page break, the cursor moves down |
| Contact.CvContactBlock | api/index.js:63-101 | the CV's own contact block is 7 calls, and exactly calls 3 and 5 link, to the LinkedIn and GitHub URLs |
| Contact.CvProfileLinks | api/index.js:70-98 | of the CV's five fields exactly LinkedIn and GitHub are drawn with link targets, underlined |
| Document.AddParagraph | api/index.js:52-61 | a paragraph is one text call in the flow at the cursor, with no page break |
| Document.RenderBlock | api/index.js:26-139 | only a header block may call `addPage`, at most once, exactly when 36 points do not fit; without a break the cursor only moves down |
| Document.Run | api/index.js:151-274 | the pages a script adds are exactly the `addPage` calls among its drawing calls, at most one per header |
| Document.RunTwo | api/index.js:151-274 | a two-block script draws the first block, then the second starting where the first left the cursor |
| Document.RunAppend | api/index.js:151-274 | running two scripts back to back equals running their concatenation |
| Document.HeaderlessStaysOnPage | api/index.js:36-37 | a script without headers issues no `addPage` of its own and adds no pages to the count, since `addPage` is only called by `addHeader` |
| Document.SkillsScenario | api/index.js:26-50 | a header and three items on a fresh 600 by 800 page with 50-point margins stay on page 1 with the header box on the top margin and items in order |

## Left out

- The Express app, its route and `listen` (api/index.js:1-5, 279-285): server I/O.
- Response headers, `doc.pipe(res)` and `doc.end()` (api/index.js:11-17, 276): streaming and encoding done by pdfkit and the HTTP layer.
- The centred name line and the literal CV content and section order (api/index.js:141-274): fixed data; only the five contact fields are kept, as `Contact.CvFields`, because which of them are links is a property of the block.
- Colours, fonts, font sizes and the `lineGap`/`paragraphGap` options: they only change pdfkit's line heights, but the drawing calls do not carry them, and `Metrics.lineAdvance` sees only the calls. So it is one function for every font: an experience heading (bold, 10.8 points) and a paragraph (10.5 points, `lineGap` 3) with the same text advance the cursor by the same amount in the model, where pdfkit would advance them differently. No property here depends on these amounts being equal.
- pdfkit's own page flow inside a `text` call and its horizontal flow position (`doc.x`): the model never breaks a page inside a text call, and records `Flow(y)` rather than an x for text drawn in the flow.
- pdfkit's default page size (US Letter, 612 by 792 points) is assumed for `Geometry.CvGeometry`; the source does not state it.
- Items that are neither strings nor `{label, link}` objects (`null`, an object without `label`): not modelled.
- Bullets.TextIndent: the bullet width is one value of `widthOf`, not tied to the font current at the call.
