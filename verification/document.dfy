/** The CV as a script of blocks, each drawn by its helper in order, every
    block starting where the previous one left the cursor. `addPage` is
    called from `addHeader` only, so headers are the only page breaks the
    layout itself makes; pages pdfkit starts by itself when text runs past
    the bottom margin are not modelled. */
module Document {
  import opened Geometry
  import opened Pagination
  import opened Canvas
  import opened Headers
  import opened Bullets
  import opened Contact
  import opened Experience

  datatype Block =
    | SectionHeader(title: string)
    | Paragraph(text: string)
    | ContactBlock(fields: seq<Field>)
    | BulletBlock(items: seq<Item>)
    | ExperienceEntry(title: string, company: string, duration: string, points: seq<Item>)

  /** `addParagraph(text)`: body text in the running flow, then 0.7 lines of space. */
  function AddParagraph(g: PageGeometry, m: Metrics, c: Cursor, text: string): (r: Rendered)
    ensures |r.ops| == 1 && r.ops[0].Text? && r.ops[0].s == text && r.ops[0].anchor == Flow(c.y)
    ensures r.cursor.pageCount == c.pageCount && CountNewPages(r.ops) == 0
    ensures ValidMetrics(m) ==> r.cursor.y >= c.y
  {
    var op := Text(text, Flow(c.y), PlainStyle);
    Rendered([op], Cursor(c.y + m.lineAdvance([op]) + m.moveDown(0.7), c.pageCount))
  }

  /** One block by its helper. Only a header may break the page, at most
      once; without a break the cursor only moves down. */
  function RenderBlock(g: PageGeometry, m: Metrics, c: Cursor, b: Block): (r: Rendered)
    ensures r.cursor.pageCount == c.pageCount + CountNewPages(r.ops)
    ensures CountNewPages(r.ops) <= 1
    ensures !b.SectionHeader? ==> CountNewPages(r.ops) == 0
    ensures b.SectionHeader? ==> (CountNewPages(r.ops) == 1 <==> RemainingSpace(g, c) < RequiredHeight)
    ensures ValidMetrics(m) && CountNewPages(r.ops) == 0 ==> r.cursor.y >= c.y
  {
    match b
    case SectionHeader(title) => AddHeader(g, m, c, title)
    case Paragraph(text) => AddParagraph(g, m, c, text)
    case ContactBlock(fields) => AddContactInfo(g, m, c, fields)
    case BulletBlock(items) => BulletList(g, m, c, items)
    case ExperienceEntry(title, company, duration, points) => AddExperience(g, m, c, title, company, duration, points)
  }

  function CountHeaders(script: seq<Block>): (n: nat)
    ensures n <= |script|
  {
    if |script| == 0 then 0 else (if script[0].SectionHeader? then 1 else 0) + CountHeaders(script[1..])
  }

  /** The whole script in order. The pages it adds are the page breaks in
      its calls, at most one per header; with no break the cursor only moves
      down. */
  function Run(g: PageGeometry, m: Metrics, c: Cursor, script: seq<Block>): (r: Rendered)
    ensures r.cursor.pageCount == c.pageCount + CountNewPages(r.ops)
    ensures CountNewPages(r.ops) <= CountHeaders(script)
    ensures ValidMetrics(m) && CountNewPages(r.ops) == 0 ==> r.cursor.y >= c.y
    decreases |script|
  {
    if |script| == 0 then Rendered([], c)
    else
      var head := RenderBlock(g, m, c, script[0]);
      var tail := Run(g, m, head.cursor, script[1..]);
      CountNewPagesAppend(head.ops, tail.ops);
      Rendered(head.ops + tail.ops, tail.cursor)
  }

  /** Running two scripts back to back is running their concatenation: the
      second begins exactly where the first left the cursor. */
  lemma {:induction false} RunAppend(g: PageGeometry, m: Metrics, c: Cursor, s1: seq<Block>, s2: seq<Block>)
    ensures var first := Run(g, m, c, s1);
            var second := Run(g, m, first.cursor, s2);
            Run(g, m, c, s1 + s2) == Rendered(first.ops + second.ops, second.cursor)
    decreases |s1|
  {
    if |s1| == 0 {
      assert s1 + s2 == s2;
    } else {
      var head := RenderBlock(g, m, c, s1[0]);
      assert (s1 + s2)[0] == s1[0];
      assert (s1 + s2)[1..] == s1[1..] + s2;
      RunAppend(g, m, head.cursor, s1[1..], s2);
      var first := Run(g, m, head.cursor, s1[1..]);
      var second := Run(g, m, first.cursor, s2);
      assert head.ops + (first.ops + second.ops) == (head.ops + first.ops) + second.ops;
    }
  }

  /** A script without headers issues no `addPage` of its own. */
  lemma HeaderlessStaysOnPage(g: PageGeometry, m: Metrics, c: Cursor, script: seq<Block>)
    requires forall i :: 0 <= i < |script| ==> !script[i].SectionHeader?
    ensures Run(g, m, c, script).cursor.pageCount == c.pageCount
    ensures CountNewPages(Run(g, m, c, script).ops) == 0
  {
    NoHeadersCounted(script);
  }

  lemma {:induction false} NoHeadersCounted(script: seq<Block>)
    requires forall i :: 0 <= i < |script| ==> !script[i].SectionHeader?
    ensures CountHeaders(script) == 0
    decreases |script|
  {
    if |script| > 0 {
      NoHeadersCounted(script[1..]);
    }
  }

  /** A two-block script draws the first block, then the second from where
      the first left the cursor. */
  lemma RunTwo(g: PageGeometry, m: Metrics, c: Cursor, a: Block, b: Block)
    ensures var first := RenderBlock(g, m, c, a);
            var second := RenderBlock(g, m, first.cursor, b);
            Run(g, m, c, [a, b]) == Rendered(first.ops + second.ops, second.cursor)
  {
    var first := RenderBlock(g, m, c, a);
    var second := RenderBlock(g, m, first.cursor, b);
    assert [a, b][1..] == [b];
    assert [b][1..] == [];
    assert Run(g, m, second.cursor, []) == Rendered([], second.cursor);
    assert second.ops + [] == second.ops;
    assert Run(g, m, first.cursor, [b]) == Rendered(second.ops, second.cursor);
  }

  /** A "Skills" header and a three-item list on a fresh 600 by 800 page with
      50-point margins stay on page 1, the header's box on the top margin and
      the items after it in order. */
  lemma SkillsScenario(m: Metrics)
    ensures var g := Uniform(600.0, 800.0, 50.0);
            var r := Run(g, m, Start(g), [SectionHeader("Skills"), BulletBlock([Plain("A"), Plain("B"), Plain("C")])]);
            && r.cursor.pageCount == 1
            && |r.ops| == 8
            && r.ops[0] == FillRect(50.0, 50.0, 500.0, 22.0)
            && r.ops[1] == Text("Skills", At(55.0, 56.0), PlainStyle)
            && r.ops[3].s == "A" && r.ops[5].s == "B" && r.ops[7].s == "C"
  {
    var g := Uniform(600.0, 800.0, 50.0);
    var items := [Plain("A"), Plain("B"), Plain("C")];
    RunTwo(g, m, Start(g), SectionHeader("Skills"), BulletBlock(items));
    var header := AddHeader(g, m, Start(g), "Skills");
    assert RemainingSpace(g, Start(g)) == 700.0;
    assert header.ops == [FillRect(50.0, 50.0, 500.0, 22.0), Text("Skills", At(55.0, 56.0), PlainStyle)];
    var list := BulletList(g, m, header.cursor, items);
    assert list.ops[1].s == "A" && list.ops[3].s == "B" && list.ops[5].s == "C";
  }
}
