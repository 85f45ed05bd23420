/** `addExperience(title, company, duration, points)`: a bold one-line
    heading, a small gap, then the points as a bullet list. No space is
    reserved before the heading, so neither part ever breaks the page. */
module Experience {
  import opened Geometry
  import opened Pagination
  import opened Canvas
  import opened Bullets

  /** What separates the heading's three parts. */
  const Separator: string := " | "

  /** The heading `title | company | duration`. */
  function Heading(title: string, company: string, duration: string): (h: string)
    ensures |h| == |title| + |company| + |duration| + 2 * |Separator|
    ensures h[..|title|] == title && h[|h| - |duration|..] == duration
    ensures h[|title|..|title| + |Separator|] == Separator
  {
    title + Separator + company + Separator + duration
  }

  /** The heading's text call, in the flow at the cursor. */
  function HeadingCall(c: Cursor, title: string, company: string, duration: string): Op
  {
    Text(Heading(title, company, duration), Flow(c.y), PlainStyle)
  }

  /** Where the points start: 0.3 lines below the line the heading advanced to. */
  function PointsCursor(m: Metrics, c: Cursor, title: string, company: string, duration: string): Cursor
  {
    Cursor(c.y + m.lineAdvance([HeadingCall(c, title, company, duration)]) + m.moveDown(0.3), c.pageCount)
  }

  function AddExperience(g: PageGeometry, m: Metrics, c: Cursor, title: string, company: string, duration: string, points: seq<Item>): (r: Rendered)
    ensures |r.ops| == 1 + 2 * |points|
    ensures r.ops[0] == HeadingCall(c, title, company, duration)
    ensures r.ops[0] == Text(title + " | " + company + " | " + duration, Flow(c.y), PlainStyle)
    // the points follow in their given order, each as a bullet item
    ensures forall i :: 0 <= i < |points| ==> DrawsGlyph(g, r.ops[1 + 2 * i])
    ensures forall i :: 0 <= i < |points| ==> DrawsItem(g, m, points[i], r.ops[2 + 2 * i])
    // after the heading comes exactly the bullet list of the points, drawn
    // from 0.3 lines below the line the heading advanced to
    ensures var list := BulletList(g, m, PointsCursor(m, c, title, company, duration), points);
            r.ops[1..] == list.ops && r.cursor == list.cursor
    // nothing is reserved, so the page never breaks here
    ensures r.cursor.pageCount == c.pageCount && CountNewPages(r.ops) == 0
    ensures ValidMetrics(m) ==> r.cursor.y >= c.y
  {
    var heading := HeadingCall(c, title, company, duration);
    var below := PointsCursor(m, c, title, company, duration);
    var list := BulletList(g, m, below, points);
    CountNewPagesAppend([heading], list.ops);
    HeadingThenItems(g, m, heading, list.ops, points);
    assert ([heading] + list.ops)[1..] == list.ops;
    Rendered([heading] + list.ops, list.cursor)
  }

  /** The points are placed as a bullet list starting where `PointsCursor`
      says: point i's glyph and text on the i-th line `ItemTops` gives, and
      the entry ends half a line below where that list ends. */
  lemma PointsPlaced(g: PageGeometry, m: Metrics, c: Cursor, title: string, company: string, duration: string, points: seq<Item>)
    ensures var r := AddExperience(g, m, c, title, company, duration, points);
            var p := ItemTops(g, m, PointsCursor(m, c, title, company, duration).y, points);
            && PairsOn(r.ops[1..], p.tops)
            && r.cursor.y == p.end + m.moveDown(0.5)
  {
  }

  /** Putting the heading first shifts every bullet call by one place. */
  lemma HeadingThenItems(g: PageGeometry, m: Metrics, heading: Op, ops: seq<Op>, points: seq<Item>)
    requires |ops| == 2 * |points|
    requires forall i :: 0 <= i < |points| ==> DrawsGlyph(g, ops[2 * i])
    requires forall i :: 0 <= i < |points| ==> DrawsItem(g, m, points[i], ops[2 * i + 1])
    ensures forall i :: 0 <= i < |points| ==> DrawsGlyph(g, ([heading] + ops)[1 + 2 * i])
    ensures forall i :: 0 <= i < |points| ==> DrawsItem(g, m, points[i], ([heading] + ops)[2 + 2 * i])
  {
    forall i | 0 <= i < |points|
      ensures DrawsGlyph(g, ([heading] + ops)[1 + 2 * i])
      ensures DrawsItem(g, m, points[i], ([heading] + ops)[2 + 2 * i])
    {
      assert ([heading] + ops)[1 + 2 * i] == ops[2 * i];
      assert ([heading] + ops)[2 + 2 * i] == ops[2 * i + 1];
    }
  }

  /** Splitting at the first bar recovers both sides when the left one has none. */
  lemma SplitAtFirstBar(a: string, rest: string, a': string, rest': string)
    requires '|' !in a && '|' !in a'
    requires a + Separator + rest == a' + Separator + rest'
    ensures a == a' && rest == rest'
  {
    var h := a + Separator + rest;
    var h' := a' + Separator + rest';
    assert h[|a| + 1] == '|';
    assert h'[|a'| + 1] == '|';
    if |a| < |a'| {
      assert false;
    } else if |a'| < |a| {
      assert false;
    }
    assert a == h[..|a|];
    assert a' == h'[..|a'|];
    assert rest == h[|a| + 3..];
    assert rest' == h'[|a'| + 3..];
  }

  lemma HeadingAfterTitle(t: string, c: string, d: string)
    ensures Heading(t, c, d) == t + Separator + (c + Separator + d)
  {
  }

  /** When neither the title nor the company contains a bar, the heading
      determines all three of its parts. */
  lemma HeadingInjective(t: string, c: string, d: string, t': string, c': string, d': string)
    requires '|' !in t && '|' !in c && '|' !in t' && '|' !in c'
    requires Heading(t, c, d) == Heading(t', c', d')
    ensures t == t' && c == c' && d == d'
  {
    HeadingAfterTitle(t, c, d);
    HeadingAfterTitle(t', c', d');
    SplitAtFirstBar(t, c + Separator + d, t', c' + Separator + d');
    SplitAtFirstBar(c, d, c', d');
  }

  /** Without that proviso the heading is ambiguous. */
  lemma HeadingAmbiguous()
    ensures Heading("a | b", "c", "d") == Heading("a", "b | c", "d")
  {
  }
}
