/** `addContactInfo()`: contact fields one under another at a fixed indent,
    each placed explicitly 4 points below where the previous one ended
    rather than left to pdfkit's flow. Profile fields are a plain label
    continued by a link. */
module Contact {
  import opened Geometry
  import opened Pagination
  import opened Canvas

  /** A plain field, or a label continued by shown text that links to `target`. */
  datatype Field = PlainField(text: string) | Link(caption: string, shown: string, target: string)

  /** Fields start this far right of the left margin. */
  const Indent: real := 5.0

  /** Space between the end of one field and the start of the next. */
  const FieldGap: real := 4.0

  /** The fields of the CV, in order; only the two profiles are links. */
  const CvFields: seq<Field> := [
    PlainField("Email: 123husena@gmail.com"),
    PlainField("Phone: +62 813 3697 9372"),
    Link("LinkedIn: ", "linkedin.com/in/husen-malik", "https://linkedin.com/in/husen-malik"),
    Link("GitHub: ", "github.com/13husen", "https://github.com/13husen"),
    PlainField("Location: Jakarta, Indonesia")
  ]

  /** One field's line at cursor line `y`, starting at the fixed indent. */
  function FieldLine(g: PageGeometry, y: real, f: Field): seq<Op>
  {
    var at := At(g.margins.left + Indent, y);
    match f
    case PlainField(text) => [Text(text, at, PlainStyle)]
    case Link(caption, shown, target) =>
      [Text(caption, at, ContinuedStyle), Text(shown, Flow(y), Style(Some(target), true, 0.0, None, false))]
  }

  /** A field's line is one line of text whose first call alone is placed
      explicitly. Its last call links somewhere exactly when the field is a
      link, and then it targets the field's URL and shows the field's text
      after its caption; no other call links, and a call is underlined
      exactly when it links. */
  lemma FieldLineShape(g: PageGeometry, y: real, f: Field)
    ensures var line := FieldLine(g, y, f);
            && IsLine(line) && TopOf(line) == y
            && line[0].anchor == At(g.margins.left + Indent, y)
            && (forall k :: 0 < k < |line| ==> line[k].anchor == Flow(y))
            && (f.PlainField? ==> line == [Text(f.text, At(g.margins.left + Indent, y), PlainStyle)])
            && (f.Link? ==> |line| == 2 && line[0].s == f.caption && line[1].s == f.shown)
            && (forall k :: 0 <= k < |line| ==> (line[k].style.link.Some? <==> f.Link? && k == |line| - 1))
            && (forall k :: 0 <= k < |line| ==> (line[k].style.underline <==> line[k].style.link.Some?))
            && (f.Link? ==> line[|line| - 1].style.link == Some(f.target))
  {
  }

  /** Where the fields go: the first on `y`, each next one `FieldGap` below
      where the previous one ended, whatever kind either field is. */
  function FieldTops(g: PageGeometry, m: Metrics, y: real, fields: seq<Field>): (p: Placement)
    ensures |p.tops| == |fields|
    ensures |fields| > 0 ==> p.tops[0] == y
    ensures forall i, j :: 0 <= i && j == i + 1 && j < |fields| ==>
              p.tops[j] == p.tops[i] + m.lineAdvance(FieldLine(g, p.tops[i], fields[i])) + FieldGap
    ensures |fields| == 0 ==> p.end == y
    ensures |fields| > 0 ==>
              p.end == p.tops[|fields| - 1] + m.lineAdvance(FieldLine(g, p.tops[|fields| - 1], fields[|fields| - 1]))
    decreases |fields|
  {
    if |fields| == 0 then Placement([], y)
    else
      var n := |fields| - 1;
      var before := FieldTops(g, m, y, fields[..n]);
      var top := if n == 0 then y else before.end + FieldGap;
      var tops := before.tops + [top];
      assert forall i :: 0 <= i < n ==> tops[i] == before.tops[i] && fields[..n][i] == fields[i];
      Placement(tops, top + m.lineAdvance(FieldLine(g, top, fields[n])))
  }

  /** The fields' lines on the given cursor lines. */
  function FieldLines(g: PageGeometry, tops: seq<real>, fields: seq<Field>): (lines: seq<seq<Op>>)
    requires |tops| == |fields|
    ensures |lines| == |fields|
    ensures forall i :: 0 <= i < |fields| ==> lines[i] == FieldLine(g, tops[i], fields[i])
  {
    seq(|fields|, i requires 0 <= i < |fields| => FieldLine(g, tops[i], fields[i]))
  }

  /** The fields in order, each as its line on the cursor line `FieldTops`
      gives it, then 0.7 lines of space. */
  function AddContactInfo(g: PageGeometry, m: Metrics, c: Cursor, fields: seq<Field>): (r: Rendered)
    ensures var p := FieldTops(g, m, c.y, fields);
            && (exists lines :: DrawnAsLines(g, p.tops, fields, lines) && r.ops == Flatten(lines))
            && r.cursor.y == p.end + m.moveDown(0.7)
    ensures r.cursor.pageCount == c.pageCount && CountNewPages(r.ops) == 0
    ensures forall k :: 0 <= k < |r.ops| ==> r.ops[k].Text?
    // every explicitly placed call sits at the fixed indent
    ensures forall k :: 0 <= k < |r.ops| ==> r.ops[k].anchor.At? ==> r.ops[k].anchor.x == g.margins.left + Indent
    // links are always underlined, and only links are
    ensures forall k :: 0 <= k < |r.ops| ==> (r.ops[k].style.underline <==> r.ops[k].style.link.Some?)
    ensures ValidMetrics(m) ==> r.cursor.y >= c.y
  {
    var p := FieldTops(g, m, c.y, fields);
    var lines := FieldLines(g, p.tops, fields);
    ContactOps(g, p.tops, fields);
    FieldsFlowDown(g, m, c.y, fields);
    assert DrawnAsLines(g, p.tops, fields, lines);
    Rendered(Flatten(lines), Cursor(p.end + m.moveDown(0.7), c.pageCount))
  }

  /** `lines` are the fields' lines, field i's on cursor line `tops[i]`. */
  predicate DrawnAsLines(g: PageGeometry, tops: seq<real>, fields: seq<Field>, lines: seq<seq<Op>>)
    requires |tops| == |fields|
  {
    && |lines| == |fields|
    && forall i :: 0 <= i < |fields| ==> lines[i] == FieldLine(g, tops[i], fields[i])
  }

  /** Fields never move the cursor up: every field, and the block's end, lie
      at or below where the block started. */
  lemma FieldsFlowDown(g: PageGeometry, m: Metrics, y: real, fields: seq<Field>)
    ensures var p := FieldTops(g, m, y, fields);
            ValidMetrics(m) ==> y <= p.end && forall i :: 0 <= i < |fields| ==> y <= p.tops[i] <= p.end
  {
    var p := FieldTops(g, m, y, fields);
    if ValidMetrics(m) {
      forall i, j | 0 <= i && j == i + 1 && j < |fields|
        ensures p.tops[i] <= p.tops[j]
      {
        assert m.lineAdvance(FieldLine(g, p.tops[i], fields[i])) >= 0.0;
      }
      if |fields| > 0 {
        assert m.lineAdvance(FieldLine(g, p.tops[|fields| - 1], fields[|fields| - 1])) >= 0.0;
      }
      PlacedDownward(y, p.tops, p.end);
    }
  }

  /** The call-level facts of `AddContactInfo`, from the per-field ones. */
  lemma ContactOps(g: PageGeometry, tops: seq<real>, fields: seq<Field>)
    requires |tops| == |fields|
    ensures var ops := Flatten(FieldLines(g, tops, fields));
            && CountNewPages(ops) == 0
            && forall k :: 0 <= k < |ops| ==> IndentedLinkStyled(g, ops[k])
  {
    var lines := FieldLines(g, tops, fields);
    forall i, j | 0 <= i < |lines| && 0 <= j < |lines[i]|
      ensures IndentedLinkStyled(g, lines[i][j])
    {
      FieldLineStyled(g, tops[i], fields[i]);
    }
    forall i | 0 <= i < |lines|
      ensures IsLine(lines[i])
    {
      FieldLineShape(g, tops[i], fields[i]);
    }
    FlattenLinesHasNoNewPage(lines);
    FlattenAll(lines, op => IndentedLinkStyled(g, op));
  }

  lemma FieldLineStyled(g: PageGeometry, y: real, f: Field)
    ensures forall j :: 0 <= j < |FieldLine(g, y, f)| ==> IndentedLinkStyled(g, FieldLine(g, y, f)[j])
  {
    var line := FieldLine(g, y, f);
    FieldLineShape(g, y, f);
    forall j | 0 <= j < |line|
      ensures IndentedLinkStyled(g, line[j])
    {
      if j > 0 {
        assert line[j].anchor == Flow(y);
      }
    }
  }

  /** A contact call: text, placed at the indent if placed at all, and
      underlined exactly when it links. */
  predicate IndentedLinkStyled(g: PageGeometry, op: Op)
  {
    && op.Text?
    && (op.anchor.At? ==> op.anchor.x == g.margins.left + Indent)
    && (op.style.underline <==> op.style.link.Some?)
  }

  /** The CV's own contact block is seven calls: one each for email and
      phone, a caption and a link for each profile, one for the location.
      Calls 3 and 5, and no others, link, to the LinkedIn and GitHub URLs. */
  lemma CvContactBlock(g: PageGeometry, m: Metrics, c: Cursor)
    ensures var r := AddContactInfo(g, m, c, CvFields);
            && |r.ops| == 7
            && (forall k :: 0 <= k < 7 ==> (r.ops[k].style.link.Some? <==> k == 3 || k == 5))
            && r.ops[3].style.link == Some("https://linkedin.com/in/husen-malik")
            && r.ops[5].style.link == Some("https://github.com/13husen")
  {
    var r := AddContactInfo(g, m, c, CvFields);
    var p := FieldTops(g, m, c.y, CvFields);
    var lines := FieldLines(g, p.tops, CvFields);
    assert r.ops == Flatten(lines);
    var l0, l1, l2, l3, l4 := lines[0], lines[1], lines[2], lines[3], lines[4];
    assert lines == [l0, l1, l2, l3, l4];
    FlattenFive(l0, l1, l2, l3, l4);
    assert l0 == [Text(CvFields[0].text, At(g.margins.left + Indent, p.tops[0]), PlainStyle)];
    assert l1 == [Text(CvFields[1].text, At(g.margins.left + Indent, p.tops[1]), PlainStyle)];
    assert l2 == [Text(CvFields[2].caption, At(g.margins.left + Indent, p.tops[2]), ContinuedStyle),
                  Text(CvFields[2].shown, Flow(p.tops[2]), Style(Some(CvFields[2].target), true, 0.0, None, false))];
    assert l3 == [Text(CvFields[3].caption, At(g.margins.left + Indent, p.tops[3]), ContinuedStyle),
                  Text(CvFields[3].shown, Flow(p.tops[3]), Style(Some(CvFields[3].target), true, 0.0, None, false))];
    assert l4 == [Text(CvFields[4].text, At(g.margins.left + Indent, p.tops[4]), PlainStyle)];
    assert r.ops == l0 + l1 + l2 + l3 + l4;
  }

  /** In the CV's own block the LinkedIn and GitHub fields, and only they,
      are drawn with a link target, underlined, wherever they are placed. */
  lemma CvProfileLinks(g: PageGeometry, y: real)
    ensures |CvFields| == 5
    ensures forall i :: 0 <= i < |CvFields| ==>
              var line := FieldLine(g, y, CvFields[i]);
              (line[|line| - 1].style.link.Some? <==> i == 2 || i == 3)
    ensures FieldLine(g, y, CvFields[2])[1].style == Style(Some("https://linkedin.com/in/husen-malik"), true, 0.0, None, false)
    ensures FieldLine(g, y, CvFields[3])[1].style == Style(Some("https://github.com/13husen"), true, 0.0, None, false)
  {
    forall i | 0 <= i < |CvFields|
      ensures var line := FieldLine(g, y, CvFields[i]);
              (line[|line| - 1].style.link.Some? <==> i == 2 || i == 3)
    {
      FieldLineShape(g, y, CvFields[i]);
    }
  }
}
