/** The drawing calls the CV issues against pdfkit, as data, and the pdfkit
    measurements the layout depends on, as opaque functions. The renderers
    emit a sequence of `Op`s in call order; what pdfkit makes of them
    (glyphs, wrapping, bytes) is outside the model. */
module Canvas {
  import opened Pagination

  datatype Option<T> = None | Some(value: T)

  /** Where a text call starts: at an explicit point (`text(s, x, y, ...)`),
      or in pdfkit's running flow at the cursor line `y` (`text(s, opts)`).
      The horizontal flow position is pdfkit's and is not tracked. */
  datatype Anchor = At(x: real, y: real) | Flow(y: real)

  /** The text options the CV passes that affect layout or links: the link
      target, underlining, first-line indent, wrapping width, and whether the
      call continues on the same line. */
  datatype Style = Style(link: Option<string>, underline: bool, indent: real, width: Option<real>, continued: bool)

  /** One drawing call: `addPage()`, a filled `rect(...)`, or a `text(...)`. */
  datatype Op =
    | NewPage
    | FillRect(x: real, y: real, w: real, h: real)
    | Text(s: string, anchor: Anchor, style: Style)

  /** Options of a text call that passes none of the options above. */
  const PlainStyle: Style := Style(None, false, 0.0, None, false)

  /** Options of the leading part of a line that another call continues. */
  const ContinuedStyle: Style := Style(None, false, 0.0, None, true)

  /** pdfkit's font metrics and cursor movement, which depend on fonts the
      model does not describe:
      - `widthOf(s)` is `doc.widthOfString(s)`;
      - `lineAdvance(line)` is how far `doc.y` moves over one line of text
        calls (the last of which is not continued), wrapping included; it
        sees only the calls, so it is one function for every font, size
        and line gap;
      - `moveDown(k)` is how far `doc.moveDown(k)` moves `doc.y`. */
  datatype Metrics = Metrics(widthOf: string -> real, lineAdvance: seq<Op> -> real, moveDown: real -> real)

  /** Measurements are never negative: pdfkit only moves the cursor down. */
  ghost predicate ValidMetrics(m: Metrics)
  {
    && (forall s :: m.widthOf(s) >= 0.0)
    && (forall line :: m.lineAdvance(line) >= 0.0)
    && (forall k :: k >= 0.0 ==> m.moveDown(k) >= 0.0)
  }

  /** The calls one renderer issued and the cursor it leaves behind. */
  datatype Rendered = Rendered(ops: seq<Op>, cursor: Cursor)

  /** Where consecutive text lines go: the cursor line each is drawn on,
      and the cursor line where they end. */
  datatype Placement = Placement(tops: seq<real>, end: real)

  /** Lines placed at `tops` from `y` to `end`, each no higher than the one
      before, all lie between `y` and `end`. */
  lemma PlacedDownward(y: real, tops: seq<real>, end: real)
    requires |tops| == 0 ==> end == y
    requires |tops| > 0 ==> tops[0] == y && tops[|tops| - 1] <= end
    requires forall i, j :: 0 <= i && j == i + 1 && j < |tops| ==> tops[i] <= tops[j]
    ensures y <= end
    ensures forall i :: 0 <= i < |tops| ==> y <= tops[i] <= end
  {
    forall i | 0 <= i < |tops|
      ensures y <= tops[i] <= end
    {
      Ascending(tops, 0, i);
      Ascending(tops, i, |tops| - 1);
    }
  }

  lemma {:induction false} Ascending(tops: seq<real>, i: int, j: int)
    requires forall i, j :: 0 <= i && j == i + 1 && j < |tops| ==> tops[i] <= tops[j]
    requires 0 <= i <= j < |tops|
    ensures tops[i] <= tops[j]
    decreases j - i
  {
    if i < j {
      Ascending(tops, i, j - 1);
      assert tops[j - 1] <= tops[j];
    }
  }

  /** Call `op` is text drawn in the running flow on cursor line `y`. */
  predicate InFlow(op: Op, y: real)
  {
    op.Text? && op.anchor == Flow(y)
  }

  /** The cursor line a text line is drawn on (that of its first call). */
  function TopOf(line: seq<Op>): real
  {
    if |line| > 0 && line[0].Text? then line[0].anchor.y else 0.0
  }

  /** A text line is one or more text calls on one cursor line, all but the
      last continued. */
  predicate IsLine(line: seq<Op>)
  {
    && |line| > 0
    && (forall k :: 0 <= k < |line| ==> line[k].Text? && line[k].anchor.y == TopOf(line))
    && (forall k :: 0 <= k < |line| ==> (line[k].style.continued <==> k < |line| - 1))
  }

  /** The call stream of consecutive lines. */
  function Flatten(lines: seq<seq<Op>>): (ops: seq<Op>)
    ensures |lines| == 0 ==> ops == []
  {
    if |lines| == 0 then [] else lines[0] + Flatten(lines[1..])
  }

  /** Five lines flatten to their concatenation. */
  lemma FlattenFive(a: seq<Op>, b: seq<Op>, c: seq<Op>, d: seq<Op>, e: seq<Op>)
    ensures Flatten([a, b, c, d, e]) == a + b + c + d + e
  {
    assert [a, b, c, d, e][1..] == [b, c, d, e];
    assert [b, c, d, e][1..] == [c, d, e];
    assert [c, d, e][1..] == [d, e];
    assert [d, e][1..] == [e];
    assert Flatten([e]) == e by {
      assert [e][1..] == [];
      assert e + [] == e;
    }
    assert Flatten([d, e]) == d + e;
    assert Flatten([c, d, e]) == c + (d + e);
    assert Flatten([b, c, d, e]) == b + (c + (d + e));
    assert Flatten([a, b, c, d, e]) == a + (b + (c + (d + e)));
  }

  /** A property of single calls that holds of every call of every line
      holds of every call of the stream. */
  lemma {:induction false} FlattenAll(lines: seq<seq<Op>>, P: Op -> bool)
    requires forall i, j :: 0 <= i < |lines| && 0 <= j < |lines[i]| ==> P(lines[i][j])
    ensures forall k :: 0 <= k < |Flatten(lines)| ==> P(Flatten(lines)[k])
    decreases |lines|
  {
    if |lines| > 0 {
      FlattenAll(lines[1..], P);
      var rest := Flatten(lines[1..]);
      assert Flatten(lines) == lines[0] + rest;
      forall k | 0 <= k < |Flatten(lines)|
        ensures P(Flatten(lines)[k])
      {
        if k >= |lines[0]| {
          assert Flatten(lines)[k] == rest[k - |lines[0]|];
        }
      }
    }
  }

  /** Number of page breaks in a call stream. */
  function CountNewPages(ops: seq<Op>): (n: nat)
    ensures n <= |ops|
  {
    if |ops| == 0 then 0 else (if ops[0].NewPage? then 1 else 0) + CountNewPages(ops[1..])
  }

  lemma {:induction false} CountNewPagesAppend(a: seq<Op>, b: seq<Op>)
    ensures CountNewPages(a + b) == CountNewPages(a) + CountNewPages(b)
    decreases |a|
  {
    if |a| == 0 {
      assert a + b == b;
    } else {
      assert (a + b)[1..] == a[1..] + b;
      CountNewPagesAppend(a[1..], b);
    }
  }

  /** A stream made only of text lines holds no page break. */
  lemma {:induction false} FlattenLinesHasNoNewPage(lines: seq<seq<Op>>)
    requires forall i :: 0 <= i < |lines| ==> IsLine(lines[i])
    ensures CountNewPages(Flatten(lines)) == 0
    ensures forall k :: 0 <= k < |Flatten(lines)| ==> Flatten(lines)[k].Text?
    decreases |lines|
  {
    if |lines| > 0 {
      FlattenLinesHasNoNewPage(lines[1..]);
      TextOnlyHasNoNewPage(lines[0]);
      CountNewPagesAppend(lines[0], Flatten(lines[1..]));
    }
  }

  lemma {:induction false} TextOnlyHasNoNewPage(ops: seq<Op>)
    requires forall k :: 0 <= k < |ops| ==> ops[k].Text?
    ensures CountNewPages(ops) == 0
    decreases |ops|
  {
    if |ops| > 0 {
      TextOnlyHasNoNewPage(ops[1..]);
    }
  }

  /** When every line has exactly two calls, call `2*i + k` of the stream is
      call `k` of line `i`: the stream keeps the lines' order. */
  lemma {:induction false} FlattenPairs(lines: seq<seq<Op>>)
    requires forall i :: 0 <= i < |lines| ==> |lines[i]| == 2
    ensures |Flatten(lines)| == 2 * |lines|
    ensures forall i, k :: 0 <= i < |lines| && 0 <= k < 2 ==> Flatten(lines)[2 * i + k] == lines[i][k]
    decreases |lines|
  {
    if |lines| > 0 {
      FlattenPairs(lines[1..]);
      var rest := Flatten(lines[1..]);
      assert Flatten(lines) == lines[0] + rest;
      forall i, k | 0 <= i < |lines| && 0 <= k < 2
        ensures Flatten(lines)[2 * i + k] == lines[i][k]
      {
        if i > 0 {
          assert Flatten(lines)[2 * i + k] == rest[2 * (i - 1) + k];
          assert lines[1..][i - 1] == lines[i];
        }
      }
    }
  }
}
