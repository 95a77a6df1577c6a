/** The grid scaffold of a stock chart: a bordered table whose interior is split by dashed
    column and row dividers, above a strip reserved for time labels. The view keeps its grid
    configuration and its sizes in fields, rebuilds one shared path buffer for every line it
    draws, and draws each frame in the frame whose origin sits at the bottom of the table.

    The geometry getters read only the configuration and the sizes; they are members of
    Layout, the value of those fields, so that a draw pass and its properties can be stated
    about that value. */
module View {
  import opened Graphics

  /** The fields the grid geometry is computed from: the column and row counts, the margin,
      the view's width and the table's height. */
  datatype Layout = Layout(columnCount: int, topRowCount: int, tableMargin: real,
                           viewWidth: int, topTableHeight: real)
  {
    /** The counts the divisions of a draw pass need. */
    predicate Valid()
    {
      columnCount >= 1 && topRowCount >= 1
    }

    /** y of the table's top edge, in the frame whose origin is the bottom of the table (so the
        view's top edge is at y = -topTableHeight): one margin below the view's top edge. */
    function TopTableMaxY(): (r: real)
      ensures r - (-topTableHeight) == tableMargin
    {
      tableMargin - topTableHeight
    }

    /** y of the table's bottom edge, in the same frame: one margin above the origin, and the
        table height less both margins below the top edge. */
    function TopTableMinY(): (r: real)
      ensures 0.0 - r == tableMargin
      ensures r - TopTableMaxY() == topTableHeight - 2.0 * tableMargin
    {
      -tableMargin
    }

    /** x of the divider at the given position: that many gaps right of the left border, and
        right of the border exactly when the position is positive (for a positive gap). */
    function ColumnX(xSpace: real, position: int): (r: real)
      ensures r - tableMargin == position as real * xSpace
      ensures xSpace > 0.0 ==> (r > tableMargin <==> position > 0)
    {
      ProductSign(position as real, xSpace);
      tableMargin + xSpace * position as real
    }

    /** y of the row divider at the given position: that many gaps below the top border, and
        below it exactly when the position is positive (for a positive gap). */
    function RowY(ySpace: real, position: int): (r: real)
      ensures r - TopTableMaxY() == position as real * ySpace
      ensures ySpace > 0.0 ==> (r > TopTableMaxY() <==> position > 0)
    {
      ProductSign(position as real, ySpace);
      TopTableMaxY() + ySpace * position as real
    }

    // What a draw pass is specified to produce

    /** Horizontal gap between neighbouring columns. */
    function ColumnSpace(): real
      requires Valid()
    {
      (viewWidth as real - 2.0 * tableMargin) / columnCount as real
    }

    /** Vertical gap between neighbouring rows: the whole table height over the row count. */
    function RowSpace(): real
      requires Valid()
    {
      topTableHeight / topRowCount as real
    }

    /** The border: one closed contour through its four corners. */
    function BorderRect(): Contour
    {
      var right := viewWidth as real - tableMargin;
      Contour([Point(tableMargin, TopTableMinY()), Point(tableMargin, TopTableMaxY()),
               Point(right, TopTableMaxY()), Point(right, TopTableMinY())], true)
    }

    /** The path of the i-th column divider: bottom edge to top edge at that column's x. */
    function ColumnDivider(i: int): Path
      requires Valid()
    {
      var x := ColumnX(ColumnSpace(), i);
      [Contour([Point(x, TopTableMinY()), Point(x, TopTableMaxY())], false)]
    }

    /** The path of the i-th row divider: left border to right border at that row's y. */
    function RowDivider(i: int): Path
      requires Valid()
    {
      var y := RowY(RowSpace(), i);
      [Contour([Point(tableMargin, y), Point(viewWidth as real - tableMargin, y)], false)]
    }

    /** The colour row divider i is drawn in: the axis colour for the row at half the row
        count (integer division), the ordinary colour for every other. */
    function RowColour(i: int): (c: Colour)
      ensures c == Axis <==> i == topRowCount / 2
      ensures c == Ordinary <==> i != topRowCount / 2
    {
      if i != topRowCount / 2 then Ordinary else Axis
    }

    /** The drawing of column dividers 1 to k, in order. */
    function ColumnLines(k: nat): seq<DrawEvent>
      requires Valid()
    {
      if k == 0 then [] else ColumnLines(k - 1) + [DrawPath(ColumnDivider(k), Dotted(Ordinary))]
    }

    /** The drawing of row dividers 1 to k, in order. */
    function RowLines(k: nat): seq<DrawEvent>
      requires Valid()
    {
      if k == 0 then [] else RowLines(k - 1) + [DrawPath(RowDivider(k), Dotted(RowColour(k)))]
    }

    /** A whole draw pass whose border is drawn with the given path: save, move the origin to
        the bottom of the table, border, column dividers, row dividers, the two hooks, restore. */
    function PassEvents(borderPath: Path): seq<DrawEvent>
      requires Valid()
    {
      [Save, Translate(0.0, topTableHeight), DrawPath(borderPath, Solid)]
      + ColumnLines(columnCount - 1) + RowLines(topRowCount - 1)
      + [TimeTextHook, ChildHook, Restore]
    }

    /** The intended draw pass: the border path holds the border and nothing else. */
    function DrawPass(): seq<DrawEvent>
      requires Valid()
    {
      PassEvents([BorderRect()])
    }

    /** What the path buffer still holds after a pass: the last divider drawn, if any. */
    function Residual(): Path
      requires Valid()
    {
      if topRowCount >= 2 then RowDivider(topRowCount - 1)
      else if columnCount >= 2 then ColumnDivider(columnCount - 1)
      else []
    }
  }

  class StockView {
    /** Number of columns (one more than the number of vertical dividers). */
    var columnCount: int
    /** Number of rows of the table (one more than the number of horizontal dividers). */
    var topRowCount: int
    /** Margin between the view's edges and the border. */
    var tableMargin: real

    var viewWidth: int
    var viewHeight: int
    /** Height of the time strip below the table. */
    var timeTableHeight: real
    /** Height of the table above the time strip. */
    var topTableHeight: real
    /** Text size of the label paint. */
    var textSize: real
    /** Height of the label text rectangle as last measured (0 until something is measured). */
    var textHeight: int

    /** The shared path buffer every line is built in. */
    var linePath: Path
    /** The current colour of the shared dotted divider paint. */
    var dottedColour: Colour

    /** The geometry the view's fields give. */
    function Geometry(): Layout
      reads this`columnCount, this`topRowCount, this`tableMargin, this`viewWidth,
            this`topTableHeight
    {
      Layout(columnCount, topRowCount, tableMargin, viewWidth, topTableHeight)
    }

    ghost predicate Valid()
      reads this`columnCount, this`topRowCount, this`tableMargin, this`viewWidth,
            this`topTableHeight
    {
      Geometry().Valid()
    }

    /** The split of the height into table and time strip that a resize leaves. */
    ghost predicate Sized()
      reads this`viewHeight, this`timeTableHeight, this`topTableHeight
    {
      timeTableHeight == 0.055 * viewHeight as real
      && topTableHeight == viewHeight as real - timeTableHeight
    }

    /** The field initialisers: four columns, four rows, a margin of 1, nothing sized or
        measured yet and an empty path buffer. The label text size and the dotted paint's
        colour start at values no contract depends on; the platform's own defaults for the
        paints are not part of this model. */
    constructor ()
      ensures Valid()
      ensures columnCount == 4 && topRowCount == 4 && tableMargin == 1.0
      ensures viewWidth == 0 && viewHeight == 0 && timeTableHeight == 0.0 && topTableHeight == 0.0
      ensures textHeight == 0 && linePath == []
    {
      columnCount, topRowCount, tableMargin := 4, 4, 1.0;
      viewWidth, viewHeight := 0, 0;
      timeTableHeight, topTableHeight := 0.0, 0.0;
      textSize := 0.0;
      textHeight := 0;
      linePath := [];
      dottedColour := Ordinary;
    }

    /** A new surface size: stores it, gives 5.5% of the height to the time strip and the rest
        to the table, and sizes the label text at 80% of the strip. */
    method OnSizeChanged(w: int, h: int)
      modifies this`viewWidth, this`viewHeight, this`timeTableHeight, this`topTableHeight,
               this`textSize
      ensures viewWidth == w && viewHeight == h
      ensures Sized()
      ensures timeTableHeight + topTableHeight == h as real
      ensures textSize == 0.8 * timeTableHeight
    {
      viewWidth := w;
      viewHeight := h;
      timeTableHeight := viewHeight as real * 0.055;
      topTableHeight := viewHeight as real - timeTableHeight;
      textSize := timeTableHeight * 0.8;
    }

    /** Gap between the time strip's top and the top of the measured text. */
    function XYTextMargin(): (r: real)
      reads this`timeTableHeight, this`textHeight
      ensures r + textHeight as real + r == timeTableHeight
    {
      (timeTableHeight - textHeight as real) / 2.0
    }

    /** Baseline of a time label: the measured text sits centred in the strip. */
    function TimeTextY(): (r: real)
      reads this`timeTableHeight, this`textHeight
      ensures r == (timeTableHeight + textHeight as real) / 2.0
      ensures timeTableHeight - r == XYTextMargin()
    {
      XYTextMargin() + textHeight as real
    }

    /** The border as written: built on top of whatever the path buffer holds, drawn solid,
        then the buffer is reset. */
    method DrawBordersAsWritten(canvas: Canvas)
      modifies this`linePath, canvas
      ensures canvas.trace == old(canvas.trace) + [DrawPath(old(linePath) + [Geometry().BorderRect()], Solid)]
      ensures linePath == []
    {
      BuildBorder();
      canvas.DrawPath(linePath, Solid);
      linePath := [];
    }

    /** The border with the buffer reset first, so the path drawn is the border alone. */
    method DrawBorders(canvas: Canvas)
      modifies this`linePath, canvas
      ensures canvas.trace == old(canvas.trace) + [DrawPath([Geometry().BorderRect()], Solid)]
      ensures linePath == []
    {
      linePath := [];
      BuildBorder();
      assert linePath == [Geometry().BorderRect()];
      canvas.DrawPath(linePath, Solid);
      linePath := [];
    }

    /** moveTo the bottom-left corner, lineTo the other three, close. */
    method BuildBorder()
      modifies this`linePath
      ensures linePath == old(linePath) + [Geometry().BorderRect()]
    {
      var g := Geometry();
      var right := viewWidth as real - tableMargin;
      ghost var before := linePath;
      var a, b, c, d :=
        Point(tableMargin, g.TopTableMinY()), Point(tableMargin, g.TopTableMaxY()),
        Point(right, g.TopTableMaxY()), Point(right, g.TopTableMinY());
      linePath := MoveTo(linePath, a);
      linePath := LineTo(linePath, b);
      LineToOpen(before, [a], b);
      assert [a] + [b] == [a, b];
      linePath := LineTo(linePath, c);
      LineToOpen(before, [a, b], c);
      assert [a, b] + [c] == [a, b, c];
      linePath := LineTo(linePath, d);
      LineToOpen(before, [a, b, c], d);
      assert [a, b, c] + [d] == [a, b, c, d];
      linePath := Close(linePath);
      CloseLast(before, [a, b, c, d]);
    }

    /** reset, moveTo p, lineTo q: the buffer then holds the one segment from p to q. */
    method BuildSegment(p: Point, q: Point)
      modifies this`linePath
      ensures linePath == [Contour([p, q], false)]
    {
      linePath := [];
      linePath := MoveTo(linePath, p);
      linePath := LineTo(linePath, q);
      LineToOpen([], [p], q);
      assert [p] + [q] == [p, q];
    }

    /** The column dividers, each built afresh in the shared buffer and drawn dashed in the
        ordinary divider colour. */
    method DrawColumnLine(canvas: Canvas)
      requires Valid()
      modifies this`linePath, this`dottedColour, canvas
      ensures canvas.trace == old(canvas.trace) + Geometry().ColumnLines(columnCount - 1)
      ensures linePath == if columnCount >= 2 then Geometry().ColumnDivider(columnCount - 1) else old(linePath)
      ensures dottedColour == Ordinary
    {
      var g := Geometry();
      dottedColour := Ordinary;
      var xSpace := (viewWidth as real - 2.0 * tableMargin) / columnCount as real;
      var i := 1;
      while i < columnCount
        invariant 1 <= i <= columnCount
        invariant xSpace == g.ColumnSpace()
        invariant canvas.trace == old(canvas.trace) + g.ColumnLines(i - 1)
        invariant linePath == if i >= 2 then g.ColumnDivider(i - 1) else old(linePath)
        invariant dottedColour == Ordinary
      {
        var x := g.ColumnX(xSpace, i);
        BuildSegment(Point(x, g.TopTableMinY()), Point(x, g.TopTableMaxY()));
        canvas.DrawPath(linePath, Dotted(dottedColour));
        i := i + 1;
      }
    }

    /** The row dividers, each built afresh in the shared buffer; the dotted paint is recoloured
        before each one, to the axis colour for the row at half the row count. */
    method DrawRowLine(canvas: Canvas)
      requires Valid()
      modifies this`linePath, this`dottedColour, canvas
      ensures canvas.trace == old(canvas.trace) + Geometry().RowLines(topRowCount - 1)
      ensures linePath == if topRowCount >= 2 then Geometry().RowDivider(topRowCount - 1) else old(linePath)
      ensures dottedColour == if topRowCount >= 2 then Geometry().RowColour(topRowCount - 1) else old(dottedColour)
    {
      var g := Geometry();
      var rowSpacing := topTableHeight / topRowCount as real;
      var i := 1;
      while i < topRowCount
        invariant 1 <= i <= topRowCount
        invariant rowSpacing == g.RowSpace()
        invariant canvas.trace == old(canvas.trace) + g.RowLines(i - 1)
        invariant linePath == if i >= 2 then g.RowDivider(i - 1) else old(linePath)
        invariant dottedColour == if i >= 2 then g.RowColour(i - 1) else old(dottedColour)
      {
        var y := g.RowY(rowSpacing, i);
        BuildSegment(Point(tableMargin, y), Point(viewWidth as real - tableMargin, y));
        dottedColour := if i != topRowCount / 2 then Ordinary else Axis;
        canvas.DrawPath(linePath, Dotted(dottedColour));
        i := i + 1;
      }
    }

    /** Hook for the time labels; the base view draws none. */
    method DrawTimeText(canvas: Canvas)
      modifies canvas
      ensures canvas.trace == old(canvas.trace) + [TimeTextHook]
    {
      canvas.Hook(TimeTextHook);
    }

    /** Hook for the chart drawn over the grid; the base view draws nothing. */
    method ChildDraw(canvas: Canvas)
      modifies canvas
      ensures canvas.trace == old(canvas.trace) + [ChildHook]
    {
      canvas.Hook(ChildHook);
    }

    method OnDrawAsWritten(canvas: Canvas)
      requires Valid()
      modifies this`linePath, this`dottedColour, canvas
      ensures dottedColour == if topRowCount >= 2 then Geometry().RowColour(topRowCount - 1) else Ordinary
      ensures canvas.trace == old(canvas.trace) + Geometry().PassEvents(old(linePath) + [Geometry().BorderRect()])
      ensures linePath == Geometry().Residual()
    {
      ghost var g, start, residual := Geometry(), canvas.trace, linePath;
      canvas.Save();
      canvas.Translate(0.0, topTableHeight);
      DrawBordersAsWritten(canvas);
      DrawColumnLine(canvas);
      DrawRowLine(canvas);
      DrawTimeText(canvas);
      ChildDraw(canvas);
      canvas.Restore();
      PassAssembled(g, residual + [g.BorderRect()], start);
    }

    method OnDraw(canvas: Canvas)
      requires Valid()
      modifies this`linePath, this`dottedColour, canvas
      ensures dottedColour == if topRowCount >= 2 then Geometry().RowColour(topRowCount - 1) else Ordinary
      ensures canvas.trace == old(canvas.trace) + Geometry().DrawPass()
      ensures old(canvas.Current()).Some? ==> canvas.Current() == old(canvas.Current())
      ensures linePath == Geometry().Residual()
    {
      ghost var g, start := Geometry(), canvas.trace;
      canvas.Save();
      canvas.Translate(0.0, topTableHeight);
      DrawBorders(canvas);
      DrawColumnLine(canvas);
      DrawRowLine(canvas);
      DrawTimeText(canvas);
      ChildDraw(canvas);
      canvas.Restore();
      PassAssembled(g, [g.BorderRect()], start);
      ReplayAppend(Transform(Point(0.0, 0.0), []), start, g.DrawPass());
      if old(canvas.Current()).Some? {
        PassRestoresTransform(g, [g.BorderRect()], old(canvas.Current()).value);
      }
    }
  }

  /** The pieces a draw pass appends, one call after another, make up the pass. */
  lemma PassAssembled(g: Layout, borderPath: Path, start: seq<DrawEvent>)
    requires g.Valid()
    ensures start + [Save] + [Translate(0.0, g.topTableHeight)] + [DrawPath(borderPath, Solid)]
              + g.ColumnLines(g.columnCount - 1) + g.RowLines(g.topRowCount - 1)
              + [TimeTextHook] + [ChildHook] + [Restore]
            == start + g.PassEvents(borderPath)
  {
    var cols, rows := g.ColumnLines(g.columnCount - 1), g.RowLines(g.topRowCount - 1);
    assert [Save] + [Translate(0.0, g.topTableHeight)] + [DrawPath(borderPath, Solid)]
        == [Save, Translate(0.0, g.topTableHeight), DrawPath(borderPath, Solid)];
    assert [TimeTextHook] + [ChildHook] + [Restore] == [TimeTextHook, ChildHook, Restore];
  }

  // -----------------------------------------------------------------------------------------
  // Properties of the draw pass

  /** The column pass draws exactly k dividers for ColumnLines(k), the j-th (from 0) being
      divider j + 1, all in the ordinary colour. */
  lemma {:induction false} ColumnLinesAt(g: Layout, k: nat)
    requires g.Valid()
    ensures |g.ColumnLines(k)| == k
    ensures forall j :: 0 <= j < k ==> g.ColumnLines(k)[j] == DrawPath(g.ColumnDivider(j + 1), Dotted(Ordinary))
  {
    if k > 0 {
      ColumnLinesAt(g, k - 1);
    }
  }

  /** The row pass draws exactly k dividers for RowLines(k), the j-th (from 0) being divider
      j + 1 in that row's colour. */
  lemma {:induction false} RowLinesAt(g: Layout, k: nat)
    requires g.Valid()
    ensures |g.RowLines(k)| == k
    ensures forall j :: 0 <= j < k ==> g.RowLines(k)[j] == DrawPath(g.RowDivider(j + 1), Dotted(g.RowColour(j + 1)))
  {
    if k > 0 {
      RowLinesAt(g, k - 1);
    }
  }

  /** A frame holds exactly columnCount - 1 column dividers and topRowCount - 1 row dividers,
      between the border and the two hooks; none of either kind for a count of 1. */
  lemma DividerCounts(g: Layout)
    requires g.Valid()
    ensures |g.ColumnLines(g.columnCount - 1)| == g.columnCount - 1
    ensures |g.RowLines(g.topRowCount - 1)| == g.topRowCount - 1
    ensures |g.DrawPass()| == g.columnCount + g.topRowCount + 4
  {
    ColumnLinesAt(g, g.columnCount - 1);
    RowLinesAt(g, g.topRowCount - 1);
  }

  lemma PositiveProduct(a: real, b: real)
    requires a > 0.0 && b > 0.0
    ensures a * b > 0.0
  {
  }

  lemma ProductSign(a: real, b: real)
    ensures b > 0.0 ==> (a * b > 0.0 <==> a > 0.0)
  {
    if b > 0.0 && a > 0.0 {
      PositiveProduct(a, b);
    } else if b > 0.0 && a <= 0.0 {
      assert a * b == -((-a) * b);
      if a < 0.0 {
        PositiveProduct(-a, b);
      }
    }
  }

  /** Column dividers are evenly spaced, and when the view is wider than both margins they
      strictly increase. */
  lemma ColumnsEvenlySpaced(g: Layout, i: int, j: int)
    requires g.Valid()
    requires i < j
    ensures g.ColumnX(g.ColumnSpace(), j) - g.ColumnX(g.ColumnSpace(), i) == (j - i) as real * g.ColumnSpace()
    ensures g.viewWidth as real > 2.0 * g.tableMargin ==> g.ColumnX(g.ColumnSpace(), i) < g.ColumnX(g.ColumnSpace(), j)
  {
    var s := g.ColumnSpace();
    assert g.ColumnX(s, j) - g.ColumnX(s, i) == (j - i) as real * s;
    if g.viewWidth as real > 2.0 * g.tableMargin {
      assert s > 0.0;
      PositiveProduct((j - i) as real, s);
    }
  }

  /** Every column divider lies strictly between the left and the right border when the view
      is wider than both margins. */
  lemma ColumnsInterior(g: Layout, i: int)
    requires g.Valid()
    requires 1 <= i < g.columnCount
    requires g.viewWidth as real > 2.0 * g.tableMargin
    ensures g.tableMargin < g.ColumnX(g.ColumnSpace(), i) < g.viewWidth as real - g.tableMargin
  {
    var inner := g.viewWidth as real - 2.0 * g.tableMargin;
    var n := g.columnCount as real;
    var s := g.ColumnSpace();
    assert s * n == inner;
    PositiveProduct(i as real, s);
    PositiveProduct(n - i as real, s);
    assert inner - i as real * s == (n - i as real) * s;
  }

  /** Four columns on a 400-wide view with margin 1 put the dividers at 100.5, 200 and 299.5. */
  lemma ColumnExample(g: Layout)
    requires g.columnCount == 4 && g.topRowCount >= 1 && g.viewWidth == 400 && g.tableMargin == 1.0
    ensures g.ColumnX(g.ColumnSpace(), 1) == 100.5
    ensures g.ColumnX(g.ColumnSpace(), 2) == 200.0
    ensures g.ColumnX(g.ColumnSpace(), 3) == 299.5
  {
  }

  /** Row dividers are evenly spaced by the table height over the row count; with a positive
      table height they strictly increase, lie strictly below the top border, and stay above
      y = tableMargin. That bound is all there is: the spacing is taken over the whole table
      height, not the height inside the border, so nothing keeps the last row above the bottom
      border at y = -tableMargin (see RowGaps). */
  lemma RowsEvenlySpaced(g: Layout, i: int, j: int)
    requires g.Valid()
    requires 1 <= i < j < g.topRowCount
    ensures g.RowY(g.RowSpace(), j) - g.RowY(g.RowSpace(), i) == (j - i) as real * g.RowSpace()
    ensures g.topTableHeight > 0.0 ==>
      g.TopTableMaxY() < g.RowY(g.RowSpace(), i) < g.RowY(g.RowSpace(), j) < g.tableMargin
  {
    var s := g.RowSpace();
    var n := g.topRowCount as real;
    if g.topTableHeight > 0.0 {
      assert s * n == g.topTableHeight;
      PositiveProduct(i as real, s);
      PositiveProduct((j - i) as real, s);
      PositiveProduct(n - j as real, s);
      assert g.tableMargin - g.RowY(s, j) == (n - j as real) * s;
    }
  }

  /** Each drawn row divider, with a positive table height, lies strictly below the top border
      and above y = tableMargin; this holds also when the table has a single divider. */
  lemma RowInterior(g: Layout, i: int)
    requires g.Valid()
    requires 1 <= i < g.topRowCount
    requires g.topTableHeight > 0.0
    ensures g.TopTableMaxY() < g.RowY(g.RowSpace(), i) < g.tableMargin
  {
    var s, n := g.RowSpace(), g.topRowCount as real;
    assert s * n == g.topTableHeight;
    PositiveProduct(i as real, s);
    PositiveProduct(n - i as real, s);
    assert g.tableMargin - g.RowY(s, i) == (n - i as real) * s;
  }

  /** The first row sits one row gap below the top border, but the last sits only the row gap
      less twice the margin above the bottom border. */
  lemma RowGaps(g: Layout)
    requires g.Valid() && g.topRowCount >= 2
    ensures g.RowY(g.RowSpace(), 1) - g.TopTableMaxY() == g.RowSpace()
    ensures g.TopTableMinY() - g.RowY(g.RowSpace(), g.topRowCount - 1) == g.RowSpace() - 2.0 * g.tableMargin
  {
    var s, n := g.RowSpace(), g.topRowCount as real;
    assert s * n == g.topTableHeight;
    assert g.RowY(s, g.topRowCount - 1) == g.tableMargin - s;
  }

  /** A table 4 high with margin 1 and four rows puts the last row divider at y = 0, below the
      bottom border at y = -1. */
  lemma LastRowBelowBorderExample(g: Layout)
    requires g.topRowCount == 4 && g.columnCount >= 1 && g.topTableHeight == 4.0 && g.tableMargin == 1.0
    ensures g.RowY(g.RowSpace(), 3) == 0.0
    ensures g.RowY(g.RowSpace(), 3) > g.TopTableMinY()
  {
  }

  /** The border is an axis-aligned closed rectangle traced from the bottom-left corner up, across
      and down: its left and right sides are at the two margins and its width is the view width
      less both margins; its height is the table height less both margins. */
  lemma BorderIsRectangle(g: Layout)
    ensures g.BorderRect().closed && |g.BorderRect().points| == 4
    ensures var p := g.BorderRect().points;
      p[0].x == p[1].x == g.tableMargin && p[2].x == p[3].x == g.viewWidth as real - g.tableMargin
      && p[1].y == p[2].y == g.TopTableMaxY() && p[0].y == p[3].y == g.TopTableMinY()
      && p[3].x - p[0].x == g.viewWidth as real - 2.0 * g.tableMargin
      && p[0].y - p[1].y == g.topTableHeight - 2.0 * g.tableMargin
  {
  }

  /** Row i is axis-coloured exactly when i is half the row count (integer division); that row
      is one of the drawn rows 1 .. topRowCount - 1 whenever there are two rows or more. */
  lemma AxisRowUnique(g: Layout)
    requires g.Valid()
    ensures forall i :: g.RowColour(i) == Axis <==> i == g.topRowCount / 2
    ensures g.topRowCount >= 2 ==> 1 <= g.topRowCount / 2 <= g.topRowCount - 1
  {
  }

  /** How many events of a sequence draw in the axis colour. */
  function AxisCount(es: seq<DrawEvent>): nat
  {
    if es == [] then 0
    else
      var last := es[|es| - 1];
      AxisCount(es[..|es| - 1]) + if last.DrawPath? && last.paint == Dotted(Axis) then 1 else 0
  }

  /** The first k row dividers hold one axis-coloured line if the axis row is among them,
      none otherwise. */
  lemma {:induction false} AxisCountRows(g: Layout, k: nat)
    requires g.Valid()
    ensures AxisCount(g.RowLines(k)) == if 1 <= g.topRowCount / 2 <= k then 1 else 0
  {
    if k > 0 {
      AxisCountRows(g, k - 1);
      var es := g.RowLines(k);
      assert es[..|es| - 1] == g.RowLines(k - 1);
    }
  }

  /** A frame draws exactly one axis-coloured line when the table has two rows or more, and
      none when it has one. Five rows put it at row 2. */
  lemma OneAxisLinePerFrame(g: Layout)
    requires g.Valid()
    ensures AxisCount(g.RowLines(g.topRowCount - 1)) == if g.topRowCount >= 2 then 1 else 0
    ensures g.topRowCount == 5 ==> g.RowColour(2) == Axis && g.RowColour(3) == Ordinary
  {
    AxisCountRows(g, g.topRowCount - 1);
  }

  /** A frame restores the transform it started with, and everything between the translation
      and the restore is drawn with the origin moved down by the table height. */
  lemma PassRestoresTransform(g: Layout, borderPath: Path, t: Transform)
    requires g.Valid()
    ensures Replay(t, g.PassEvents(borderPath)) == Some(t)
    ensures Replay(t, g.PassEvents(borderPath)[..|g.PassEvents(borderPath)| - 1])
              == Some(Transform(Point(t.origin.x, t.origin.y + g.topTableHeight), t.saved + [t.origin]))
  {
    var cols := g.ColumnLines(g.columnCount - 1);
    var rows := g.RowLines(g.topRowCount - 1);
    ColumnLinesAt(g, g.columnCount - 1);
    RowLinesAt(g, g.topRowCount - 1);
    var body := [DrawPath(borderPath, Solid)] + cols + rows + [TimeTextHook, ChildHook];
    assert PaintsOnly(body) by {
      forall i | 0 <= i < |body|
        ensures body[i].DrawPath? || body[i].TimeTextHook? || body[i].ChildHook?
      {
        if 1 <= i < 1 + |cols| {
          assert body[i] == cols[i - 1];
        } else if 1 + |cols| <= i < 1 + |cols| + |rows| {
          assert body[i] == rows[i - 1 - |cols|];
        }
      }
    }
    var pass := g.PassEvents(borderPath);
    assert pass == [Save, Translate(0.0, g.topTableHeight)] + body + [Restore];
    assert pass[..|pass| - 1] == [Save, Translate(0.0, g.topTableHeight)] + body;
    BracketedPaintingRestores(t, 0.0, g.topTableHeight, body);
  }

  /** As written, the second frame's border path starts with the divider the first frame left in
      the buffer, so the two frames differ whenever a divider is drawn. */
  lemma StaleDividerInNextBorder(g: Layout)
    requires g.Valid()
    requires g.columnCount >= 2 || g.topRowCount >= 2
    ensures g.PassEvents(g.Residual() + [g.BorderRect()]) != g.DrawPass()
    ensures g.PassEvents(g.Residual() + [g.BorderRect()])[2].path[0] == g.Residual()[0]
  {
    var stale := g.PassEvents(g.Residual() + [g.BorderRect()]);
    assert stale[2] == DrawPath(g.Residual() + [g.BorderRect()], Solid);
    assert g.DrawPass()[2] == DrawPath([g.BorderRect()], Solid);
    assert |g.Residual() + [g.BorderRect()]| == 2;
  }

  /** Scaling the width, the table height and the margin together by k > 0 scales every divider
      position and every border corner by k, and leaves the colours as they were. A resize
      scales only the width and the heights: the margin stays as it was, and then the grid does
      not scale (FixedMarginDoesNotScale). */
  lemma ResizeScalesColumns(g: Layout, h: Layout, k: real, i: int)
    requires g.Valid()
    requires h.columnCount == g.columnCount && h.topRowCount == g.topRowCount
    requires k > 0.0
    requires h.viewWidth as real == k * g.viewWidth as real
    requires h.topTableHeight == k * g.topTableHeight
    requires h.tableMargin == k * g.tableMargin
    ensures h.ColumnSpace() == k * g.ColumnSpace()
    ensures h.ColumnX(h.ColumnSpace(), i) == k * g.ColumnX(g.ColumnSpace(), i)
  {
    var m, w := g.tableMargin, g.viewWidth as real;
    assert h.viewWidth as real - 2.0 * h.tableMargin == k * (w - 2.0 * m);
    ScaledQuotient(k, w - 2.0 * m, g.columnCount as real);
    ScaledAffine(k, m, g.ColumnSpace(), i as real);
  }

  lemma ResizeScalesRows(g: Layout, h: Layout, k: real, i: int)
    requires g.Valid()
    requires h.columnCount == g.columnCount && h.topRowCount == g.topRowCount
    requires k > 0.0
    requires h.viewWidth as real == k * g.viewWidth as real
    requires h.topTableHeight == k * g.topTableHeight
    requires h.tableMargin == k * g.tableMargin
    ensures h.RowSpace() == k * g.RowSpace()
    ensures h.RowY(h.RowSpace(), i) == k * g.RowY(g.RowSpace(), i)
    ensures h.RowColour(i) == g.RowColour(i)
  {
    ScaledQuotient(k, g.topTableHeight, g.topRowCount as real);
    assert h.TopTableMaxY() == k * g.TopTableMaxY();
    ScaledAffine(k, g.TopTableMaxY(), g.RowSpace(), i as real);
  }

  lemma ResizeScalesBorder(g: Layout, h: Layout, k: real)
    requires g.Valid()
    requires h.columnCount == g.columnCount && h.topRowCount == g.topRowCount
    requires k > 0.0
    requires h.viewWidth as real == k * g.viewWidth as real
    requires h.topTableHeight == k * g.topTableHeight
    requires h.tableMargin == k * g.tableMargin
    ensures forall c :: 0 <= c < 4 ==>
      h.BorderRect().points[c] == Point(k * g.BorderRect().points[c].x, k * g.BorderRect().points[c].y)
  {
    assert h.TopTableMaxY() == k * g.TopTableMaxY();
    assert h.TopTableMinY() == k * g.TopTableMinY();
    assert h.viewWidth as real - h.tableMargin == k * (g.viewWidth as real - g.tableMargin);
  }

  /** With the margin fixed at 1, doubling a 400-wide view moves the first of four columns from
      100.5 to 200.5, not to 201. */
  lemma FixedMarginDoesNotScale(g: Layout, h: Layout)
    requires g.columnCount == 4 && h.columnCount == 4 && g.topRowCount >= 1 && h.topRowCount >= 1
    requires g.viewWidth == 400 && h.viewWidth == 800
    requires g.tableMargin == 1.0 && h.tableMargin == 1.0
    ensures g.ColumnX(g.ColumnSpace(), 1) == 100.5
    ensures h.ColumnX(h.ColumnSpace(), 1) == 200.5
    ensures h.ColumnX(h.ColumnSpace(), 1) != 2.0 * g.ColumnX(g.ColumnSpace(), 1)
  {
  }

  lemma ScaledQuotient(k: real, a: real, n: real)
    requires n != 0.0
    ensures (k * a) / n == k * (a / n)
  {
  }

  lemma ScaledAffine(k: real, a: real, s: real, p: real)
    ensures k * a + (k * s) * p == k * (a + s * p)
  {
  }

  /** A resize keeps the table height proportional to the view height, so views resized to
      heights in ratio k have table heights in ratio k. */
  lemma SizingScales(v: StockView, u: StockView, k: real)
    requires v.Sized() && u.Sized()
    requires u.viewHeight as real == k * v.viewHeight as real
    ensures u.topTableHeight == k * v.topTableHeight
    ensures u.timeTableHeight == k * v.timeTableHeight
  {
  }
}
