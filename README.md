# StockView grid layout

A model of the grid scaffold that the stock-chart views are drawn on (`StockView`). The view
keeps these fields:

- a column count, a row count and a margin;
- the view's width and height;
- the split of that height into a table and a time strip below it.

Each frame draws a bordered table whose inside is split by dashed column and row dividers.
Exactly one row divider, the one at half the row count, is drawn in the axis colour.

Two modules:

- `Graphics` is the drawing back end the view talks to:
  - points and the two paints (solid border, dotted divider with a colour);
  - a path as a sequence of contours built by `MoveTo`, `LineTo` and `Close`;
  - a `Canvas` that records the events it is asked to draw;
  - `Replay`, the translation state that save, translate and restore produce.
- `View` holds the view and its geometry:
  - `Layout` is the value of the geometry fields. Its members are the geometry getters and the specification of a draw pass (`DrawPass`, `ColumnLines`, `RowLines`, `Residual`).
  - `StockView` is the class whose methods update the fields, the shared path buffer `linePath` and the dotted paint's colour in place, and append to the canvas.

The draw methods are proved against the `Layout` functions. The properties are proved about
those functions:

- the divider counts;
- the position and spacing of each divider;
- the single axis-coloured row;
- the border rectangle;
- the restored canvas transform;
- proportional scaling of the grid when the width, the table height and the margin are all scaled together.

Three facts about the code shape the model:

- The column and row counts are private fields fixed at 4 in the code. The model keeps them as fields and proves everything for any counts of at least 1. Java float division by zero would not throw, so the requirement of at least 1 is the model's, not the code's.
- The rows are spaced over the whole table height, not the height inside the border. So the last row divider is only a row gap less twice the margin above the bottom border, and it can fall below that border (`RowGaps`, `LastRowBelowBorderExample`).
- A resize (`onSizeChanged`) changes the width and the heights but never the margin, which stays 1. The grid scales with the view only when the margin scales too (`ResizeScales*`). With the fixed margin it does not: doubling a 400-wide view moves the first of four columns from 100.5 to 200.5, not 201 (`FixedMarginDoesNotScale`).

## Model

| member | source | states |
|---|---|---|
| View.Layout.TopTableMaxY | stock/src/main/java/ysn/com/stock/view/StockView.java:156-158 | the top border is one margin below the view's top edge, at y = -H in the translated frame |
| View.Layout.TopTableMinY | stock/src/main/java/ysn/com/stock/view/StockView.java:160-162 | the bottom border is one margin above the translated origin, H-2m below the top border |
| View.Layout.ColumnX | stock/src/main/java/ysn/com/stock/view/StockView.java:187-189 | column x is position gaps right of the left border, strictly right of it exactly for positive positions when the gap is positive |
| View.Layout.RowY | stock/src/main/java/ysn/com/stock/view/StockView.java:215-217 | row y is position gaps below the top border, strictly below it exactly for positive positions when the gap is positive |
| View.Layout.RowColour | stock/src/main/java/ysn/com/stock/view/StockView.java:202-203 | axis colour if and only if the index is topRowCount/2 (integer division), ordinary otherwise |
| View.StockView.constructor | stock/src/main/java/ysn/com/stock/view/StockView.java:42-61 | four columns, four rows, margin 1, nothing sized, empty path buffer |
| View.StockView.OnSizeChanged | stock/src/main/java/ysn/com/stock/view/StockView.java:111-120 | stores the size; time strip is 0.055 of the height, table the rest, so they sum to the height; text size is 0.8 of the strip |
| View.SizingScales | stock/src/main/java/ysn/com/stock/view/StockView.java:111-120 | heights in ratio k give table and strip heights in ratio k |
| View.StockView.XYTextMargin | stock/src/main/java/ysn/com/stock/view/StockView.java:239-241 | margin + text height + margin fills the time strip exactly |
| View.StockView.TimeTextY | stock/src/main/java/ysn/com/stock/view/StockView.java:230-232 | baseline is (strip height + text height)/2, one margin above the strip's bottom |
| View.StockView.BuildBorder | stock/src/main/java/ysn/com/stock/view/StockView.java:147-151 | moveTo plus three lineTo plus close append exactly the closed border contour to the buffer |
| View.StockView.DrawBordersAsWritten | stock/src/main/java/ysn/com/stock/view/StockView.java:145-154 | draws solid whatever the buffer held plus the border, then leaves the buffer empty |
| View.StockView.DrawBorders | stock/src/main/java/ysn/com/stock/view/StockView.java:145-154 | draws solid the border contour alone and leaves the buffer empty |
| View.BorderIsRectangle | stock/src/main/java/ysn/com/stock/view/StockView.java:145-162 | the border is closed with corners (m,-m), (m,m-H), (w-m,m-H), (w-m,-m); width w-2m, height H-2m |
| View.StockView.BuildSegment | stock/src/main/java/ysn/com/stock/view/StockView.java:172-175 | reset, moveTo, lineTo leave the buffer holding the one open segment |
| View.StockView.DrawColumnLine | stock/src/main/java/ysn/com/stock/view/StockView.java:167-178 | appends column dividers 1..columnCount-1 in order, all dotted in the ordinary colour; the buffer keeps the last one |
| View.ColumnLinesAt | stock/src/main/java/ysn/com/stock/view/StockView.java:171-176 | the column pass has k events, event j draws divider j+1 from the bottom edge to the top edge in the ordinary colour |
| View.ColumnsEvenlySpaced | stock/src/main/java/ysn/com/stock/view/StockView.java:170-189 | the gap between columns i and j is (j-i) times the column space; strictly increasing when w > 2m |
| View.ColumnsInterior | stock/src/main/java/ysn/com/stock/view/StockView.java:170-189 | every drawn column lies strictly between m and w-m when w > 2m |
| View.ColumnExample | stock/src/main/java/ysn/com/stock/view/StockView.java:170-189 | w=400, m=1, four columns: 100.5, 200, 299.5 |
| View.StockView.DrawRowLine | stock/src/main/java/ysn/com/stock/view/StockView.java:194-206 | appends row dividers 1..topRowCount-1 in order, each in its row colour, recolouring the paint first; the buffer keeps the last one |
| View.RowLinesAt | stock/src/main/java/ysn/com/stock/view/StockView.java:197-204 | the row pass has k events, event j draws row divider j+1 from m to w-m in that row's colour |
| View.RowsEvenlySpaced | stock/src/main/java/ysn/com/stock/view/StockView.java:196-217 | gap is (j-i) times H/topRowCount; with H > 0 rows strictly increase, lie below the top border and above y = m |
| View.RowInterior | stock/src/main/java/ysn/com/stock/view/StockView.java:196-217 | with H > 0 every drawn row, the only one of a two-row table included, lies strictly below the top border and above y = m |
| View.RowGaps | stock/src/main/java/ysn/com/stock/view/StockView.java:156-217 | first row is one gap below the top border; last row is one gap less 2m above the bottom border |
| View.LastRowBelowBorderExample | stock/src/main/java/ysn/com/stock/view/StockView.java:156-217 | H=4, m=1, four rows: the last row is at y=0, past the bottom border at y=-1 |
| View.AxisRowUnique | stock/src/main/java/ysn/com/stock/view/StockView.java:202-203 | a row is axis-coloured if and only if its index is topRowCount/2, which is a drawn row whenever topRowCount >= 2 |
| View.AxisCountRows | stock/src/main/java/ysn/com/stock/view/StockView.java:197-205 | the first k row events hold one axis-coloured line exactly when 1 <= topRowCount/2 <= k, otherwise none |
| View.OneAxisLinePerFrame | stock/src/main/java/ysn/com/stock/view/StockView.java:197-205 | the row pass draws exactly one axis line for two rows or more, none for one; five rows put it at row 2 |
| View.StockView.DrawTimeText | stock/src/main/java/ysn/com/stock/view/StockView.java:222-223 | the time-label hook draws nothing; only its place in the order is recorded |
| View.StockView.ChildDraw | stock/src/main/java/ysn/com/stock/view/StockView.java:246-247 | the overlay hook draws nothing; only its place in the order is recorded |
| View.StockView.OnDraw | stock/src/main/java/ysn/com/stock/view/StockView.java:123-140 | appends exactly the draw pass: save, translate(0,H), border, columns, rows, two hooks, restore; restores the canvas transform; leaves the last divider in the buffer and the dotted paint in the last row's colour (ordinary with one row) |
| View.StockView.OnDrawAsWritten | stock/src/main/java/ysn/com/stock/view/StockView.java:123-140 | the same pass and final buffer and paint colour, except that the border path begins with whatever the buffer held before the frame |
| View.DividerCounts | stock/src/main/java/ysn/com/stock/view/StockView.java:167-206 | columnCount-1 column dividers, topRowCount-1 row dividers, columnCount+topRowCount+4 events per frame |
| View.PassRestoresTransform | stock/src/main/java/ysn/com/stock/view/StockView.java:123-140 | a pass leaves the transform as it was; everything before the restore is drawn with the origin moved down by H |
| Graphics.BracketedPaintingRestores | stock/src/main/java/ysn/com/stock/view/StockView.java:124-139 | save, translate, painting only, restore: the transform returns to where it was |
| Graphics.LineToOpen | stock/src/main/java/ysn/com/stock/view/StockView.java:148-150 | lineTo on an open last contour extends that contour and leaves the rest of the path |
| Graphics.CloseLast | stock/src/main/java/ysn/com/stock/view/StockView.java:151 | close marks the last contour closed and leaves the rest of the path |
| View.StaleDividerInNextBorder | stock/src/main/java/ysn/com/stock/view/StockView.java:145-206 | with any divider drawn, the next frame's border path starts with the last divider and differs from the intended pass |
| View.FixedMarginDoesNotScale | stock/src/main/java/ysn/com/stock/view/StockView.java:111-120 | with the margin fixed at 1, doubling a 400-wide view moves column 1 from 100.5 to 200.5, not twice its old x |
| View.ResizeScalesColumns | stock/src/main/java/ysn/com/stock/view/StockView.java:170-189 | scaling w and m by k > 0 scales the column space and every column x by k |
| View.ResizeScalesRows | stock/src/main/java/ysn/com/stock/view/StockView.java:196-217 | scaling H and m by k scales the row space and every row y by k; row colours are unchanged |
| View.ResizeScalesBorder | stock/src/main/java/ysn/com/stock/view/StockView.java:145-162 | scaling w, H and m by k scales every border corner by k |

## Left out

- The Android `View` lifecycle is not modelled: the constructors, `init` and the `super.onSizeChanged` call. This is platform plumbing. The constructor models only the field initialisers.
- The internals of the Android `Canvas`, `Path`, `Paint` and `DashPathEffect` are not modelled. They are foreign rendering code. The canvas is a record of draw events plus the save, translate and restore state. A path is its contours. `LineTo` on an empty or just-closed path follows the platform's documented starting point; nothing else of the platform is modelled.
- `getColor` and the colour resources are not modelled. They are resource lookups. The two divider colours are the tokens `Ordinary` and `Axis`. The border paint's colour, stroke width, style and dash effect are left out.
- Text measurement with `getTextBounds` is not modelled. `textRect.height()` is the field `textHeight`, holding whatever was last measured.
- `DecimalFormat` and `NumberUtils` are not part of this model. They only format numbers as text.
- IEEE `float` rounding is not modelled, including the rounding of `0.055f` and `0.8f`. Floats are exact reals. `viewWidth`, `viewHeight` and the text height stay integers.
- `bottomRowCount` and `topTableWidth` are not modelled. They are stored or declared but never read.
- `xYTextPaint` settings other than its text size are not modelled: anti-aliasing, style and alignment. They do not affect geometry.
- Any drawing inside `drawTimeText` and `childDraw` is not modelled. They are empty extension hooks here. A subclass's drawing is not part of this model, and each hook is recorded as one event.
- View.StockView.OnDraw: the restored-transform postcondition is stated only for a canvas whose earlier restores did not underflow. An underflowed canvas has no defined transform in the model.

## Findings

| source | as written | input that shows it | evidently intended | confidence | as-written member | corrected member |
|---|---|---|---|---|---|---|
| stock/src/main/java/ysn/com/stock/view/StockView.java:145-154 | `drawBorders` builds the border on `linePath` without resetting it first. The divider loops reset the path before each divider but not after the last, so the next frame's border path also holds the previous frame's last divider. That divider is then redrawn solid in the border paint. | two consecutive `onDraw` calls with the default four rows: the second border path is row divider 3 followed by the border rectangle | the border path holds only the border rectangle in every frame | medium, not executed | View.StockView.OnDrawAsWritten, View.StockView.DrawBordersAsWritten, View.StaleDividerInNextBorder | View.StockView.OnDraw, View.StockView.DrawBorders |
