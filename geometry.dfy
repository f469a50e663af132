/**
 * The fixed millimetre layout of create_pdf (app.py): the item table's column
 * grid, the cells of one item row, the merged freight cell, the summary widths,
 * the seller and buyer boxes, and the footer and seal positions.
 */
module Geometry {

  /** A cell or box: top-left corner, width and height, in millimetres. */
  datatype Rect = Rect(x: real, y: real, w: real, h: real)

  /** FPDF's default left margin; the content width runs from 10 to 200 on the 210 mm page. */
  const LeftMargin: real := 10.0
  const PageWidth: real := 210.0
  const ContentWidth: real := 190.0

  /** w: the widths of No, Model, Photo, Spec, Qty, Unit Price, Frt(...) and Total. */
  const ColumnWidths: seq<real> := [10.0, 32.0, 28.0, 52.0, 15.0, 17.0, 17.0, 19.0]

  /** rh: the height of every item row. */
  const RowHeight: real := 32.0

  /** The sum of the first k widths of ws. */
  function SumPrefix(ws: seq<real>, k: nat): real
    requires k <= |ws|
  {
    if k == 0 then 0.0 else SumPrefix(ws, k - 1) + ws[k - 1]
  }

  /** The left edge of column k when the columns are laid side by side from the margin. */
  function ColumnX(k: nat): real
    requires k <= |ColumnWidths|
  {
    LeftMargin + SumPrefix(ColumnWidths, k)
  }

  /** The widths fill the content width exactly, and the grid ends at the right margin. */
  lemma ColumnWidthsFillContent()
    ensures SumPrefix(ColumnWidths, 8) == ContentWidth
    ensures ColumnX(8) == PageWidth - LeftMargin
  {
  }

  /** Cells drawn one after another with cell(): each starts where the previous one ends. */
  function AdvanceCells(x: real, y: real, ws: seq<real>, h: real): (cells: seq<Rect>)
    ensures |cells| == |ws|
    decreases ws
  {
    if ws == [] then [] else [Rect(x, y, ws[0], h)] + AdvanceCells(x + ws[0], y, ws[1..], h)
  }

  lemma {:induction false} AdvanceCellsAt(x: real, y: real, ws: seq<real>, h: real, k: nat)
    requires k < |ws|
    ensures AdvanceCells(x, y, ws, h)[k] == Rect(x + SumPrefix(ws, k), y, ws[k], h)
    decreases k
  {
    if k != 0 {
      AdvanceCellsAt(x + ws[0], y, ws[1..], h, k - 1);
      SumPrefixShift(ws, k);
    }
  }

  lemma {:induction false} SumPrefixShift(ws: seq<real>, k: nat)
    requires 0 < k <= |ws|
    ensures SumPrefix(ws, k) == ws[0] + SumPrefix(ws[1..], k - 1)
  {
    if k > 1 {
      SumPrefixShift(ws, k - 1);
      assert ws[1..][k - 2] == ws[k - 1];
    }
  }

  /**
   * The cells of one item row with top cy, as the source draws them: No at the
   * margin, Model, Photo and Spec at the hard-coded x 20, 52 and 80, then Qty at
   * 132 followed by Unit Price, the blank freight cell and Total, each advancing x.
   */
  function RowCells(cy: real): (cells: seq<Rect>)
    ensures |cells| == |ColumnWidths|
  {
    var w := ColumnWidths;
    [Rect(LeftMargin, cy, w[0], RowHeight),
     Rect(20.0, cy, w[1], RowHeight),
     Rect(52.0, cy, w[2], RowHeight),
     Rect(80.0, cy, w[3], RowHeight)]
    + AdvanceCells(132.0, cy, w[4..], RowHeight)
  }

  /** The hard-coded x positions 20, 52, 80 and 132 are the column grid, so every row cell lines up with the head above it. */
  lemma RowOnGrid(cy: real)
    ensures |RowCells(cy)| == |ColumnWidths|
    ensures forall k :: 0 <= k < |ColumnWidths| ==> RowCells(cy)[k] == Rect(ColumnX(k), cy, ColumnWidths[k], RowHeight)
    ensures RowCells(cy)[6].x == 164.0
  {
    var tail := ColumnWidths[4..];
    assert tail == [15.0, 17.0, 17.0, 19.0];
    forall k | 4 <= k < 8
      ensures RowCells(cy)[k] == Rect(ColumnX(k), cy, ColumnWidths[k], RowHeight)
    {
      AdvanceCellsAt(132.0, cy, tail, RowHeight, k - 4);
      assert SumPrefix(tail, 1) == 15.0 && SumPrefix(tail, 2) == 32.0 && SumPrefix(tail, 3) == 49.0;
      assert SumPrefix(ColumnWidths, 4) == 122.0 && SumPrefix(ColumnWidths, 5) == 137.0;
      assert SumPrefix(ColumnWidths, 6) == 154.0 && SumPrefix(ColumnWidths, 7) == 171.0;
    }
  }

  /** The uploaded or automatic photo: 26 mm wide at x 53, 2 mm below the row top. */
  const PhotoX: real := 53.0
  const PhotoWidth: real := 26.0
  const PhotoDrop: real := 2.0

  /** The "No Image" text cell: 26 by 4 at x 53, at rh/2 - 2 below the row top. */
  function PlaceholderCell(cy: real): Rect {
    Rect(PhotoX, cy + RowHeight / 2.0 - 2.0, PhotoWidth, 4.0)
  }

  /** The photo span [53, 79] and the placeholder cell lie strictly inside the Photo cell of their row. */
  lemma PhotoInsideColumn(cy: real)
    ensures var c := RowCells(cy)[2];
      c.x < PhotoX && PhotoX + PhotoWidth < c.x + c.w
      && c.y < cy + PhotoDrop
    ensures var c := RowCells(cy)[2]; var p := PlaceholderCell(cy);
      c.x < p.x && p.x + p.w < c.x + c.w && c.y < p.y && p.y + p.h < c.y + c.h
  {
  }

  /** The top of item row k when the rows start at tableY. */
  function RowTop(tableY: real, k: nat): real {
    tableY + RowHeight * k as real
  }

  /** The merged freight cell drawn after the loop: column 6 from the table top, rh times the number of rows high. */
  function FreightCell(tableY: real, n: nat): Rect {
    Rect(164.0, tableY, ColumnWidths[6], RowHeight * n as real)
  }

  /**
   * The merged cell covers exactly the blank freight cells of all rows: the same
   * column, the top of the first row, the bottom of the last row, and every row's
   * freight cell inside it; the summary starts at its bottom.
   */
  lemma FreightCellSpansRows(tableY: real, n: nat)
    requires n >= 1
    ensures var f := FreightCell(tableY, n);
      f.y == RowTop(tableY, 0)
      && f.y + f.h == RowTop(tableY, n - 1) + RowHeight
      && forall k :: 0 <= k < n ==>
           var c := RowCells(RowTop(tableY, k))[6];
           c.x == f.x && c.w == f.w && f.y <= c.y && c.y + c.h <= f.y + f.h
  {
    forall k | 0 <= k < n
      ensures var c := RowCells(RowTop(tableY, k))[6]; var f := FreightCell(tableY, n);
        c.x == f.x && c.w == f.w && f.y <= c.y && c.y + c.h <= f.y + f.h
    {
      RowOnGrid(RowTop(tableY, k));
    }
  }

  /** w_meta = sum(w[:4]), w_lbl = sum(w[4:7]), w_val = w[7]. */
  function SummaryWidths(): (ws: seq<real>)
    ensures |ws| == 3
  {
    [SumPrefix(ColumnWidths, 4), SumPrefix(ColumnWidths[4..], 3), ColumnWidths[7]]
  }

  /** The three summary cells are 122, 49 and 19 wide, fill the content width, and the value cell sits under the Total column. */
  lemma SummaryAlignsWithTable(y: real)
    ensures SummaryWidths() == [122.0, 49.0, 19.0]
    ensures SumPrefix(SummaryWidths(), 3) == ContentWidth
    ensures var c := AdvanceCells(LeftMargin, y, SummaryWidths(), 7.0);
      |c| == 3 && c[1].x == ColumnX(4) && c[2].x == ColumnX(7) && c[2].w == ColumnWidths[7]
  {
    var tail := ColumnWidths[4..];
    assert tail == [15.0, 17.0, 17.0, 19.0];
    assert SumPrefix(tail, 1) == 15.0 && SumPrefix(tail, 2) == 32.0 && SumPrefix(tail, 3) == 49.0;
    assert SumPrefix(ColumnWidths, 2) == 42.0 && SumPrefix(ColumnWidths, 4) == 122.0;
    assert SumPrefix(ColumnWidths, 6) == 154.0 && SumPrefix(ColumnWidths, 7) == 171.0;
    AdvanceCellsAt(LeftMargin, y, SummaryWidths(), 7.0, 1);
    AdvanceCellsAt(LeftMargin, y, SummaryWidths(), 7.0, 2);
  }

  /** The seller box at the margin (115 wide) and the buyer box at x 125 (75 wide), both redrawn to the taller measured height. */
  function PartyBoxes(startY: real, sellerEndY: real, buyerEndY: real): (boxes: (Rect, Rect)) {
    var maxY := if sellerEndY >= buyerEndY then sellerEndY else buyerEndY;
    (Rect(LeftMargin, startY, 115.0, maxY - startY), Rect(125.0, startY, 75.0, maxY - startY))
  }

  /**
   * The two boxes share their top and their height, which is the larger of the
   * two measured heights; they sit side by side and together span the content width.
   */
  lemma PartyBoxesEqualised(startY: real, sellerEndY: real, buyerEndY: real)
    ensures var (s, b) := PartyBoxes(startY, sellerEndY, buyerEndY);
      s.y == b.y == startY && s.h == b.h
      && s.h >= sellerEndY - startY && s.h >= buyerEndY - startY
      && (s.h == sellerEndY - startY || s.h == buyerEndY - startY)
      && s.x + s.w == b.x && b.x + b.w == LeftMargin + ContentWidth
  {
  }

  /** The footer image: x 0, y 321 - 40, 80 wide. */
  const FooterHeight: real := 40.0
  const FooterY: real := 321.0 - FooterHeight

  /** The footer is placed only if the cursor has not gone past footer_y - 10. */
  predicate FooterFits(currentY: real) {
    currentY < FooterY - 10.0
  }

  /** The footer guard is the bound 271, and the footer's nominal box reaches past the 297 mm A4 page. */
  lemma FooterGuard(currentY: real)
    ensures FooterFits(currentY) <==> currentY < 271.0
    ensures FooterY + FooterHeight > 297.0
  {
  }

  /** seal_y: 17 below the bank box top, but never lower than 200. */
  function SealY(bankY: real): real {
    if bankY + 17.0 > 200.0 then 200.0 else bankY + 17.0
  }

  /** The seal's y is min(bank_y + 17, 200). */
  lemma SealClamped(bankY: real)
    ensures SealY(bankY) <= 200.0 && SealY(bankY) <= bankY + 17.0
    ensures SealY(bankY) == bankY + 17.0 || SealY(bankY) == 200.0
    ensures bankY <= 183.0 <==> SealY(bankY) == bankY + 17.0
  {
  }

  /** The three caption lines under the seal: sig_y = seal_y + 30 + 2, then 4 and 8 further down. */
  function CaptionYs(sealY: real): seq<real> {
    var sigY := sealY + 30.0 + 2.0;
    [sigY, sigY + 4.0, sigY + 8.0]
  }

  /** The captions sit at seal y + 32, + 36 and + 40; their 3 mm lines do not overlap one another. */
  lemma CaptionsBelowSeal(sealY: real)
    ensures CaptionYs(sealY) == [sealY + 32.0, sealY + 36.0, sealY + 40.0]
    ensures forall k :: 0 <= k < 2 ==> CaptionYs(sealY)[k] + 3.0 < CaptionYs(sealY)[k + 1]
  {
  }
}
