/**
 * create_pdf (app.py) with FPDF replaced by its cursor arithmetic: what is
 * placed where, which images are shown, and which figures are printed.
 * Wrapped text heights are inputs; whether an image can be drawn is the
 * parameter 'drawable'.
 */
module Render {
  import opened Wrappers
  import opened Items
  import opened Assets
  import opened Photo
  import opened Totals
  import opened Geometry
  import opened Naming

  /** The parts of invoice_data that decide the layout and the figures. */
  datatype InvoiceData = InvoiceData(
    docType: string,
    invoiceNo: string,
    items: seq<LineItem>,
    freightCharge: real)

  /** One drawn item row: its number, top, cells, photo and printed quantity and line total. */
  datatype Row = Row(number: nat, top: real, cells: seq<Rect>, photo: PhotoChoice, shownQty: int, shownTotal: int)

  /** The seal image's y and the y of its three caption lines. */
  datatype Seal = Seal(y: real, captionYs: seq<real>)

  /** What the renderer puts on the page: the top block, the item table, the figures and the bottom block. */
  datatype Document = Document(
    title: string,
    numberLabel: string,
    top: PageTop,
    rows: seq<Row>,
    freightCell: Rect,
    summaryTop: real,
    subtotal: real,
    grandTotal: real,
    shownSubtotal: int,
    shownFreight: int,
    shownGrandTotal: int,
    shownTotalAmount: int,
    bottom: PageBottom)

  /** Row k of the table as the loop draws it. */
  function RowSpec(k: nat, item: LineItem, tableTop: real, d: Dir, drawable: ImageSource -> bool): Row {
    var top := RowTop(tableTop, k);
    Row(k + 1, top, RowCells(top), SelectPhoto(item, d, drawable), item.qty, Trunc(LineTotal(item)))
  }

  /** A branding image is shown when its file resolves, exists, and can be drawn. */
  predicate AssetShown(d: Dir, name: string, drawable: ImageSource -> bool) {
    match Resolve(d, name)
    case Some(p) => p != "" && Exists(d, p) && drawable(ImageFile(p))
    case None => false
  }

  /** For the application's asset names the existence re-check never matters: an asset is shown exactly when it resolves and can be drawn. */
  lemma AssetShownIff(d: Dir, name: string, drawable: ImageSource -> bool)
    requires name != ""
    ensures AssetShown(d, name, drawable) <==>
      Resolve(d, name).Some? && drawable(ImageFile(Resolve(d, name).value))
  {
    if Resolve(d, name).Some? {
      ResolveSound(d, name);
    }
  }

  /** The 'if path and os.path.exists(path)' test before a branding image, then the drawing attempt. */
  method PlaceAsset(d: Dir, name: string, drawable: ImageSource -> bool) returns (shown: bool)
    ensures shown == AssetShown(d, name, drawable)
  {
    var path := GetImagePath(d, name);
    shown := false;
    if path.Some? && path.value != "" && Exists(d, path.value) {
      shown := drawable(ImageFile(path.value));
    }
  }

  /** The table head: eight cells of height 7 drawn in a loop, each starting where the previous one ends. */
  method DrawHeaderRow(y: real) returns (cells: seq<Rect>)
    ensures |cells| == |ColumnWidths|
    ensures forall k :: 0 <= k < |ColumnWidths| ==> cells[k] == Rect(ColumnX(k), y, ColumnWidths[k], 7.0)
  {
    var x := LeftMargin;
    cells := [];
    var i := 0;
    while i < |ColumnWidths|
      invariant 0 <= i <= |ColumnWidths|
      invariant |cells| == i
      invariant x == ColumnX(i)
      invariant forall k :: 0 <= k < i ==> cells[k] == Rect(ColumnX(k), y, ColumnWidths[k], 7.0)
    {
      cells := cells + [Rect(x, y, ColumnWidths[i], 7.0)];
      x := x + ColumnWidths[i];
      i := i + 1;
    }
  }

  /** Full-width cells drawn with ln=1, one under the other: the cursor ends the sum of their heights lower. */
  method StackCells(y: real, heights: seq<real>) returns (tops: seq<real>, end: real)
    ensures |tops| == |heights|
    ensures forall k :: 0 <= k < |heights| ==> tops[k] == y + SumPrefix(heights, k)
    ensures end == y + SumPrefix(heights, |heights|)
  {
    end := y;
    tops := [];
    var i := 0;
    while i < |heights|
      invariant 0 <= i <= |heights|
      invariant |tops| == i
      invariant end == y + SumPrefix(heights, i)
      invariant forall k :: 0 <= k < i ==> tops[k] == y + SumPrefix(heights, k)
    {
      tops := tops + [end];
      end := end + heights[i];
      i := i + 1;
    }
  }

  /** One pass of the row loop: the row's cells at cy, its photo, its quantity and its printed line total. */
  method DrawRow(k: nat, item: LineItem, tableTop: real, cy: real, d: Dir, drawable: ImageSource -> bool)
    returns (row: Row, itemTotal: real)
    requires cy == RowTop(tableTop, k)
    ensures row == RowSpec(k, item, tableTop, d, drawable)
    ensures itemTotal == LineTotal(item)
  {
    itemTotal := item.qty as real * item.price;
    var photo := PlacePhoto(item, d, drawable);
    row := Row(k + 1, cy, RowCells(cy), photo, item.qty, Trunc(itemTotal));
  }

  /** The row loop: every row is drawn 32 mm below the previous one, and the subtotal accumulates qty * price. */
  method DrawRows(items: seq<LineItem>, tableTop: real, d: Dir, drawable: ImageSource -> bool)
    returns (rows: seq<Row>, subtotal: real, endY: real)
    ensures |rows| == |items|
    ensures forall k :: 0 <= k < |items| ==> rows[k] == RowSpec(k, items[k], tableTop, d, drawable)
    ensures subtotal == Subtotal(items)
    ensures endY == RowTop(tableTop, |items|)
  {
    rows := [];
    subtotal := 0.0;
    var cy := tableTop;
    var i := 0;
    while i < |items|
      invariant 0 <= i <= |items|
      invariant |rows| == i
      invariant forall k :: 0 <= k < i ==> rows[k] == RowSpec(k, items[k], tableTop, d, drawable)
      invariant subtotal == Subtotal(items[..i])
      invariant cy == RowTop(tableTop, i)
    {
      var row, itemTotal := DrawRow(i, items[i], tableTop, cy, d, drawable);
      assert items[..i + 1][..i] == items[..i];
      subtotal := subtotal + itemTotal;
      rows := rows + [row];
      cy := cy + RowHeight;
      i := i + 1;
    }
    assert items[..i] == items;
    endY := cy;
  }

  /** The heights of the three summary rows, the four terms rows, and the nine bank-detail lines. */
  const SummaryHeights: seq<real> := [7.0, 7.0, 7.0]
  const TermsHeights: seq<real> := [8.0, 6.0, 6.0, 6.0]
  const BankLineHeights: seq<real> := [3.0, 3.0, 3.0, 3.0, 3.0, 3.0, 3.0, 3.0, 3.0]

  /** The summary block is 21 mm high, the terms block 26 mm, and the nine bank lines move the cursor 27 mm. */
  lemma BlockHeights()
    ensures SumPrefix(SummaryHeights, |SummaryHeights|) == 21.0
    ensures SumPrefix(TermsHeights, |TermsHeights|) == 26.0
    ensures SumPrefix(BankLineHeights, |BankLineHeights|) == 27.0
  {
    assert SumPrefix(TermsHeights, 2) == 14.0;
    assert SumPrefix(BankLineHeights, 2) == 6.0;
    assert SumPrefix(BankLineHeights, 4) == 12.0;
    assert SumPrefix(BankLineHeights, 6) == 18.0;
    assert SumPrefix(BankLineHeights, 8) == 24.0;
  }

  /** Full-width lines of one height h: the k-th one starts k * h below the first. */
  lemma {:induction false} SumPrefixConstant(ws: seq<real>, h: real, k: nat)
    requires k <= |ws|
    requires forall i :: 0 <= i < |ws| ==> ws[i] == h
    ensures SumPrefix(ws, k) == h * k as real
  {
    if k > 0 {
      SumPrefixConstant(ws, h, k - 1);
    }
  }

  /**
   * The top of the page: the branding images, the title cell, the number and dates
   * row, the seller and buyer boxes, the delivery-term banner and the table head.
   */
  datatype PageTop = PageTop(
    headerShown: bool, logoShown: bool, titleTop: real, numberCell: Rect, datesCell: Rect,
    partyTop: real, sellerBox: Rect, buyerBox: Rect, deliveryBanner: Rect,
    headerRow: seq<Rect>, tableTop: real)

  /**
   * The bottom of the page: the tops of the three summary rows and the four terms
   * rows, the bank box and its nine lines, where the cursor ends, the footer and the seal.
   */
  datatype PageBottom = PageBottom(
    summaryTops: seq<real>, termsTops: seq<real>, bankTop: real, bankBox: Rect,
    bankLineTops: seq<real>, cursorAfterBank: real, footerShown: bool, seal: Option<Seal>)

  /**
   * The top block as create_pdf lays it out. sellerHeight and buyerHeight are how
   * far the two multi_cell blocks move the cursor down.
   */
  ghost predicate TopLaidOut(top: PageTop, d: Dir, drawable: ImageSource -> bool, sellerHeight: real, buyerHeight: real) {
    && top.headerShown == AssetShown(d, "Header.png", drawable)
    && top.logoShown == AssetShown(d, "company_logo.png", drawable)
    && top.partyTop == (if top.logoShown then 40.0 else 42.0)
    && top.titleTop == top.partyTop - 16.0
    && top.numberCell == Rect(LeftMargin, top.partyTop - 6.0, 115.0, 6.0)
    && top.datesCell == Rect(125.0, top.partyTop - 6.0, 75.0, 6.0)
    && (top.sellerBox, top.buyerBox) == PartyBoxes(top.partyTop, top.partyTop + sellerHeight, top.partyTop + buyerHeight)
    && top.deliveryBanner == Rect(LeftMargin, top.sellerBox.y + top.sellerBox.h, ContentWidth, 7.0)
    && top.tableTop == top.deliveryBanner.y + 14.0
    && |top.headerRow| == |ColumnWidths|
    && forall k :: 0 <= k < |ColumnWidths| ==>
         top.headerRow[k] == Rect(ColumnX(k), top.tableTop - 7.0, ColumnWidths[k], 7.0)
  }

  /**
   * The number row sits directly on the party boxes, its two cells exactly above
   * the seller and the buyer box, and the table starts 14 below the taller block.
   */
  lemma TopBlockAligned(top: PageTop, d: Dir, drawable: ImageSource -> bool, sellerHeight: real, buyerHeight: real)
    requires TopLaidOut(top, d, drawable, sellerHeight, buyerHeight)
    ensures top.numberCell.x == top.sellerBox.x && top.numberCell.w == top.sellerBox.w
    ensures top.datesCell.x == top.buyerBox.x && top.datesCell.w == top.buyerBox.w
    ensures top.numberCell.y + top.numberCell.h == top.sellerBox.y == top.buyerBox.y
    ensures top.titleTop + 10.0 == top.numberCell.y
    ensures top.tableTop == top.partyTop + top.sellerBox.h + 14.0
    ensures top.sellerBox.h >= sellerHeight && top.sellerBox.h >= buyerHeight
  {
    PartyBoxesEqualised(top.partyTop, top.partyTop + sellerHeight, top.partyTop + buyerHeight);
  }

  /** Everything above the item rows. */
  method LayoutTop(d: Dir, drawable: ImageSource -> bool, sellerHeight: real, buyerHeight: real)
    returns (top: PageTop)
    ensures TopLaidOut(top, d, drawable, sellerHeight, buyerHeight)
  {
    // branding images: the logo moves the cursor to y 8, otherwise set_y(10)
    var headerShown := PlaceAsset(d, "Header.png", drawable);
    var logoShown := PlaceAsset(d, "company_logo.png", drawable);
    var y: real := if logoShown then 8.0 else 10.0;

    // company name (8), address (4), ln(4), then the title (10)
    y := y + 8.0 + 4.0 + 4.0;
    var titleTop := y;
    y := y + 10.0;

    // number cell and dates box (6)
    var numberCell := Rect(LeftMargin, y, 115.0, 6.0);
    var datesCell := Rect(125.0, y, 75.0, 6.0);
    y := y + 6.0;

    // seller and buyer blocks, then both borders redrawn to the taller one
    var startY := y;
    var boxes := PartyBoxes(startY, startY + sellerHeight, startY + buyerHeight);
    var maxY := startY + boxes.0.h;

    // delivery term banner (7), table head (7)
    var deliveryBanner := Rect(LeftMargin, maxY, ContentWidth, 7.0);
    y := maxY + 7.0;
    var headerRow := DrawHeaderRow(y);
    top := PageTop(headerShown, logoShown, titleTop, numberCell, datesCell,
      startY, boxes.0, boxes.1, deliveryBanner, headerRow, y + 7.0);
  }

  /** The bottom block as create_pdf lays it out below a summary that starts at summaryTop. */
  ghost predicate BottomLaidOut(bottom: PageBottom, summaryTop: real, d: Dir, drawable: ImageSource -> bool) {
    && |bottom.summaryTops| == 3
    && (forall k :: 0 <= k < 3 ==> bottom.summaryTops[k] == summaryTop + 7.0 * k as real)
    && bottom.termsTops == [summaryTop + 21.0, summaryTop + 29.0, summaryTop + 35.0, summaryTop + 41.0]
    && bottom.bankTop == summaryTop + 47.0
    && bottom.bankBox == Rect(LeftMargin, bottom.bankTop, ContentWidth, 28.0)
    && |bottom.bankLineTops| == 9
    && (forall k :: 0 <= k < 9 ==> bottom.bankLineTops[k] == bottom.bankTop + 3.0 * k as real)
    && bottom.cursorAfterBank == bottom.bankTop + 27.0
    && (bottom.footerShown <==> AssetShown(d, "Footer.png", drawable) && FooterFits(bottom.cursorAfterBank))
    && (bottom.seal.Some? <==> AssetShown(d, "company_seal.png", drawable))
    && (bottom.seal.Some? ==> bottom.seal.value == Seal(SealY(bottom.bankTop), CaptionYs(SealY(bottom.bankTop))))
  }

  /**
   * The summary, terms and bank blocks follow one another without gap or overlap,
   * and the nine bank lines lie inside the 28 mm bank box, which ends 1 mm below
   * the cursor they leave.
   */
  lemma BottomBlockStacked(bottom: PageBottom, summaryTop: real, d: Dir, drawable: ImageSource -> bool)
    requires BottomLaidOut(bottom, summaryTop, d, drawable)
    ensures bottom.summaryTops[2] + 7.0 == bottom.termsTops[0]
    ensures bottom.termsTops[3] + 6.0 == bottom.bankTop == bottom.bankBox.y
    ensures forall k :: 0 <= k < 9 ==>
      bottom.bankBox.y <= bottom.bankLineTops[k] && bottom.bankLineTops[k] + 3.0 <= bottom.bankBox.y + bottom.bankBox.h
    ensures bottom.bankBox.y + bottom.bankBox.h == bottom.cursorAfterBank + 1.0
  {
  }

  /** Everything below the item table: the summary rows, the terms, the bank box and its lines, the footer and the seal. */
  method LayoutBottom(summaryTop: real, d: Dir, drawable: ImageSource -> bool) returns (bottom: PageBottom)
    ensures BottomLaidOut(bottom, summaryTop, d, drawable)
  {
    var summaryTops, afterSummary := StackCells(summaryTop, SummaryHeights);
    var termsTops, bankTop := StackCells(afterSummary, TermsHeights);
    // the bank box is drawn with ln=1, then the cursor is put back to its top
    var bankBox := Rect(LeftMargin, bankTop, ContentWidth, 28.0);
    var lineTops, cursorAfterBank := StackCells(bankTop, BankLineHeights);
    BlockHeights();
    forall k | 0 <= k < 3 ensures summaryTops[k] == summaryTop + 7.0 * k as real {
      SumPrefixConstant(SummaryHeights, 7.0, k);
    }
    forall k | 0 <= k < 9 ensures lineTops[k] == bankTop + 3.0 * k as real {
      SumPrefixConstant(BankLineHeights, 3.0, k);
    }
    assert SumPrefix(TermsHeights, 1) == 8.0 && SumPrefix(TermsHeights, 3) == 20.0;

    // footer: only if the cursor is above footer_y - 10
    var footerFound := PlaceAsset(d, "Footer.png", drawable);
    var footerShown := footerFound && FooterFits(cursorAfterBank);

    // seal and its captions
    var sealFound := PlaceAsset(d, "company_seal.png", drawable);
    var seal: Option<Seal> := None;
    if sealFound {
      var sealY := SealY(bankTop);
      seal := Some(Seal(sealY, CaptionYs(sealY)));
    }
    bottom := PageBottom(summaryTops, termsTops, bankTop, bankBox, lineTops, cursorAfterBank, footerShown, seal);
  }

  /**
   * create_pdf. sellerHeight and buyerHeight are how far the two multi_cell
   * blocks move the cursor down. FPDF's automatic page breaks are not modelled:
   * every position is on one unbroken page.
   */
  method CreatePdf(data: InvoiceData, d: Dir, drawable: ImageSource -> bool, sellerHeight: real, buyerHeight: real)
    returns (doc: Document)
    ensures doc.title == data.docType && doc.numberLabel == DocLabel(data.docType)
    ensures TopLaidOut(doc.top, d, drawable, sellerHeight, buyerHeight)
    ensures |doc.rows| == |data.items|
    ensures forall k :: 0 <= k < |data.items| ==> doc.rows[k] == RowSpec(k, data.items[k], doc.top.tableTop, d, drawable)
    ensures doc.freightCell == FreightCell(doc.top.tableTop, |data.items|)
    ensures doc.summaryTop == doc.freightCell.y + doc.freightCell.h == RowTop(doc.top.tableTop, |data.items|)
    ensures doc.subtotal == Subtotal(data.items)
    ensures doc.grandTotal == GrandTotal(data.items, data.freightCharge)
    ensures doc.shownSubtotal == Trunc(doc.subtotal) && doc.shownFreight == Trunc(data.freightCharge)
    ensures doc.shownGrandTotal == doc.shownTotalAmount == Trunc(doc.grandTotal)
    ensures BottomLaidOut(doc.bottom, doc.summaryTop, d, drawable)
  {
    var top := LayoutTop(d, drawable, sellerHeight, buyerHeight);
    var numberLabel := DocLabel(data.docType);

    var rows, subtotal, endY := DrawRows(data.items, top.tableTop, d, drawable);
    var freightCell := FreightCell(top.tableTop, |data.items|);
    var summaryTop := top.tableTop + RowHeight * |data.items| as real;
    var grandTotal := subtotal + data.freightCharge;

    var bottom := LayoutBottom(summaryTop, d, drawable);

    doc := Document(data.docType, numberLabel, top, rows, freightCell,
      summaryTop, subtotal, grandTotal,
      Trunc(subtotal), Trunc(data.freightCharge), Trunc(grandTotal), Trunc(grandTotal),
      bottom);
  }
}
