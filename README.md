# YH Invoice Generator: a Dafny model of its invoice rules

The YH Invoice Generator is a Streamlit form. It collects a proforma invoice or a
quotation for Wuxi YuHuang Transmission Technology and prints it to a fixed-layout
A4 PDF with FPDF. This project models the deterministic rules of `app.py`, which are
what remains once the widgets, the file system and the PDF library are taken away:

- **Line-item list** (`Items`): the session's `invoice_items` list is a class whose
  `AddItem` and `RemoveItem` methods change it in place. `Valid()` says the list never
  becomes empty. `RemoveItem` follows Python's `list.pop`: a negative index counts from
  the end, and an index out of range raises `IndexError` (the result flag).
- **Asset resolution** (`Assets`): `get_image_path` checks four places in order. The
  file system is modelled as two listings (the working directory and `images/`) plus a
  flag saying whether `images/` exists. `os.path.exists` becomes membership in those
  listings. `GetImagePath` scans with loops and early returns, and is proved equal to
  the value-level `Resolve`. `MODEL_IMAGE_MAP` and `MODEL_NUMBERS` are constants.
- **Photo selection** (`Photo`): each row shows the uploaded image, else the model's
  automatic image, else the "No Image" placeholder. Whether drawing an image succeeds
  (`pdf.image`, or the temporary file for an upload) is a parameter, `drawable`.
- **Invoice arithmetic** (`Totals`): line totals, the subtotal accumulated left to
  right, the grand total with freight, and Python's `int()` (truncation toward zero)
  used for the printed figures.
- **Layout geometry** (`Geometry`, `Render`): the column grid, the hard-coded x
  positions of the row cells, the merged freight cell, the summary widths, the
  seller/buyer box equalisation, the footer guard and the seal clamp. FPDF cursor moves
  are modelled as arithmetic on y. The heights of the two wrapped text blocks are
  inputs.
- **Label and file name** (`Naming`): the document-number label, the `PI`/`QT`
  prefix, and the download name with spaces in the contact replaced by `_`.

`Render.CreatePdf` puts these together in the order `create_pdf` runs. It returns a
`Document` value with three parts:

- **The top block** (`PageTop`): which branding images are shown, the title cell's y,
  the number cell and the dates box, the seller and buyer boxes, the delivery-term
  banner and the table head.
- **The item table**: every row with its cells, photo choice, printed quantity and
  printed line total, plus the merged freight cell.
- **The bottom block** (`PageBottom`): the tops of the summary and terms rows, the bank
  box and its lines, where the cursor ends, whether the footer is placed, and the seal
  with its captions.

The figures it holds are the subtotal and grand total and their `int()` displays. It
does not hold the printed unit price or the freight cell's text: those are Python float
reprs, which are not modelled.

## Model

| member | source | states |
|---|---|---|
| Items.ValidItem | app.py:504-518 | definition: the form's bounds qty >= 1 (`min_value=1`) and price >= 0 (`min_value=0.0`) |
| Items.DefaultItem | app.py:72-80 | the appended row is model YH8-527, qty 4, price 80.0, image type 'auto', no image data, and is a valid row |
| Items.PyIndex | app.py:84 | definition: a negative index to `pop` counts from the end of the list |
| Items.RemoveAt | app.py:84 | popping index i leaves one fewer element, keeps the elements before i, shifts those after i down by one, and removes exactly one occurrence of the popped element |
| Items.AppendThenRemoveLast | app.py:72-84 | popping the row just appended restores the list |
| Items.ItemList.constructor | app.py:59-69 | the session starts with exactly one default row, so the list is valid (not empty) |
| Items.ItemList.AddItem | app.py:72-80 | the new list is the old list followed by one default row; earlier rows are unchanged and validity is kept |
| Items.ItemList.RemoveItem | app.py:82-84 | with one row the list is unchanged; otherwise the row at the Python index is removed and the rest keep their order; an out-of-range index raises IndexError and changes nothing; the list never becomes empty |
| Items.Op | app.py:472-525 | definition: one press of "Add Item" or of a row's "Remove" button |
| Items.EditSession | app.py:472-525 | any sequence of Add and Remove presses, interleaved in any order and starting from the initial session, leaves at least one row, at most one more row than there were Add presses, and only default rows |
| Assets.Exists | app.py:89-99 | definition: `os.path.exists` on a relative path is membership in the working directory, or in an existing images/ folder |
| Assets.Lower | app.py:96 | lowering keeps the length, leaves no capital letter, keeps every other character unchanged, and replaces each capital by its own small letter |
| Assets.LowerIdempotent | app.py:96-101 | lowering twice is lowering once, so a lowered name matches itself ignoring case |
| Assets.Resolve | app.py:86-103 | definition: the four-step lookup of get_image_path |
| Assets.GetImagePath | app.py:86-103 | the loop version with early returns gives exactly the four-step lookup Resolve |
| Assets.LowerChar | app.py:96 | definition: ASCII lowering of one character, as `str.lower` does for A-Z |
| Assets.SameIgnoringCase | app.py:96-101 | definition: the test `file.lower() == image_filename.lower()` |
| Assets.FirstCaseMatch | app.py:95-97 | definition: the `for file in os.listdir(...)` scan that returns the first entry matching ignoring case |
| Assets.FirstCaseMatchIsFirst | app.py:95-102 | a listing scan finds nothing exactly when no entry matches ignoring case; otherwise it returns the earliest matching entry |
| Assets.FirstCaseMatchIsListed | app.py:95-97 | a found entry is in the listing and matches the name ignoring case |
| Assets.ResolveSound | app.py:86-103 | every returned path exists and names the requested file up to case, directly or under images/; it is never shorter than the name |
| Assets.ExactNameFirst | app.py:89-90 | an exact name in the working directory is returned bare, whatever else exists |
| Assets.ImagesExactBeforeCaseMatch | app.py:91-97 | an exact name in images/ is returned as images/name, ahead of any case-insensitive match in the working directory |
| Assets.MissingFolderNotScanned | app.py:98-102 | when images/ does not exist, only the working directory's case-insensitive match can be returned |
| Assets.ResolveNoneIff | app.py:86-103 | for plain names the lookup returns None exactly when no entry of the working directory, and no entry of an existing images/ folder, matches ignoring case |
| Assets.ModelNumbers | app.py:27-33 | definition: the models the form offers |
| Assets.ModelImageMap | app.py:36-54 | definition: the image file of each model |
| Assets.AutoImage | app.py:105-110 | definition: get_image_for_model, a table lookup followed by resolution |
| Assets.CatalogueImages | app.py:27-54 | every model in the image table is offered by the form; "Other" is offered and has no image |
| Assets.CatalogueCovered | app.py:27-54 | every offered model except "Other" has an image file |
| Assets.ImageNamesPlain | app.py:36-54 | every image file name is non-empty and contains no '/' |
| Assets.GetImageForModel | app.py:105-110 | the lookup resolves the model's table file, or returns None for a model not in the table |
| Assets.UnmappedModelHasNoImage | app.py:107-110 | a model outside the table never has an automatic image |
| Assets.AutoImageExists | app.py:105-110 | a found automatic image belongs to a mapped model other than "Other" and is an existing, non-empty path |
| Photo.SelectPhoto | app.py:237-271 | definition: the upload, else the automatic image, else "No Image" |
| Photo.PlacePhoto | app.py:237-271 | the image block's flag logic yields exactly the priority rule SelectPhoto |
| Photo.UploadedIff | app.py:240-250 | the uploaded image is shown exactly when there is image data, the type is 'uploaded' and it can be drawn |
| Photo.AutoIff | app.py:257-265 | the automatic image is shown exactly when the type is 'auto', the model's file resolves and it can be drawn, and the shown path is the resolved one |
| Photo.FailedUploadGivesPlaceholder | app.py:240-271 | with type 'uploaded' and no drawable upload, the placeholder is shown and never the automatic image |
| Photo.UploadBeatsAuto | app.py:240-258 | a drawable upload is chosen over the automatic image whatever the directories contain |
| Photo.UnmappedModelNoAuto | app.py:105-110 | a model missing from the image table shows the upload or the placeholder |
| Photo.UnsetTypeGivesPlaceholder | app.py:258-271 | a row whose image type is None always shows the placeholder |
| Totals.LineTotal | app.py:223 | definition: item_total = qv * pv |
| Totals.Subtotal | app.py:218-224 | definition: the subtotal accumulated left to right from 0 |
| Totals.GrandTotal | app.py:294 | definition: grand_total = subtotal + frt_val |
| Totals.Trunc | app.py:285 | int() truncates toward zero: the floor of a non-negative value, the ceiling (at most 0) of a negative one |
| Totals.LineTotalBounds | app.py:221-223 | a valid row's line total is not negative and at least its unit price |
| Totals.SubtotalNonNegative | app.py:218-224 | the subtotal of valid rows is not negative |
| Totals.SubtotalAppend | app.py:218-224 | the accumulated subtotal of a concatenation is the sum of the parts' subtotals, so it does not depend on how the rows are grouped |
| Totals.AddDefaultItemRaisesSubtotal | app.py:72-80 | adding the default row raises the subtotal by exactly 320 |
| Totals.ShownSubtotalVersusShownLines | app.py:285-301 | the printed int(subtotal) is at least the sum of the printed line totals and exceeds it by at most the number of rows minus one |
| Totals.TruncationAtDisplayOnly | app.py:285-301 | two rows at 1 x 0.5 print a subtotal of 1 while both printed line totals are 0 |
| Totals.DefaultInvoiceTotals | app.py:294 | one default row with freight 140 gives subtotal 320 and grand total 460 |
| Totals.FractionalSubtotalDisplay | app.py:301 | rows 2 x 50.5 and 1 x 99.99 give subtotal 200.99, printed as 200 |
| Geometry.ColumnWidthsFillContent | app.py:206 | the eight widths sum to 190 and the grid ends at x 200, the right margin |
| Geometry.AdvanceCells | app.py:211-212 | cells drawn one after another produce one cell per width |
| Geometry.AdvanceCellsAt | app.py:282-285 | the k-th advancing cell starts at the start x plus the first k widths |
| Geometry.RowCells | app.py:227-285 | each item row has one cell per column |
| Geometry.RowOnGrid | app.py:227-234 | the hard-coded x 20, 52, 80, 132 and the advancing cells after 132 put every row cell on the column grid (10 plus the prefix sums); the freight cell is at 164 |
| Geometry.PlaceholderCell | app.py:268-270 | definition: the "No Image" cell, 26 x 4 at (53, cy + rh/2 - 2) |
| Geometry.PhotoInsideColumn | app.py:249 | the photo span [53, 79] and the "No Image" cell lie inside the row's Photo cell [52, 80] |
| Geometry.RowTop | app.py:220-285 | definition: the row cursor cy, moved down rh = 32 by each pass |
| Geometry.FreightCell | app.py:289-290 | definition: the merged freight cell |
| Geometry.FreightCellSpansRows | app.py:288-293 | the merged freight cell starts at the first row's top, ends at the last row's bottom, and contains every row's blank freight cell in the same column |
| Geometry.SummaryWidths | app.py:296-298 | there are three summary widths |
| Geometry.SummaryAlignsWithTable | app.py:296-312 | the summary widths are 122, 49 and 19, sum to 190, and the label and value cells start under columns 4 and 7 |
| Geometry.PartyBoxes | app.py:195-199 | definition: the two boxes redrawn to the taller block |
| Geometry.PartyBoxesEqualised | app.py:195-199 | both boxes start at the same y and have the same height, the larger measured height; they sit side by side from x 10 to x 200 |
| Geometry.FooterFits | app.py:364 | definition: the footer guard current_y < footer_y - 10 |
| Geometry.FooterGuard | app.py:358-365 | the footer guard holds exactly when the cursor is above 271; the footer's nominal box reaches past the 297 mm page |
| Geometry.SealY | app.py:378-383 | definition: seal_y, clamped |
| Geometry.SealClamped | app.py:378-383 | the seal y is min(bank y + 17, 200), and equals bank y + 17 exactly when bank y is at most 183 |
| Geometry.CaptionYs | app.py:389-397 | definition: the y of the three caption lines |
| Geometry.CaptionsBelowSeal | app.py:389-398 | the caption lines sit at seal y + 32, + 36 and + 40 and do not overlap |
| Naming.DocLabel | app.py:158 | definition: the label in front of the document number |
| Naming.FilePrefix | app.py:624 | definition: the PI or QT prefix of the download name |
| Naming.DownloadName | app.py:625 | definition: the download file name |
| Naming.LabelAndPrefixAgree | app.py:158 | the label is "Invoice Number:" and the prefix "PI" exactly for "PROFORMA INVOICE"; otherwise "Quotation Number:" and "QT" |
| Naming.Underscored | app.py:625 | the replaced contact keeps its length, has '_' wherever a space was, and keeps every other character |
| Naming.UnderscoredHasNoSpace | app.py:625 | the replaced contact has no space, replacing again changes nothing, and it equals the input exactly when the input has no space |
| Naming.DownloadNameParts | app.py:624-625 | the file name is the prefix, '_', the invoice number, '_', the replaced contact and ".pdf", and splits back into those parts |
| Render.RowSpec | app.py:217-285 | definition: row k as the row loop draws it |
| Render.AssetShown | app.py:122-127 | definition: a branding image is shown when its path is truthy, exists and can be drawn |
| Render.AssetShownIff | app.py:122-127 | a branding image is shown exactly when its name resolves and the file can be drawn; the second existence test never fails |
| Render.PlaceAsset | app.py:122-127 | resolving, re-checking and drawing a branding image yields AssetShown |
| Render.DrawHeaderRow | app.py:206-214 | the head loop draws eight cells of height 7 on the column grid |
| Render.StackCells | app.py:306-347 | cells stacked with ln=1 start at the prefix sums of their heights, and the cursor ends at the total |
| Render.BlockHeights | app.py:300-347 | the summary block is 21 high, the terms block 26, and the nine bank lines move the cursor 27 |
| Render.SumPrefixConstant | app.py:306-347 | lines of one height h drawn with ln=1: the k-th starts k x h below the first, proved by induction |
| Render.DrawRows | app.py:217-285 | the row loop draws row k at table top + 32k with its cells, photo choice, quantity and int(line total); the subtotal is the sum of qty x price; the cursor ends 32 x n lower |
| Render.DrawRow | app.py:220-285 | one pass of the row loop: row k at its top with the grid cells, the photo choice, the quantity and int(line total), and its line total qty x price |
| Render.TopLaidOut | app.py:114-214 | definition: the top block's positions as create_pdf computes them |
| Render.LayoutTop | app.py:114-214 | the cursor trace through the branding, title, number row, party boxes, banner and table head yields the layout TopLaidOut: parties at 40 with a logo and 42 without, title 16 above them, number and dates cells 6 above them, both boxes equalised, the banner under the taller block and the head on the grid 7 below it |
| Render.TopBlockAligned | app.py:156-214 | the number and dates cells sit exactly above the seller and buyer boxes, the title ends where the number row starts, the boxes are at least as tall as either block, and the table starts 14 below them |
| Render.BottomLaidOut | app.py:296-400 | definition: the bottom block's positions, footer decision and seal as create_pdf computes them |
| Render.LayoutBottom | app.py:296-400 | the summary rows start every 7 from the summary top, the terms rows at + 21, 29, 35, 41, the bank box (190 x 28) at + 47 with its nine lines every 3, the cursor 27 lower; the footer only when that cursor is above the guard, and the seal (when found) clamped with its three captions |
| Render.BottomBlockStacked | app.py:296-347 | the summary, terms and bank blocks follow one another without gap or overlap, and every bank line lies inside the bank box, which ends 1 below the cursor |
| Render.CreatePdf | app.py:112-402 | the document has the label for its type, the branding decided by asset resolution, the seller/buyer boxes equalised, rows and merged freight cell from the table top, summary at table top + 32n, subtotal and grand total = subtotal + freight with int() displays (total amount line equal to the grand total's), footer only above 271, and the seal clamped with its captions |

## Left out

- The Streamlit user interface (app.py:405-710): widgets, reruns, warnings, the image status sidebar, and the per-rerun rewriting of `image_type` (app.py:494-573). The form's bounds (qty at least 1, price at least 0) are assumed through `Items.ValidItem` where a lemma needs them.
- FPDF itself: fonts, colours, text content and alignment, borders, wrapping, image scaling and the output bytes. The wrapped heights of the seller and buyer blocks are inputs to `Render.CreatePdf`. Whether an image can be drawn is the parameter `drawable`.
- Render.CreatePdf: FPDF's automatic page breaks are not modelled. All positions are on one unbroken page. FPDF breaks the page once a cell would cross y 277 (the 297 mm page less its 20 mm bottom margin). With the usual box heights, from about four or five rows the terms or bank rows cross that line. For such invoices the model's bank top, seal y and footer decision differ from the source's: the source moves those blocks to page 2 and can place the footer there, while the model reports a cursor past 271 and no footer. For longer tables the item rows break too. With a logo and 20 mm party blocks the table starts at 74, and the seventh row (top 266, bottom 298) would cross 277, so FPDF draws it on page 2. The merged freight cell, one cell 32 x n high, breaks as well once its bottom passes 277. From then on `Render.DrawRows` ("row k at table top + 32k"), `Geometry.FreightCellSpansRows` and the summary top of `Render.CreatePdf` also differ from the source.
- The x offset of the company title after a placed logo (`set_xy(45, 8)`): only its effect on y is modelled.
- The real file system: `os.path.exists` and `os.listdir` become the `Dir` listings. Errors raised by those calls, and the outer `try` around the image block (app.py:237, 274), are not modelled. A case-insensitive file system is not modelled either: exact existence means exact membership.
- Assets.Lower: ASCII lowering only. Python's `str.lower` maps all Unicode letters, so names that differ only in non-ASCII case are not matched by the model.
- Temporary files, PIL, base64 and the HTML download link (app.py:244-253, 614-656). They are I/O; a failed upload placement is covered by `drawable`.
- `datetime.now()`, the 30-day validity and `strftime` (app.py:117-118, 163-165). They are calendar library behaviour and are not modelled.
- Python floats: prices, freight and totals are exact reals, and `int()` is exact truncation. Float rounding, and the `f"${pv}"` and `f"${frt_val}"` repr formatting, are not modelled.
- The `.2f` grand total in the preview expander (app.py:665). It is interface text only.
- The truncation of displayed totals, and the footer's y of 321 - 40 (its box extends below the 297 mm A4 page), are modelled as written and not treated as errors. `Totals.ShownSubtotalVersusShownLines` and `Geometry.FooterGuard` state their effect.
