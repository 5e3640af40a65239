/** The "EST" worksheet the handlers write with pandas and xlsxwriter,
    reduced to what lands where: the text and format of each cell, the row
    heights, the merged ranges and the inserted image. Fonts, colours,
    borders and column widths are folded into the four formats below. */
module Sheet {
  import opened Wrappers
  import opened Bom
  import opened CostTable

  /** `PandasHeader` and `NoFormat` are what `df.to_excel` gives the header
      and the body cells; `Wrap` and `Yellow` are the handlers' own formats. */
  datatype Style = PandasHeader | NoFormat | Wrap | Yellow

  datatype Cell = Cell(text: string, style: Style)

  /** A merged range on one row, from `firstCol` to `lastCol` inclusive. */
  datatype Merge = Merge(row: nat, firstCol: nat, lastCol: nat)

  datatype Image = Image(row: nat, col: nat, path: string)

  /** What a worksheet holds once written; the workbook bytes encode this. */
  datatype SheetData = SheetData(cells: map<(nat, nat), Cell>, heights: map<nat, nat>,
                                 merges: seq<Merge>, images: seq<Image>)

  const TotalLabel: string := "Total"
  const CalculatorLabel: string := "Calculator"
  const HeaderHeight: nat := 20
  const DataHeight: nat := 70
  const TrailerHeight: nat := 20

  /** The cell at `(r, c)` of a cell table, if one was written there. */
  function CellAt(cells: map<(nat, nat), Cell>, r: nat, c: nat): Option<Cell> {
    if (r, c) in cells then Some(cells[(r, c)]) else None
  }

  function HeightAt(heights: map<nat, nat>, r: nat): Option<nat> {
    if r in heights then Some(heights[r]) else None
  }

  // ---------------------------------------------------------------------
  // The sheets the handlers produce, cell by cell

  /** What `df.to_excel(writer, sheet_name='EST', index=False)` writes: the
      column names in row 0 and frame row `i` in sheet row `i + 1`. */
  function FrameCell(rows: seq<Row>, r: nat, c: nat): Option<Cell> {
    if r > |rows| || c >= 5 then None
    else if r == 0 then Some(Cell(ColumnNames[c], PandasHeader))
    else Some(Cell(Field(rows[r - 1], c), NoFormat))
  }

  /** The EST sheet of main.py for a frame of `n` data rows followed by the
      Total and Calculator rows: the header rewritten in yellow, the data
      rows in the wrap format, the trailer labels merged over columns 0 and
      1 in yellow and the totals (and the blank merged cell of the
      Calculator row) in the wrap format. Column 4 of the trailer rows stays
      as the frame wrote it. */
  function EstCell(rows: seq<Row>, totalMonthly: string, totalYearly: string, r: nat, c: nat): Option<Cell>
    requires |rows| >= 2
  {
    var n := |rows| - 2;
    if r > n + 2 || c >= 5 then None
    else if r == 0 then Some(Cell(ColumnNames[c], Yellow))
    else if r <= n then Some(Cell(Field(rows[r - 1], c), Wrap))
    else if c == 4 then FrameCell(rows, r, c)
    else if r == n + 1 then
      Some([Cell(TotalLabel, Yellow), Cell("", Yellow), Cell(totalMonthly, Wrap), Cell(totalYearly, Wrap)][c])
    else
      Some([Cell(CalculatorLabel, Yellow), Cell("", Yellow), Cell("", Wrap), Cell("", Wrap)][c])
  }

  /** Row heights of main.py: 20 for the header and the trailers, 70 for the data. */
  function EstHeight(n: nat, r: nat): Option<nat> {
    if r > n + 2 then None
    else if r == 0 || r > n then Some(HeaderHeight)
    else Some(DataHeight)
  }

  function EstMerges(n: nat): seq<Merge> {
    [Merge(n + 1, 0, 1), Merge(n + 2, 0, 1), Merge(n + 2, 2, 3)]
  }

  /** A Werkzeug `FileStorage` is true exactly when it has a file name. */
  predicate HasImage(image: Option<string>) {
    image.Some? && image.value != ""
  }

  function EstImages(n: nat, image: Option<string>): seq<Image> {
    if HasImage(image) then [Image(n + 4, 0, image.value)] else []
  }

  /** The EST sheet of generateExelFromJsonBom.py: the frame with its header in yellow. */
  function BomCell(rows: seq<Row>, r: nat, c: nat): Option<Cell> {
    if r == 0 && c < 5 then Some(Cell(ColumnNames[c], Yellow)) else FrameCell(rows, r, c)
  }

  /** main.py's layout in the system's terms, for a frame built from the
      services `ss` (as LenientTable and StrictTable build it): N services
      give N + 3 sheet rows of five columns, the yellow header at row 0, the
      row of service `i` at row `i + 1`, the Total row at N + 1 labelled in
      yellow and showing the totals, and the blank Calculator row at N + 2. */
  lemma EstLayout(ss: seq<Service>, rows: seq<Row>, tm: string, ty: string, r: nat, c: nat)
    requires |rows| == |ss| + 2
    requires forall i | 0 <= i < |ss| :: rows[i] == LenientRow(ss[i])
    requires rows[|ss|] == TotalRow(tm, ty) && rows[|ss| + 1] == CalculatorRow
    ensures var n, cell := |ss|, EstCell(rows, tm, ty, r, c);
            && (cell.Some? <==> r < n + 3 && c < 5)
            && (r == 0 && c < 5 ==> cell == Some(Cell(ColumnNames[c], Yellow)))
            && (1 <= r <= n && c < 5 ==> cell == Some(Cell(Field(LenientRow(ss[r - 1]), c), Wrap)))
            && (r == n + 1 && c == 0 ==> cell == Some(Cell(TotalLabel, Yellow)))
            && (r == n + 1 && c == 2 ==> cell == Some(Cell(tm, Wrap)))
            && (r == n + 1 && c == 3 ==> cell == Some(Cell(ty, Wrap)))
            && (r == n + 2 && c == 0 ==> cell == Some(Cell(CalculatorLabel, Yellow)))
            && (r == n + 2 && 0 < c < 5 ==> cell.value.text == "")
  {
    if 1 <= r <= |ss| && c < 5 {
      assert rows[r - 1] == LenientRow(ss[r - 1]);
    }
  }

  /** The layout of the sheet generateExelFromJsonBom.py writes, for a
      frame built from the services `ss`: N services give N + 3 rows of
      five columns, the yellow header, one unformatted row per service, the
      totals row (without a label) and a blank row. */
  lemma BomLayout(ss: seq<Service>, rows: seq<Row>, tm: string, ty: string, r: nat, c: nat)
    requires |rows| == |ss| + 2
    requires forall i | 0 <= i < |ss| :: rows[i] == LenientRow(ss[i])
    requires rows[|ss|] == TotalRow(tm, ty) && rows[|ss| + 1] == CalculatorRow
    ensures var n, cell := |ss|, BomCell(rows, r, c);
            && (cell.Some? <==> r < n + 3 && c < 5)
            && (r == 0 && c < 5 ==> cell == Some(Cell(ColumnNames[c], Yellow)))
            && (1 <= r <= n && c < 5 ==> cell == Some(Cell(Field(LenientRow(ss[r - 1]), c), NoFormat)))
            && (r == n + 1 && c == 2 ==> cell == Some(Cell(tm, NoFormat)))
            && (r == n + 1 && c == 3 ==> cell == Some(Cell(ty, NoFormat)))
            && (r == n + 1 && c < 5 && c != 2 && c != 3 ==> cell == Some(Cell("", NoFormat)))
            && (r == n + 2 && c < 5 ==> cell == Some(Cell("", NoFormat)))
  {
    if 1 <= r <= |ss| && c < 5 {
      assert rows[r - 1] == LenientRow(ss[r - 1]);
    }
  }

  // ---------------------------------------------------------------------
  // The worksheet object

  /** An xlsxwriter worksheet: each call changes it in place. */
  class Worksheet {
    var cells: map<(nat, nat), Cell>
    var heights: map<nat, nat>
    var merges: seq<Merge>
    var images: seq<Image>

    function Snapshot(): SheetData
      reads this
    {
      SheetData(cells, heights, merges, images)
    }

    /** The sheet `df.to_excel` creates. */
    constructor FromFrame(rows: seq<Row>)
      ensures forall r: nat, c: nat :: CellAt(cells, r, c) == FrameCell(rows, r, c)
      ensures heights == map[] && merges == [] && images == []
    {
      cells := map p | p in FrameKeys(|rows| + 1) :: FrameCell(rows, p.0, p.1).value;
      heights := map[];
      merges := [];
      images := [];
      new;
      forall r: nat, c: nat
        ensures CellAt(cells, r, c) == FrameCell(rows, r, c)
      {
        FrameKeysMember(|rows| + 1, r, c);
      }
    }

    /** `worksheet.write(row, col, text, style)`. */
    method Write(row: nat, col: nat, text: string, style: Style)
      modifies this
      ensures cells == old(cells)[(row, col) := Cell(text, style)]
      ensures forall r: nat, c: nat :: CellAt(cells, r, c) ==
                if r == row && c == col then Some(Cell(text, style)) else CellAt(old(cells), r, c)
      ensures heights == old(heights) && merges == old(merges) && images == old(images)
    {
      cells := cells[(row, col) := Cell(text, style)];
    }

    /** `worksheet.set_row(row, height)`. */
    method SetRow(row: nat, height: nat)
      modifies this
      ensures heights == old(heights)[row := height]
      ensures forall r: nat :: HeightAt(heights, r) == if r == row then Some(height) else HeightAt(old(heights), r)
      ensures cells == old(cells) && merges == old(merges) && images == old(images)
    {
      heights := heights[row := height];
    }

    /** `worksheet.merge_range(row, firstCol, row, lastCol, text, style)`:
        the text goes to the first cell and the others of the range are
        written blank in the same format. xlsxwriter refuses a single cell. */
    method MergeRange(row: nat, firstCol: nat, lastCol: nat, text: string, style: Style)
      requires firstCol < lastCol
      modifies this
      ensures forall r: nat, c: nat :: CellAt(cells, r, c) ==
                if r == row && firstCol <= c <= lastCol then Some(Cell(if c == firstCol then text else "", style))
                else CellAt(old(cells), r, c)
      ensures merges == old(merges) + [Merge(row, firstCol, lastCol)]
      ensures heights == old(heights) && images == old(images)
    {
      merges := merges + [Merge(row, firstCol, lastCol)];
      Write(row, firstCol, text, style);
      var col := firstCol + 1;
      while col <= lastCol
        invariant firstCol < col <= lastCol + 1
        invariant forall r: nat, c: nat :: CellAt(cells, r, c) ==
                    if r == row && firstCol <= c < col then Some(Cell(if c == firstCol then text else "", style))
                    else CellAt(old(cells), r, c)
        invariant merges == old(merges) + [Merge(row, firstCol, lastCol)]
        invariant heights == old(heights) && images == old(images)
      {
        Write(row, col, "", style);
        col := col + 1;
      }
    }

    /** `worksheet.insert_image(row, col, path)`. */
    method InsertImage(row: nat, col: nat, path: string)
      modifies this
      ensures images == old(images) + [Image(row, col, path)]
      ensures cells == old(cells) && heights == old(heights) && merges == old(merges)
    {
      images := images + [Image(row, col, path)];
    }
  }

  /** The positions the frame covers: `rows` rows of five columns. */
  function FrameKeys(rows: nat): set<(nat, nat)> {
    set r: nat, c: nat | r < rows && c < 5 :: (r, c)
  }

  lemma FrameKeysMember(rows: nat, r: nat, c: nat)
    ensures (r, c) in FrameKeys(rows) <==> r < rows && c < 5
  {
    if (r, c) in FrameKeys(rows) {
      var r', c' :| r' < rows && c' < 5 && (r', c') == (r, c);
    }
  }

  // ---------------------------------------------------------------------
  // The writing loops

  /** `for col_num, value in enumerate(df.columns.values): worksheet.write(0, col_num, value, yellow_format)`. */
  method WriteHeader(ws: Worksheet)
    modifies ws
    ensures forall r: nat, c: nat :: CellAt(ws.cells, r, c) ==
              if r == 0 && c < 5 then Some(Cell(ColumnNames[c], Yellow)) else CellAt(old(ws.cells), r, c)
    ensures ws.heights == old(ws.heights) && ws.merges == old(ws.merges) && ws.images == old(ws.images)
  {
    var col := 0;
    while col < 5
      invariant col <= 5
      invariant forall r: nat, c: nat :: CellAt(ws.cells, r, c) ==
                  if r == 0 && c < col then Some(Cell(ColumnNames[c], Yellow)) else CellAt(old(ws.cells), r, c)
      invariant ws.heights == old(ws.heights) && ws.merges == old(ws.merges) && ws.images == old(ws.images)
    {
      ws.Write(0, col, ColumnNames[col], Yellow);
      col := col + 1;
    }
  }

  /** The nested loops of main.py that rewrite data row `i` of the frame at
      sheet row `i + 1` in the wrap format. */
  method WriteDataRows(ws: Worksheet, rows: seq<Row>)
    modifies ws
    ensures forall r: nat, c: nat :: CellAt(ws.cells, r, c) ==
              if 1 <= r <= |rows| && c < 5 then Some(Cell(Field(rows[r - 1], c), Wrap)) else CellAt(old(ws.cells), r, c)
    ensures ws.heights == old(ws.heights) && ws.merges == old(ws.merges) && ws.images == old(ws.images)
  {
    var row := 0;
    while row < |rows|
      invariant row <= |rows|
      invariant forall r: nat, c: nat :: CellAt(ws.cells, r, c) ==
                  if 1 <= r <= row && c < 5 then Some(Cell(Field(rows[r - 1], c), Wrap)) else CellAt(old(ws.cells), r, c)
      invariant ws.heights == old(ws.heights) && ws.merges == old(ws.merges) && ws.images == old(ws.images)
    {
      var col := 0;
      while col < 5
        invariant col <= 5
        invariant forall r: nat, c: nat :: CellAt(ws.cells, r, c) ==
                    if (1 <= r <= row && c < 5) || (r == row + 1 && c < col) then Some(Cell(Field(rows[r - 1], c), Wrap))
                    else CellAt(old(ws.cells), r, c)
        invariant ws.heights == old(ws.heights) && ws.merges == old(ws.merges) && ws.images == old(ws.images)
      {
        ws.Write(row + 1, col, Field(rows[row], col), Wrap);
        col := col + 1;
      }
      row := row + 1;
    }
  }

  /** `set_row(0, 20)`, then 70 for each data row, then 20 for the trailers. */
  method SetHeights(ws: Worksheet, n: nat)
    requires ws.heights == map[]
    modifies ws
    ensures forall r: nat :: HeightAt(ws.heights, r) == EstHeight(n, r)
    ensures ws.cells == old(ws.cells) && ws.merges == old(ws.merges) && ws.images == old(ws.images)
  {
    ws.SetRow(0, HeaderHeight);
    var row := 1;
    while row < n + 1
      invariant 1 <= row <= n + 1
      invariant forall r: nat :: HeightAt(ws.heights, r) == if r < row then EstHeight(n, r) else None
      invariant ws.cells == old(ws.cells) && ws.merges == old(ws.merges) && ws.images == old(ws.images)
    {
      ws.SetRow(row, DataHeight);
      row := row + 1;
    }
    ws.SetRow(n + 1, TrailerHeight);
    ws.SetRow(n + 2, TrailerHeight);
  }

  /** The merges and writes of the Total and Calculator rows. */
  method WriteTrailers(ws: Worksheet, n: nat, totalMonthly: string, totalYearly: string)
    modifies ws
    ensures forall r: nat, c: nat :: CellAt(ws.cells, r, c) ==
              if r == n + 1 && c < 4 then
                Some([Cell(TotalLabel, Yellow), Cell("", Yellow), Cell(totalMonthly, Wrap), Cell(totalYearly, Wrap)][c])
              else if r == n + 2 && c < 4 then
                Some([Cell(CalculatorLabel, Yellow), Cell("", Yellow), Cell("", Wrap), Cell("", Wrap)][c])
              else CellAt(old(ws.cells), r, c)
    ensures ws.merges == old(ws.merges) + EstMerges(n)
    ensures ws.heights == old(ws.heights) && ws.images == old(ws.images)
  {
    ws.MergeRange(n + 1, 0, 1, TotalLabel, Yellow);
    ws.Write(n + 1, 2, totalMonthly, Wrap);
    ws.Write(n + 1, 3, totalYearly, Wrap);
    ws.MergeRange(n + 2, 0, 1, CalculatorLabel, Yellow);
    ws.MergeRange(n + 2, 2, 3, "", Wrap);
  }

  /** main.py:99-133: the EST sheet written over the frame `rows` (the data
      rows followed by the Total and Calculator rows). */
  method RenderEst(ws: Worksheet, rows: seq<Row>, totalMonthly: string, totalYearly: string, image: Option<string>)
    requires |rows| >= 2
    requires forall r: nat, c: nat :: CellAt(ws.cells, r, c) == FrameCell(rows, r, c)
    requires ws.heights == map[] && ws.merges == [] && ws.images == []
    modifies ws
    ensures forall r: nat, c: nat :: CellAt(ws.cells, r, c) == EstCell(rows, totalMonthly, totalYearly, r, c)
    ensures forall r: nat :: HeightAt(ws.heights, r) == EstHeight(|rows| - 2, r)
    ensures ws.merges == EstMerges(|rows| - 2) && ws.images == EstImages(|rows| - 2, image)
  {
    var n := |rows| - 2;
    WriteHeader(ws);
    WriteDataRows(ws, rows[..n]);
    SetHeights(ws, n);
    WriteTrailers(ws, n, totalMonthly, totalYearly);
    if HasImage(image) {
      ws.InsertImage(n + 4, 0, image.value);
    }
  }

  /** generateExelFromJsonBom.py:75-89: the frame with its header rewritten in yellow. */
  method RenderBom(rows: seq<Row>) returns (ws: Worksheet)
    ensures fresh(ws)
    ensures forall r: nat, c: nat :: CellAt(ws.cells, r, c) == BomCell(rows, r, c)
    ensures ws.heights == map[] && ws.merges == [] && ws.images == []
  {
    ws := new Worksheet.FromFrame(rows);
    WriteHeader(ws);
  }
}
