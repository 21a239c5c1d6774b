/**
 * The spreadsheet export (src/utils/exportToExcel.ts): the array of rows it
 * builds, the cells its styling pass touches, and the cells its number-format
 * pass touches. Workbook objects, style contents and file output belong to the
 * spreadsheet library and are not modelled; a style or format assignment is
 * recorded as the cell it targets.
 *
 * Rows are numbered from 1, as in the sheet's cell names ("A3" is row 3).
 */
module ExcelExport {
  import opened JsBuiltins
  import opened Ledger

  /** A sheet cell: text, or a number where `Number(None)` is NaN. */
  datatype Cell = Text(text: string) | Number(value: Option<real>)

  type Row = seq<Cell>

  datatype Column = A | B | C

  function ColumnIndex(col: Column): nat {
    match col
    case A => 0
    case B => 1
    case C => 2
  }

  // ------------------------------------------------------------------
  // The rows (exportToExcel.ts lines 4-21)

  function TitleRow(): Row { [Text("My Monthly Budget"), Text(""), Text("")] }

  function BlankRow(): Row { [Text(""), Text(""), Text("")] }

  function CategoryRow(cat: Category): Row { [Text(cat.title), Text(""), Text("")] }

  /**
   * `parseFloat(sub.value || "0")`: empty text becomes "0"; unlike the totals,
   * NaN is kept. Where it is a number, it is the amount the totals count.
   */
  function CellAmount(value: string): (r: Option<real>)
    ensures r.None? <==> value != "" && ParseFloat(value).None?
    ensures r.Some? ==> r.value == ParseFloatOrZero(value)
  {
    assert "0"[1..] == "";
    assert ParseFloat("0") == Some(0.0);
    ParseFloat(if value == "" then "0" else value)
  }

  function SubcategoryRow(sub: Subcategory): Row {
    [Text(""), Text(sub.labelText), Number(CellAmount(sub.value))]
  }

  function SubcategoryRows(subs: seq<Subcategory>): (rs: seq<Row>)
    ensures |rs| == |subs| && forall j :: 0 <= j < |subs| ==> rs[j] == SubcategoryRow(subs[j])
  {
    seq(|subs|, j requires 0 <= j < |subs| => SubcategoryRow(subs[j]))
  }

  /** What one category contributes: its title row, a row per subcategory, a blank row. */
  function CategoryBlock(cat: Category): seq<Row> {
    [CategoryRow(cat)] + SubcategoryRows(cat.subcategories) + [BlankRow()]
  }

  function Blocks(cats: seq<Category>): seq<Row> {
    if cats == [] then [] else Blocks(cats[..|cats| - 1]) + CategoryBlock(cats[|cats| - 1])
  }

  /** The whole array of rows, as the export lays it out: the title row, a blank row, then the categories. */
  function SheetRows(cats: seq<Category>): seq<Row> {
    [TitleRow(), BlankRow()] + Blocks(cats)
  }

  /** Rows taken by the categories: each takes its subcategories plus two. */
  function Span(cats: seq<Category>): nat {
    SubcategoryCount(cats) + 2 * |cats|
  }

  /** The row number `rowIndex` is meant to hold when category `k` is styled: its title row. */
  function HeaderRow(cats: seq<Category>, k: nat): nat
    requires k <= |cats|
  {
    3 + Span(cats[..k])
  }

  lemma {:induction false} BlocksLength(cats: seq<Category>)
    ensures |Blocks(cats)| == Span(cats)
  {
    if cats != [] {
      var n := |cats| - 1;
      BlocksLength(cats[..n]);
      SubcategoryCountStep(cats, n);
      assert cats[..n + 1] == cats;
    }
  }

  lemma BlocksStep(cats: seq<Category>, k: nat)
    requires k < |cats|
    ensures Blocks(cats[..k + 1]) == Blocks(cats[..k]) + CategoryBlock(cats[k])
  {
    assert cats[..k + 1][..k] == cats[..k];
  }

  lemma {:induction false} BlocksPrefix(cats: seq<Category>, k: nat)
    requires k <= |cats|
    ensures Blocks(cats[..k]) <= Blocks(cats)
  {
    if k < |cats| {
      var n := |cats| - 1;
      BlocksPrefix(cats[..n], k);
      assert cats[..n][..k] == cats[..k];
    } else {
      assert cats[..k] == cats;
    }
  }

  /** Row 1 is the title, row 2 is blank, and `rows.length = 2 + Σ (|subcategories| + 2)`. */
  lemma SheetRowsLength(cats: seq<Category>)
    ensures |SheetRows(cats)| == 2 + Span(cats)
    ensures SheetRows(cats)[0] == [Text("My Monthly Budget"), Text(""), Text("")]
    ensures SheetRows(cats)[1] == [Text(""), Text(""), Text("")]
  {
    BlocksLength(cats);
  }

  lemma SubcategoryRowsStep(subs: seq<Subcategory>, j: nat)
    requires j < |subs|
    ensures SubcategoryRows(subs[..j + 1]) == SubcategoryRows(subs[..j]) + [SubcategoryRow(subs[j])]
  {
    var l := SubcategoryRows(subs[..j + 1]);
    var r := SubcategoryRows(subs[..j]) + [SubcategoryRow(subs[j])];
    assert |l| == |r|;
    forall i | 0 <= i < |l| ensures l[i] == r[i] {
      if i < j {
        assert subs[..j + 1][i] == subs[..j][i];
      }
    }
  }

  /** An element of the second part of a prefix `a + b` of `c` sits in `c` past `a`. */
  lemma PrefixIndex(a: seq<Row>, b: seq<Row>, c: seq<Row>, i: nat)
    requires a + b <= c && i < |b|
    ensures |a| + i < |c| && c[|a| + i] == b[i]
  {
    assert (a + b)[|a| + i] == b[i];
  }

  /** Category `k`'s block stands in `Blocks(cats)` right after the blocks of the categories before it. */
  lemma BlockAt(cats: seq<Category>, k: nat, i: nat)
    requires k < |cats| && i < |CategoryBlock(cats[k])|
    ensures Span(cats[..k]) + i < |Blocks(cats)|
    ensures Blocks(cats)[Span(cats[..k]) + i] == CategoryBlock(cats[k])[i]
  {
    BlocksPrefix(cats, k + 1);
    BlocksStep(cats, k);
    BlocksLength(cats[..k]);
    PrefixIndex(Blocks(cats[..k]), CategoryBlock(cats[k]), Blocks(cats), i);
  }

  lemma SheetRowAt(cats: seq<Category>, k: nat, i: nat)
    requires k < |cats| && i < |CategoryBlock(cats[k])|
    ensures HeaderRow(cats, k) + i <= |SheetRows(cats)|
    ensures SheetRows(cats)[HeaderRow(cats, k) - 1 + i] == CategoryBlock(cats[k])[i]
  {
    BlockAt(cats, k, i);
  }

  /**
   * The layout: row `HeaderRow(cats, k)` holds category `k`'s title, the next
   * rows its subcategories in order, then a blank row.
   */
  lemma CategoryLayout(cats: seq<Category>, k: nat)
    requires k < |cats|
    ensures HeaderRow(cats, k) + |cats[k].subcategories| + 1 <= |SheetRows(cats)|
    ensures SheetRows(cats)[HeaderRow(cats, k) - 1] == CategoryRow(cats[k])
    ensures forall j :: 0 <= j < |cats[k].subcategories| ==>
      SheetRows(cats)[HeaderRow(cats, k) + j] == SubcategoryRow(cats[k].subcategories[j])
    ensures SheetRows(cats)[HeaderRow(cats, k) + |cats[k].subcategories|] == BlankRow()
  {
    var subs := cats[k].subcategories;
    var block := CategoryBlock(cats[k]);
    assert block[0] == CategoryRow(cats[k]);
    assert block[|subs| + 1] == BlankRow();
    SheetRowAt(cats, k, 0);
    SheetRowAt(cats, k, |subs| + 1);
    forall j | 0 <= j < |subs|
      ensures SheetRows(cats)[HeaderRow(cats, k) + j] == SubcategoryRow(subs[j])
    {
      assert block[j + 1] == SubcategoryRows(subs)[j];
      SheetRowAt(cats, k, j + 1);
    }
  }

  /** Category `k`'s title row and its subcategory rows lie inside the sheet. */
  lemma CategoryRowsExist(cats: seq<Category>, k: nat)
    requires k < |cats|
    ensures HeaderRow(cats, k) + |cats[k].subcategories| + 1 <= |SheetRows(cats)|
    ensures CellExists(SheetRows(cats), HeaderRow(cats, k), A)
  {
    CategoryLayout(cats, k);
  }

  /** Every row has exactly three cells. */
  lemma {:induction false} RowsHaveThreeCells(cats: seq<Category>)
    ensures forall i :: 0 <= i < |SheetRows(cats)| ==> |SheetRows(cats)[i]| == 3
  {
    if cats != [] {
      var n := |cats| - 1;
      RowsHaveThreeCells(cats[..n]);
      var rows := SheetRows(cats);
      var front := SheetRows(cats[..n]);
      var block := CategoryBlock(cats[n]);
      assert rows == front + block;
      forall i | 0 <= i < |rows| ensures |rows[i]| == 3 {
        if i >= |front| {
          assert rows[i] == block[i - |front|];
        }
      }
    }
  }

  /** An empty amount exports as the number 0. */
  lemma EmptyAmountIsZero()
    ensures CellAmount("") == Some(0.0)
  {
    assert "0"[1..] == "";
    assert ParseFloat("0") == ScanInt("0", 0, false);
  }

  /** The inner `forEach` of the row construction: push one row per subcategory. */
  method PushSubcategoryRows(rows0: seq<Row>, subs: seq<Subcategory>) returns (rows: seq<Row>)
    ensures rows == rows0 + SubcategoryRows(subs)
  {
    rows := rows0;
    var j := 0;
    while j < |subs|
      invariant 0 <= j <= |subs|
      invariant rows == rows0 + SubcategoryRows(subs[..j])
    {
      SubcategoryRowsStep(subs, j);
      rows := rows + [SubcategoryRow(subs[j])];
      j := j + 1;
    }
    assert subs[..j] == subs;
  }

  /** `exportCategoriesToExcel` lines 4-21: push the title and blank rows, then each category's block. */
  method BuildRows(cats: seq<Category>) returns (rows: seq<Row>)
    ensures rows == SheetRows(cats)
  {
    rows := [];
    rows := rows + [TitleRow()];
    rows := rows + [BlankRow()];
    var k := 0;
    while k < |cats|
      invariant 0 <= k <= |cats|
      invariant rows == [TitleRow(), BlankRow()] + Blocks(cats[..k])
    {
      var cat := cats[k];
      rows := rows + [CategoryRow(cat)];
      rows := PushSubcategoryRows(rows, cat.subcategories);
      rows := rows + [BlankRow()];
      BlocksStep(cats, k);
      k := k + 1;
    }
    assert cats[..k] == cats;
  }

  // ------------------------------------------------------------------
  // Styling (exportToExcel.ts lines 29-70)

  datatype CellStyle = TitleStyle | HeaderStyle | ShadeStyle

  /** One `worksheet[cell].s = ...` assignment. */
  datatype StyleWrite = StyleWrite(row: nat, col: Column, style: CellStyle)

  /** `worksheet[ref]` is defined: the row and the column exist. */
  predicate CellExists(rows: seq<Row>, row: nat, col: Column) {
    1 <= row <= |rows| && ColumnIndex(col) < |rows[row - 1]|
  }

  /** The shading writes for the first `m` subcategories below header row `r`: both B and C cells of even rows. */
  function ShadeWrites(r: nat, m: nat): seq<StyleWrite> {
    if m == 0 then []
    else ShadeWrites(r, m - 1)
         + (if (r + m) % 2 == 0 then [StyleWrite(r + m, B, ShadeStyle), StyleWrite(r + m, C, ShadeStyle)] else [])
  }

  function CategoryStyles(r: nat, cat: Category): seq<StyleWrite> {
    [StyleWrite(r, A, HeaderStyle)] + ShadeWrites(r, |cat.subcategories|)
  }

  /** Every style write of the category loop, category by category. */
  function StylePlan(cats: seq<Category>): seq<StyleWrite> {
    if cats == [] then []
    else
      var n := |cats| - 1;
      StylePlan(cats[..n]) + CategoryStyles(HeaderRow(cats, n), cats[n])
  }

  /** Styling one more category appends its header write and its shading. */
  lemma StylePlanStep(cats: seq<Category>, k: nat)
    requires k < |cats|
    ensures StylePlan(cats[..k + 1]) == StylePlan(cats[..k]) + CategoryStyles(HeaderRow(cats, k), cats[k])
  {
    assert cats[..k + 1][..k] == cats[..k];
    assert HeaderRow(cats[..k + 1], k) == HeaderRow(cats, k);
  }

  /** Shading hits column B or C of exactly the even rows among the `m` rows below `r`. */
  lemma {:induction false} ShadeWritesExact(r: nat, m: nat, x: nat, col: Column)
    ensures StyleWrite(x, col, ShadeStyle) in ShadeWrites(r, m)
            <==> col != A && r < x <= r + m && x % 2 == 0
    ensures forall w :: w in ShadeWrites(r, m) ==> r < w.row <= r + m && w.col != A && w.style == ShadeStyle
  {
    if m > 0 {
      ShadeWritesExact(r, m - 1, x, col);
    }
  }

  /** Every style write of the category loop lands on a category row of the sheet, rows 3 to the last. */
  lemma {:induction false} StylePlanRows(cats: seq<Category>)
    ensures forall w :: w in StylePlan(cats) ==> 3 <= w.row <= 2 + Span(cats)
  {
    if cats != [] {
      var n := |cats| - 1;
      StylePlanRows(cats[..n]);
      ShadeWritesExact(HeaderRow(cats, n), |cats[n].subcategories|, 0, A);
      SubcategoryCountStep(cats, n);
      assert cats[..n + 1] == cats;
    }
  }

  /** The inner `forEach` of the styling loop: shade the B and C cells of the even rows among the `count` rows below `rowIndex`. */
  method ShadeSubcategoryRows(rows: seq<Row>, rowIndex: nat, count: nat) returns (shade: seq<StyleWrite>)
    requires rowIndex + count <= |rows|
    requires forall i :: 0 <= i < |rows| ==> |rows[i]| == 3
    ensures shade == ShadeWrites(rowIndex, count)
  {
    shade := [];
    var idx := 0;
    while idx < count
      invariant 0 <= idx <= count
      invariant shade == ShadeWrites(rowIndex, idx)
    {
      var subRow := rowIndex + idx + 1;
      if subRow % 2 == 0 {
        if CellExists(rows, subRow, B) {
          shade := shade + [StyleWrite(subRow, B, ShadeStyle)];
        }
        if CellExists(rows, subRow, C) {
          shade := shade + [StyleWrite(subRow, C, ShadeStyle)];
        }
      }
      idx := idx + 1;
    }
  }

  /**
   * The styling loop. `rowIndex` starts at 3 and advances by each category's
   * subcategory count plus two; the header cell checks always succeed, and
   * the loop ends one past the last row.
   */
  method StyleCategories(cats: seq<Category>, rows: seq<Row>) returns (styles: seq<StyleWrite>, rowIndex: nat)
    requires rows == SheetRows(cats)
    ensures styles == StylePlan(cats)
    ensures rowIndex == |rows| + 1
  {
    RowsHaveThreeCells(cats);
    styles := [];
    rowIndex := 3;
    var k := 0;
    while k < |cats|
      invariant 0 <= k <= |cats|
      invariant rowIndex == HeaderRow(cats, k)
      invariant styles == StylePlan(cats[..k])
    {
      var cat := cats[k];
      CategoryRowsExist(cats, k);
      if CellExists(rows, rowIndex, A) {
        styles := styles + [StyleWrite(rowIndex, A, HeaderStyle)];
      }
      var shade := ShadeSubcategoryRows(rows, rowIndex, |cat.subcategories|);
      styles := styles + shade;
      StylePlanStep(cats, k);
      SubcategoryCountStep(cats, k);
      rowIndex := rowIndex + |cat.subcategories| + 2;
      k := k + 1;
    }
    assert cats[..k] == cats;
    SheetRowsLength(cats);
  }

  // ------------------------------------------------------------------
  // Number formats (exportToExcel.ts lines 72-91)

  predicate IsNumberCell(rows: seq<Row>, row: nat) {
    CellExists(rows, row, C) && rows[row - 1][2].Number?
  }

  /** The rows from 3 to `hi` whose C cell holds a number, in increasing order. */
  function NumberRows(rows: seq<Row>, hi: nat): (xs: seq<nat>)
    ensures forall i :: 0 <= i < |xs| ==> 3 <= xs[i] <= hi && IsNumberCell(rows, xs[i])
    ensures forall i, j :: 0 <= i < j < |xs| ==> xs[i] < xs[j]
  {
    if hi < 3 then [] else NumberRows(rows, hi - 1) + (if IsNumberCell(rows, hi) then [hi] else [])
  }

  /** How many times the format loop as written saves the workbook for a sheet of `rowCount` rows. */
  function AsWrittenSaves(rowCount: nat): nat {
    if rowCount >= 3 then rowCount - 2 else 0
  }

  /**
   * The format loop as written. Its closing brace stands after the file
   * output, so the workbook is built and saved once per row from 3 to the
   * last: `workbookWrites` counts those saves.
   */
  method FormatAmountColumnAsWritten(rows: seq<Row>) returns (formatted: seq<nat>, workbookWrites: nat)
    ensures formatted == NumberRows(rows, |rows|)
    ensures workbookWrites == AsWrittenSaves(|rows|)
  {
    formatted := [];
    workbookWrites := 0;
    var totalRows := |rows|;
    var i := 3;
    while i <= totalRows
      invariant 3 <= i <= if totalRows >= 3 then totalRows + 1 else 3
      invariant formatted == NumberRows(rows, i - 1)
      invariant workbookWrites == i - 3
    {
      if CellExists(rows, i, C) && rows[i - 1][2].Number? {
        formatted := formatted + [i];
      }
      workbookWrites := workbookWrites + 1;
      i := i + 1;
    }
  }

  /**
   * The sheet as written is never saved exactly once: an empty ledger is not
   * saved at all, and the seed ledger is saved 17 times.
   */
  lemma AsWrittenSavesNeverOnce(cats: seq<Category>)
    ensures AsWrittenSaves(|SheetRows(cats)|) == Span(cats)
    ensures AsWrittenSaves(|SheetRows(cats)|) != 1
    ensures AsWrittenSaves(|SheetRows([])|) == 0
    ensures AsWrittenSaves(|SheetRows(DefaultCategories)|) == 17
  {
    SheetRowsLength(cats);
    SheetRowsLength([]);
    SheetRowsLength(DefaultCategories);
    DefaultCategoriesShape();
  }

  /** The format loop with the loop closed before the output: every number cell is formatted, then the workbook is saved once. */
  method FormatAmountColumn(rows: seq<Row>) returns (formatted: seq<nat>, workbookWrites: nat)
    ensures formatted == NumberRows(rows, |rows|)
    ensures workbookWrites == 1
  {
    formatted := [];
    var totalRows := |rows|;
    var i := 3;
    while i <= totalRows
      invariant 3 <= i <= if totalRows >= 3 then totalRows + 1 else 3
      invariant formatted == NumberRows(rows, i - 1)
    {
      if CellExists(rows, i, C) && rows[i - 1][2].Number? {
        formatted := formatted + [i];
      }
      i := i + 1;
    }
    workbookWrites := 1;
  }

  lemma {:induction false} NumberRowsMembers(rows: seq<Row>, hi: nat, x: nat)
    ensures x in NumberRows(rows, hi) <==> 3 <= x <= hi && IsNumberCell(rows, x)
  {
    if hi >= 3 {
      NumberRowsMembers(rows, hi - 1, x);
    }
  }

  /** Number of rows whose third cell holds a number. */
  function CountNumberRows(rs: seq<Row>): nat {
    if rs == [] then 0
    else CountNumberRows(rs[..|rs| - 1]) + (if |rs[|rs| - 1]| > 2 && rs[|rs| - 1][2].Number? then 1 else 0)
  }

  lemma {:induction false} CountNumberRowsConcat(a: seq<Row>, b: seq<Row>)
    ensures CountNumberRows(a + b) == CountNumberRows(a) + CountNumberRows(b)
  {
    if b != [] {
      var n := |b| - 1;
      assert (a + b)[..|a + b| - 1] == a + b[..n];
      CountNumberRowsConcat(a, b[..n]);
    } else {
      assert a + b == a;
    }
  }

  lemma {:induction false} CountSubcategoryRows(subs: seq<Subcategory>)
    ensures CountNumberRows(SubcategoryRows(subs)) == |subs|
  {
    if subs != [] {
      var n := |subs| - 1;
      assert SubcategoryRows(subs)[..n] == SubcategoryRows(subs[..n]);
      CountSubcategoryRows(subs[..n]);
    }
  }

  lemma {:induction false} CountBlocks(cats: seq<Category>)
    ensures CountNumberRows(Blocks(cats)) == SubcategoryCount(cats)
  {
    if cats != [] {
      var n := |cats| - 1;
      var cat := cats[n];
      CountBlocks(cats[..n]);
      CountNumberRowsConcat(Blocks(cats[..n]), CategoryBlock(cat));
      CountNumberRowsConcat([CategoryRow(cat)], SubcategoryRows(cat.subcategories));
      CountNumberRowsConcat([CategoryRow(cat)] + SubcategoryRows(cat.subcategories), [BlankRow()]);
      CountSubcategoryRows(cat.subcategories);
      assert [CategoryRow(cat)][..0] == [];
      assert [BlankRow()][..0] == [];
      SubcategoryCountStep(cats, n);
      assert cats[..n + 1] == cats;
    }
  }

  lemma {:induction false} NumberRowsCount(rows: seq<Row>, hi: nat)
    requires 2 <= hi <= |rows|
    ensures |NumberRows(rows, hi)| == CountNumberRows(rows[2..hi])
  {
    if hi > 2 {
      NumberRowsCount(rows, hi - 1);
      assert rows[2..hi][..hi - 3] == rows[2..hi - 1];
    }
  }

  /** As many rows get the number format as there are subcategories. */
  lemma FormattedRowsCount(cats: seq<Category>)
    ensures |NumberRows(SheetRows(cats), |SheetRows(cats)|)| == SubcategoryCount(cats)
  {
    var rows := SheetRows(cats);
    SheetRowsLength(cats);
    NumberRowsCount(rows, |rows|);
    assert rows[2..|rows|] == Blocks(cats);
    CountBlocks(cats);
  }

  /** Every subcategory's row gets the number format. */
  lemma SubcategoryRowsAreFormatted(cats: seq<Category>, k: nat, x: nat)
    requires k < |cats| && HeaderRow(cats, k) < x <= HeaderRow(cats, k) + |cats[k].subcategories|
    ensures x in NumberRows(SheetRows(cats), |SheetRows(cats)|)
  {
    var rows := SheetRows(cats);
    var j := x - HeaderRow(cats, k) - 1;
    SheetRowAt(cats, k, j + 1);
    assert CategoryBlock(cats[k])[j + 1] == SubcategoryRow(cats[k].subcategories[j]);
    assert rows[x - 1] == SubcategoryRow(cats[k].subcategories[j]);
    assert IsNumberCell(rows, x);
    NumberRowsMembers(rows, |rows|, x);
  }

  /**
   * The number format lands on exactly the subcategory rows: every formatted
   * row holds an amount, every subcategory's row is formatted, and there are
   * as many formatted rows as subcategories.
   */
  lemma FormattedRowsAreSubcategoryRows(cats: seq<Category>)
    ensures var rows := SheetRows(cats);
      var f := NumberRows(rows, |rows|);
      && |f| == SubcategoryCount(cats)
      && (forall x :: x in f ==> 3 <= x <= |rows| && IsNumberCell(rows, x))
      && (forall k, x :: 0 <= k < |cats| && HeaderRow(cats, k) < x <= HeaderRow(cats, k) + |cats[k].subcategories|
            ==> x in f)
  {
    var rows := SheetRows(cats);
    var f := NumberRows(rows, |rows|);
    FormattedRowsCount(cats);
    forall x | x in f ensures 3 <= x <= |rows| && IsNumberCell(rows, x) {
      NumberRowsMembers(rows, |rows|, x);
    }
    forall k, x | 0 <= k < |cats| && HeaderRow(cats, k) < x <= HeaderRow(cats, k) + |cats[k].subcategories|
      ensures x in f
    {
      SubcategoryRowsAreFormatted(cats, k, x);
    }
  }

  // ------------------------------------------------------------------
  // The whole export

  /** What the export hands to the spreadsheet library. */
  datatype SheetModel = SheetModel(
    rows: seq<Row>,
    styles: seq<StyleWrite>,
    numberFormats: seq<nat>,
    workbookWrites: nat)

  /** `exportCategoriesToExcel`, with the format loop closed before the workbook is saved. */
  method ExportCategoriesToExcel(cats: seq<Category>) returns (sheet: SheetModel)
    ensures sheet.rows == SheetRows(cats)
    ensures sheet.styles == [StyleWrite(1, A, TitleStyle)] + StylePlan(cats)
    ensures sheet.numberFormats == NumberRows(sheet.rows, |sheet.rows|)
    ensures sheet.workbookWrites == 1
  {
    var rows := BuildRows(cats);
    var styles := [StyleWrite(1, A, TitleStyle)];
    var categoryStyles, rowIndex := StyleCategories(cats, rows);
    styles := styles + categoryStyles;
    var formatted, writes := FormatAmountColumn(rows);
    sheet := SheetModel(rows, styles, formatted, writes);
  }
}
