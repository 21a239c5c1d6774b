# Budget tracker: a Dafny model of its derivations and exports

The app is a single-page budgeting tool (conniexu444/spending-tracker). The
user keeps a ledger of categories. Each category holds subcategories whose
amounts are stored as the text the user typed. The app derives totals from
those texts and draws them as a pie and a doughnut. It exports the ledger to a
spreadsheet and to a PDF.

This project models that logic in Dafny and proves properties of it:

- `JsBuiltins`: the JavaScript built-ins the app depends on.
  - `parseFloat` is an explicit partial parser: `None` stands for NaN.
  - `String.prototype.trim` uses the ECMAScript white-space set.
  - `Number.prototype.toFixed(2)` is modelled on reals.
- `Ledger` (`src/data/defaultCategories.ts`): the category and subcategory records and the five seed categories.
- `App` (`src/App.tsx`):
  - the currency sanitiser `formatCurrency`;
  - the per-category and overall totals;
  - the flat rows of the inline spreadsheet export;
  - the "add category" dialog. This one is a class, because the component updates its state in place.
- `RightPane` (`src/components/right-pane.tsx`): the chart data. The doughnut's "Remaining" slice is clamped at zero, and the pie is index-aligned with the totals.
- `ExcelExport` (`src/utils/exportToExcel.ts`): the imperative spreadsheet export, as methods with loop invariants.
  - The row array is built by nested loops.
  - A `rowIndex` counter steers the styling and must stay in step with the row layout.
  - The number-format loop runs over the amount column.
- `PdfExport` (`src/utils/exportCategoriesToPdf.ts`): the imperative PDF export. It has a y cursor with page breaks and a running total.

Numbers are Dafny `real`s. JavaScript's `number`, rounding and NaN are explained below.

`parseFloat` follows this grammar:

1. It skips leading white space.
2. It reads an optional `+` or `-`.
3. It reads digits with at most one `.`, and at least one digit must be present. It takes the longest such prefix and ignores the rest.
4. Text with no such prefix gives NaN.

`toFixed(2)` of `x` writes `⌊|x|·100 + ½⌋` cents: the integer part, a point, and two digits. A `-` comes first when `x < 0`.

Each imperative routine is a `method` proved equal to a specification function built by peeling off the last category (or subcategory). The properties are lemmas about those functions:

- **Spreadsheet.**
  - Category `k`'s title row is row `HeaderRow(cats, k) = 3 + Σ_{i<k}(|subs_i| + 2)`. That is the value `rowIndex` holds when category `k` is styled.
  - Its subcategories fill the next rows, and a blank row follows.
  - Shading falls on exactly the even rows among those subcategory rows.
  - The number format falls on exactly the subcategory rows.
- **PDF.**
  - After every subcategory line the cursor lies between 50 and 750.
  - Headers and gaps never start a page.
  - At most one page is added per subcategory line.
  - When no page is added, the total text stands at `130 + 65·|categories| + 25·|subcategories|`.
  - The printed total is the app's `totalSpent`.
  - Headers never trigger a page break, so a ledger of many categories without subcategories runs past the bottom of the page. For example, 13 of them put the last header at y = 880, below the 842-point A4 page.

Two behaviours of the code are easy to miss:

- **Excel NaN amounts.** The spreadsheet export (`exportToExcel.ts:16`) writes `parseFloat(sub.value || "0")` with no trailing `|| 0`. An unparseable amount therefore becomes a NaN cell (`Number(None)` here). The totals (`App.tsx:72`), the charts and the PDF (`exportCategoriesToPdf.ts:27`) coerce it to 0.
- **Currency sign.** `formatCurrency` (`App.tsx:64`) removes every character except digits and `.`, a minus sign included. When the rest parses, `"-5"` becomes `"5.00"` (`App.FormatCurrencyDropsSign`), so a negative amount does not survive formatting. The totals parse the raw value and do accept a leading minus (`JsBuiltins.ParseFloatSigns`).

## Model

| member | source | states |
|---|---|---|
| JsBuiltins.TrimStart | src/App.tsx:37 | returns a suffix of the input that does not start with white space, and everything it removed is white space |
| JsBuiltins.TrimEnd | src/App.tsx:37 | returns a prefix of the input that does not end with white space, and everything it removed is white space |
| JsBuiltins.TrimEmptyIffBlank | src/App.tsx:37 | `trim()` gives the empty string exactly when every character is white space |
| JsBuiltins.Trim | src/App.tsx:37 | `trim()` returns the slice of the input between its leading and its trailing white space, and that slice neither starts nor ends with white space |
| JsBuiltins.ParseFloat | src/App.tsx:65 | `parseFloat` of a text that starts with a digit is a number |
| JsBuiltins.ParseFloatAfterSpace | src/App.tsx:72 | `parseFloat` skips all leading white space and then reads a signed numeral |
| JsBuiltins.ParseFloatSkipsSpace | src/App.tsx:72 | for every text, one white-space character in front does not change what `parseFloat` reads |
| JsBuiltins.ParseFloatSigns | src/App.tsx:72 | for every text that does not start with white space or a sign, a leading "-" negates its number (NaN stays NaN) and a leading "+" changes nothing |
| JsBuiltins.ParseFloatDefined | src/App.tsx:65-66 | `parseFloat` is a number exactly when, after the white space and one optional sign, a digit comes, or a point followed by a digit; otherwise NaN ("abc", ".", "-" are NaN; ".5" is not) |
| JsBuiltins.ParseFloatIntegerPrefix | src/App.tsx:72 | for all digit strings q, q followed by a character that is neither a digit nor a point reads as the value of q ("12a3" is 12) |
| JsBuiltins.ParseFloatLongestPrefix | src/App.tsx:65 | for all digit strings q and f, "q.f" followed by a character that is not a digit reads as "q.f" alone ("1.2.3" is 1.2) |
| JsBuiltins.ParseFloatOrZero | src/App.tsx:72 | `parseFloat(s) \|\| 0` is 0 when the parse is NaN and the parsed value otherwise |
| JsBuiltins.ParseFloatEmpty | src/App.tsx:72 | the empty text parses to NaN |
| JsBuiltins.ParseUnsignedNonNegative | src/App.tsx:65 | text that starts with a digit or a point never parses to a negative number |
| JsBuiltins.NatToDigitsValue | src/App.tsx:67 | the decimal digits written for a natural number read back as that number |
| JsBuiltins.Cents | src/App.tsx:67 | rounds a non-negative amount to whole cents, halves rounded up: n ≤ 100x + ½ < n + 1 |
| JsBuiltins.CentsText | src/App.tsx:67 | digits, a point and exactly two digits |
| JsBuiltins.ToFixed2 | src/App.tsx:67 | `toFixed(2)` yields at least four characters: an optional minus, digits, a point, exactly two digits |
| JsBuiltins.ParseCentsText | src/App.tsx:67 | the text for n cents parses back to n/100 |
| JsBuiltins.ParseSignedCentsText | src/App.tsx:67 | the signed cents text parses back to the signed amount |
| JsBuiltins.ParseToFixed2 | src/App.tsx:67 | parsing the output of `toFixed(2)` gives the input rounded to cents |
| JsBuiltins.Round2Idempotent | src/App.tsx:67 | rounding to cents twice is rounding once, and a non-negative amount prints the same after rounding |
| Ledger.Titles | src/components/right-pane.tsx:48 | one title per category, in ledger order |
| Ledger.SubcategoryCountConcat | src/data/defaultCategories.ts:8-11 | the subcategory count of two ledgers joined is the sum of their counts |
| Ledger.DefaultCategoriesShape | src/data/defaultCategories.ts:15-51 | the seed holds Housing, Food, Loans, Subscriptions and Transportation in this order, with 4, 2, 0, 0 and 1 subcategories, 7 in all |
| Ledger.DefaultCategoriesValues | src/data/defaultCategories.ts:15-51 | every seed amount is empty text and no two seed titles are equal |
| App.Clean | src/App.tsx:64 | the cleaned text is no longer than the input, holds only digits and points, and is the input itself when that has no other character |
| App.CleanConcat | src/App.tsx:64 | cleaning works character by character, so it distributes over concatenation |
| App.CleanCounts | src/App.tsx:64 | each digit or point occurs in the cleaned text as often as in the input; no other character occurs |
| App.FormatCurrency | src/App.tsx:62-68 | the result is empty exactly when the input is; the input comes back unchanged when its cleaned text does not parse |
| App.CleanParsesNonNegative | src/App.tsx:64-65 | the cleaned text never parses to a negative number |
| App.FormatCurrencyParsed | src/App.tsx:65-67 | when the cleaned text parses, the result is digits, a point and exactly two digits, and it parses back to the number rounded to cents |
| App.CleanKeepsFixed | src/App.tsx:64-67 | the two-decimal text of a non-negative number holds only digits and a point, so cleaning leaves it unchanged |
| App.FormatCurrencyIdempotent | src/App.tsx:62-68 | formatting a formatted value changes nothing |
| App.FormatCurrencyDropsSign | src/App.tsx:64 | when the cleaned text of x parses, a leading minus is dropped with the other characters, so "-x" formats like "x" (otherwise both come back unchanged, and "-x" differs from "x") |
| App.FormatCurrencyKeepsText | src/App.tsx:65-66 | "abc" has no number in it and comes back unchanged |
| App.FormatCurrencyRounds | src/App.tsx:64-67 | "$7.5" loses the dollar sign and becomes "7.50" |
| App.FixedSevenAndAHalf | src/App.tsx:67 | `(7.5).toFixed(2)` is "7.50" |
| App.Amount | src/App.tsx:72 | `parseFloat(value) \|\| 0`: the parsed number, or 0 when the text is NaN, and 0 for the empty text |
| App.Amounts | src/App.tsx:72 | one coerced amount per subcategory, in order |
| App.ReduceIsSum | src/App.tsx:71-74 | the left fold `reduce` from an initial value is that value plus the sum of the elements |
| App.SumConcat | src/App.tsx:77 | the sum of two sequences joined is the sum of their sums |
| App.CategoryTotal | src/App.tsx:71-74 | a category's total is the sum of its subcategories' coerced amounts |
| App.CategoryTotals | src/App.tsx:70-75 | one total per category, in ledger order, each that category's total |
| App.LedgerAmounts | src/App.tsx:70-77 | the ledger's coerced amounts, one per subcategory |
| App.TotalSpent | src/App.tsx:77 | the `reduce` over the category totals is their sum |
| App.TotalSpentIsSumOfAmounts | src/App.tsx:77 | `totalSpent` is the sum of the category totals and the sum of every coerced amount in the ledger |
| App.SumOfTotals | src/App.tsx:70-77 | summing per category and then across categories gives the sum of all amounts |
| App.TotalSpentConcat | src/App.tsx:77 | the total spent of two ledgers joined is the sum of their totals |
| App.TotalSpentOfSplit | src/App.tsx:77 | a category adds exactly its own total wherever it stands, and swapping two blocks of categories does not change the total |
| App.RemoveCategory | src/App.tsx:77 | taking category i out of the ledger removes exactly its total from the total spent |
| App.TotalSpentPermutation | src/App.tsx:77 | any two ledgers holding the same categories, in any order, have the same total spent |
| App.CategoryTotalOfSplit | src/App.tsx:71-74 | a subcategory adds exactly its own coerced amount wherever it stands |
| App.NothingSpentWhenValuesEmpty | src/App.tsx:70-77 | a ledger whose amounts are all empty spends 0 |
| App.LedgerAmountsZero | src/App.tsx:72 | every empty amount contributes 0 |
| App.SumOfZeros | src/App.tsx:77 | a sum of zeros is zero |
| App.DefaultLedgerSpendsNothing | src/data/defaultCategories.ts:15-51 | the seed ledger's total spent is 0 |
| App.SubcategoryRows | src/App.tsx:47-51 | one flat row per subcategory holding the category title, the label and the raw amount text |
| App.ExportRows | src/App.tsx:46-52 | the flat rows number the subcategories of the whole ledger |
| App.ExportRowAt | src/App.tsx:46-52 | subcategory j of category k is the flat row at position (subcategories before k) + j, with the raw text as amount |
| App.ExportAmountsAreLedgerAmounts | src/App.tsx:46-52 | the flat rows' amount texts coerce to the ledger's amounts, in order |
| App.AcceptsCategoryName | src/App.tsx:37 | a name is accepted exactly when some character of it is not white space |
| App.AddCategoryDialog.constructor | src/App.tsx:36-41 | the dialog starts closed with an empty name and no names added |
| App.AddCategoryDialog.HandleAddCategory | src/App.tsx:36-41 | a blank name changes nothing; any other name is passed on untrimmed, the dialog closes and the field is cleared |
| RightPane.RemainingSlice | src/components/right-pane.tsx:107 | the remaining slice is never negative, is income minus spent when income covers spending and 0 otherwise, and spent plus remaining is the larger of the two |
| RightPane.Doughnut | src/components/right-pane.tsx:101-107 | the labels are "Spent" then "Remaining", two slices, spent first, the slices covering the larger of income and spending |
| RightPane.Pie | src/components/right-pane.tsx:46-52 | the labels are the category titles in order and the data are the given totals |
| RightPane.PieMatchesLedger | src/components/right-pane.tsx:48-52 | slice k is category k's title and total, and the pie's slices add up to the doughnut's spent slice |
| ExcelExport.CellAmount | src/utils/exportToExcel.ts:16 | `parseFloat(value \|\| "0")` is NaN exactly when the text is non-empty and does not parse, and otherwise equals the coerced amount the totals use |
| ExcelExport.SubcategoryRows | src/utils/exportToExcel.ts:12-18 | one row per subcategory, in order, each `["", label, amount]` |
| ExcelExport.BlocksLength | src/utils/exportToExcel.ts:9-21 | the categories take Σ (subcategories + 2) rows |
| ExcelExport.BlocksPrefix | src/utils/exportToExcel.ts:9-21 | the rows of the first k categories are a prefix of the rows of all of them |
| ExcelExport.SheetRowsLength | src/utils/exportToExcel.ts:4-21 | row 1 is the title row, row 2 is blank, and there are 2 + Σ (subcategories + 2) rows |
| ExcelExport.CategoryLayout | src/utils/exportToExcel.ts:9-21 | row `HeaderRow(cats, k)` holds category k's title, the next rows its subcategories in order, then a blank row |
| ExcelExport.RowsHaveThreeCells | src/utils/exportToExcel.ts:6-20 | every row has exactly three cells |
| ExcelExport.EmptyAmountIsZero | src/utils/exportToExcel.ts:16 | an empty amount exports as the number 0 |
| ExcelExport.PushSubcategoryRows | src/utils/exportToExcel.ts:12-18 | after the rows already there, one row `["", label, amount]` is pushed per subcategory, in order |
| ExcelExport.BuildRows | src/utils/exportToExcel.ts:4-21 | the nested loops build exactly the laid-out rows |
| ExcelExport.CategoryRowsExist | src/utils/exportToExcel.ts:37-38 | the header cell `A<rowIndex>` of every category exists, and its subcategory rows lie inside the sheet |
| ExcelExport.ShadeSubcategoryRows | src/utils/exportToExcel.ts:49-66 | every cell check succeeds, and exactly the B and C cells of the even rows among the category's subcategory rows are shaded, in order |
| ExcelExport.ShadeWritesExact | src/utils/exportToExcel.ts:49-66 | shading hits column B or C of a row exactly when it is an even row among the category's subcategory rows, and nothing else |
| ExcelExport.StyleCategories | src/utils/exportToExcel.ts:34-70 | every cell check succeeds, the writes are the header of each category at `HeaderRow(cats, k)` and the shading of its even subcategory rows, and `rowIndex` ends one past the last row |
| ExcelExport.FormatAmountColumnAsWritten | src/utils/exportToExcel.ts:72-91 | the number cells of rows 3 to the last are formatted and the workbook is saved once per row from 3 to the last |
| ExcelExport.AsWrittenSavesNeverOnce | src/utils/exportToExcel.ts:72-91 | as written, the workbook is saved once per category row of the sheet, never exactly once: not at all for an empty ledger, 17 times for the seed |
| ExcelExport.FormatAmountColumn | src/utils/exportToExcel.ts:72-90 | the number cells of rows 3 to the last are formatted, then the workbook is saved once |
| ExcelExport.NumberRowsMembers | src/utils/exportToExcel.ts:74-76 | a row is formatted exactly when it lies between 3 and the last row and its C cell holds a number |
| ExcelExport.NumberRows | src/utils/exportToExcel.ts:72-78 | the rows the format loop touches: increasing row numbers between 3 and the bound, each with a number in column C |
| ExcelExport.CountBlocks | src/utils/exportToExcel.ts:9-21 | the categories' rows hold exactly one number cell per subcategory |
| ExcelExport.FormattedRowsCount | src/utils/exportToExcel.ts:72-78 | as many rows are formatted as there are subcategories |
| ExcelExport.SubcategoryRowsAreFormatted | src/utils/exportToExcel.ts:72-78 | every subcategory's row is formatted |
| ExcelExport.FormattedRowsAreSubcategoryRows | src/utils/exportToExcel.ts:72-78 | the formatted rows are number rows, every subcategory row is among them, and there are as many as subcategories: they are exactly the subcategory rows |
| ExcelExport.ExportCategoriesToExcel | src/utils/exportToExcel.ts:3-91 | the sheet holds the laid-out rows, the title style then the category styles, the number formats of exactly the number rows, and one save |
| PdfExport.DrawSubcategories | src/utils/exportCategoriesToPdf.ts:26-46 | the inner loop draws each line, advances or resets the cursor and adds each amount, exactly as the step function `SubcategorySteps` does |
| PdfExport.DrawSubcategoryLine | src/utils/exportCategoriesToPdf.ts:26-45 | one line: the amount joins the total, the label and "$" with the amount in two decimals are drawn at the cursor, the cursor moves 25 down, and past 750 a page is added and the cursor returns to 50 |
| PdfExport.DrawCategory | src/utils/exportCategoriesToPdf.ts:16-49 | one category: the header box and title at the cursor, 45 down, its lines, then a 20-point gap |
| PdfExport.ExportCategoriesToPdf | src/utils/exportCategoriesToPdf.ts:4-60 | the drawing calls, final cursor and total are those of the reference function `Document` |
| PdfExport.Document | src/utils/exportCategoriesToPdf.ts:11-60 | the document starts with the title text at y = 60 and ends with the rule 10 points and the total text 30 points below the cursor left by the categories |
| PdfExport.LineAmount | src/utils/exportCategoriesToPdf.ts:27 | `parseFloat(value \|\| "0") \|\| 0` equals `parseFloat(value) \|\| 0` |
| PdfExport.LineAmountIsAmount | src/utils/exportCategoriesToPdf.ts:27 | the PDF's `parseFloat(value \|\| "0") \|\| 0` is the amount the app's totals count |
| PdfExport.SubcategoryStepsTotal | src/utils/exportCategoriesToPdf.ts:26-28 | the lines of a category add exactly the sum of its coerced amounts to the running total |
| PdfExport.CategoryStepsTotal | src/utils/exportCategoriesToPdf.ts:14-49 | the categories add exactly the sum of their totals to the running total |
| PdfExport.DocumentTotal | src/utils/exportCategoriesToPdf.ts:14-60 | the printed total is the app's total spent, and the last text drawn is "Total Spent: $" with it in two decimals |
| PdfExport.HeaderStepPages | src/utils/exportCategoriesToPdf.ts:18-24 | a header adds no page and moves the cursor 45 points down |
| PdfExport.SubcategoryStepPages | src/utils/exportCategoriesToPdf.ts:39-45 | a line adds a page exactly when it takes the cursor past 750; afterwards the cursor is between 50 and 750, and 25 points lower when no page was added |
| PdfExport.SubcategoryStepsCursor | src/utils/exportCategoriesToPdf.ts:26-46 | after any subcategory line the cursor is between 50 and 750, at most one page is added per line, and without a page the cursor moved 25 points per line |
| PdfExport.CategoryStepsCursor | src/utils/exportCategoriesToPdf.ts:16-49 | the cursor never goes above 50, at most one page is added per subcategory, and without a page the cursor moved 65 points per category and 25 per subcategory |
| PdfExport.EmptyCategoriesNeverBreak | src/utils/exportCategoriesToPdf.ts:18-48 | categories without subcategories add no page and push the cursor 65 points each |
| PdfExport.FinishPages | src/utils/exportCategoriesToPdf.ts:52-55 | the total line adds no page; the two draws appended are the rule 10 points and the total text 30 points below the last cursor, and the cursor ends 30 points lower |
| PdfExport.DocumentLayout | src/utils/exportCategoriesToPdf.ts:13-60 | the document adds at most one page per subcategory, and without a page the total text stands at 130 + 65·categories + 25·subcategories |

## Findings

| source | as written | input that shows it | evidently intended | confidence | as-written member | corrected member |
|---|---|---|---|---|---|---|
| src/utils/exportToExcel.ts:78 | the brace closes the `if`, not the `for`, so lines 80-90 (column widths, new workbook, `writeFile`) run once per row from 3 to the last | the seed ledger (19 rows) saves the file 17 times; an empty ledger (2 rows) never saves | close the loop at line 78 and save the workbook once after it | high; not executed | ExcelExport.FormatAmountColumnAsWritten, ExcelExport.AsWrittenSavesNeverOnce | ExcelExport.FormatAmountColumn, ExcelExport.ExportCategoriesToExcel |

## Left out

- IEEE-754 arithmetic: amounts and sums are exact reals. Floating-point rounding in sums and in `toFixed` (which rounds the binary value, not the decimal), `-0`, and `toFixed`'s exponent form at 1e21 and above are not modelled.
- parseFloat: exponents (`"1e3"`), `Infinity` and non-decimal forms are outside the grammar. Such text parses as its longest plain decimal prefix, so `"1e3"` is 1 here.
- ExcelExport.ExportCategoriesToExcel: it uses the corrected save (see Findings). The as-written save count is stated by `ExcelExport.FormatAmountColumnAsWritten`.
- ExcelExport: the spreadsheet library's cell objects, style contents, the A1:C1 merge and the column widths are not modelled. A style or format assignment is recorded as the cell it targets. How the library stores a NaN amount is not modelled: NaN is a number cell and is formatted like one.
- App.tsx `handleExportToExcel` lines 54-59: `json_to_sheet` and `writeFile` are library calls. Only the flat rows are modelled.
- PdfExport: fonts, colours, x coordinates derived from the page width, the box height, and `save` are left out. Drawing calls are recorded with their y coordinate only.
- App.AddCategoryDialog.HandleAddCategory: `addCategory` lives in the `useCategories` hook, which is not part of this model. Its calls are recorded, not interpreted.
- The ledger mutations of `useCategories` (add, delete and edit subcategory, delete category) and the `parseCurrency`/`format` functions of `useCurrency` are not part of this model. The income amount is a parameter of the chart functions.
- The "Total Left" header in right-pane.tsx:95 formats a `remaining` prop that App (src/App.tsx:110-116) never passes. With `remaining` undefined, `remaining.toString()` would throw on render, and the type checker rejects the missing prop, so the header has no defined value to model. Only the doughnut's clamp at line 107 is modelled.
- ExcelExport.CellExists: the model takes `aoa_to_sheet` to create a cell for every element of every row, the empty string `""` included. A `worksheet[ref]` guard is then "the row and column exist", and every "cell check succeeds" clause of `ShadeSubcategoryRows`, `StyleCategories` and `CategoryRowsExist` rests on that assumption about the library.
- SheetRows, StylePlan: these reference functions carry no contract of their own. `BuildRows` and `StyleCategories` are proved equal to them, and `SheetRowsLength`, `CategoryLayout` and `ShadeWritesExact` state what they hold.
- Chart rendering, colours, legends and theme; `monthly-income-card.tsx`, whose only logic calls the currency hook; and the presentational components and styling are not modelled.
