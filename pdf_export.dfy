/**
 * The PDF export (src/utils/exportCategoriesToPdf.ts): the vertical cursor
 * that places each category header and subcategory line, the page breaks it
 * triggers, and the running total printed at the end. The document is
 * recorded as the sequence of drawing calls it receives, each with its y
 * coordinate in points; x coordinates, fonts and colours are not modelled.
 */
module PdfExport {
  import opened JsBuiltins
  import opened Ledger
  import opened App

  /** One drawing call: a text, a header box, the rule above the total, or a new page. */
  datatype Draw = Text(text: string, y: int) | Box(y: int) | Rule(y: int) | NewPage

  /** The cursor `currentY`, the running `totalSpent` and the drawing calls made so far. */
  datatype PdfState = PdfState(y: int, total: real, draws: seq<Draw>)

  /** A subcategory line that leaves the cursor below this y starts a new page. */
  const PageBottom: int := 750
  /** Where the cursor restarts on a new page. */
  const PageTop: int := 50

  /** `parseFloat(sub.value || "0") || 0`; the `|| "0"` makes no difference, as "" and "0" both count 0. */
  function LineAmount(value: string): (x: real)
    ensures x == ParseFloatOrZero(value)
  {
    assert "0"[1..] == "";
    assert ParseFloat("0") == Some(0.0);
    ParseFloatOrZero(if value == "" then "0" else value)
  }

  /** The doc title, then the cursor at 100 and nothing spent. */
  function Start(): PdfState {
    PdfState(100, 0.0, [Text("Monthly Budget Summary", 60)])
  }

  /** The header box and title at the cursor, then 45 points down. */
  function HeaderStep(st: PdfState, cat: Category): PdfState {
    PdfState(st.y + 45, st.total, st.draws + [Box(st.y), Text(cat.title, st.y + 20)])
  }

  /** A subcategory line: label and amount at the cursor, the amount added to the total, 25 points down. */
  function LineStep(st: PdfState, sub: Subcategory): PdfState {
    var amount := LineAmount(sub.value);
    PdfState(st.y + 25, st.total + amount,
      st.draws + [Text(sub.labelText, st.y), Text("$" + ToFixed2(amount), st.y)])
  }

  /** Past the bottom of the page: a new page, and the cursor back at the top. */
  function BreakPage(st: PdfState): PdfState {
    if st.y > PageBottom then PdfState(PageTop, st.total, st.draws + [NewPage]) else st
  }

  /** One subcategory line, then a new page if it went past the bottom. */
  function SubcategoryStep(st: PdfState, sub: Subcategory): PdfState {
    BreakPage(LineStep(st, sub))
  }

  function SubcategorySteps(st: PdfState, subs: seq<Subcategory>): PdfState {
    if subs == [] then st else SubcategoryStep(SubcategorySteps(st, subs[..|subs| - 1]), subs[|subs| - 1])
  }

  /** A whole category: its header, its lines, and a 20-point gap. */
  function CategoryStep(st: PdfState, cat: Category): PdfState {
    var after := SubcategorySteps(HeaderStep(st, cat), cat.subcategories);
    PdfState(after.y + 20, after.total, after.draws)
  }

  function CategorySteps(st: PdfState, cats: seq<Category>): PdfState {
    if cats == [] then st else CategoryStep(CategorySteps(st, cats[..|cats| - 1]), cats[|cats| - 1])
  }

  /** The rule 10 points below the cursor and the total 20 points below the rule. */
  function Finish(st: PdfState): PdfState {
    PdfState(st.y + 30, st.total,
      st.draws + [Rule(st.y + 10), Text("Total Spent: $" + ToFixed2(st.total), st.y + 30)])
  }

  /**
   * The whole document for a ledger: the title comes first, and the last two
   * calls are the rule 10 points below the cursor the categories leave and the
   * total text 20 points below the rule.
   */
  function Document(cats: seq<Category>): (d: PdfState)
    ensures |d.draws| >= 3 && d.draws[0] == Text("Monthly Budget Summary", 60)
    ensures d.y == CategorySteps(Start(), cats).y + 30
    ensures d.draws[|d.draws| - 2] == Rule(CategorySteps(Start(), cats).y + 10)
    ensures d.draws[|d.draws| - 1] == Text("Total Spent: $" + ToFixed2(d.total), d.y)
  {
    CategoryStepsExtend(Start(), cats);
    Finish(CategorySteps(Start(), cats))
  }

  /** Subcategory lines only ever add drawing calls. */
  lemma {:induction false} SubcategoryStepsExtend(st: PdfState, subs: seq<Subcategory>)
    ensures st.draws <= SubcategorySteps(st, subs).draws
  {
    if subs != [] {
      SubcategoryStepsExtend(st, subs[..|subs| - 1]);
    }
  }

  /** Categories only ever add drawing calls. */
  lemma {:induction false} CategoryStepsExtend(st: PdfState, cats: seq<Category>)
    ensures st.draws <= CategorySteps(st, cats).draws
  {
    if cats != [] {
      var n := |cats| - 1;
      CategoryStepsExtend(st, cats[..n]);
      SubcategoryStepsExtend(HeaderStep(CategorySteps(st, cats[..n]), cats[n]), cats[n].subcategories);
    }
  }

  lemma SubcategoryStepsSnoc(st: PdfState, subs: seq<Subcategory>, j: nat)
    requires j < |subs|
    ensures SubcategorySteps(st, subs[..j + 1]) == SubcategoryStep(SubcategorySteps(st, subs[..j]), subs[j])
  {
    assert subs[..j + 1][..j] == subs[..j];
  }

  /** The callback of the inner `forEach`: one subcategory line and a page break past the bottom. */
  method DrawSubcategoryLine(sub: Subcategory, y0: int, total0: real, draws0: seq<Draw>)
    returns (draws: seq<Draw>, currentY: int, totalSpent: real)
    ensures PdfState(currentY, totalSpent, draws) == SubcategoryStep(PdfState(y0, total0, draws0), sub)
  {
    var amount := LineAmount(sub.value);
    totalSpent := total0 + amount;
    draws := draws0 + [Text(sub.labelText, y0), Text("$" + ToFixed2(amount), y0)];
    currentY := y0 + 25;
    if currentY > PageBottom {
      draws := draws + [NewPage];
      currentY := PageTop;
    }
  }

  /** The inner `forEach` of `exportCategoriesToPDF`: one category's subcategory lines. */
  method DrawSubcategories(subs: seq<Subcategory>, y0: int, total0: real, draws0: seq<Draw>)
    returns (draws: seq<Draw>, currentY: int, totalSpent: real)
    ensures PdfState(currentY, totalSpent, draws) == SubcategorySteps(PdfState(y0, total0, draws0), subs)
  {
    draws, currentY, totalSpent := draws0, y0, total0;
    var j := 0;
    while j < |subs|
      invariant 0 <= j <= |subs|
      invariant PdfState(currentY, totalSpent, draws) == SubcategorySteps(PdfState(y0, total0, draws0), subs[..j])
    {
      draws, currentY, totalSpent := DrawSubcategoryLine(subs[j], currentY, totalSpent, draws);
      assert subs[..j + 1][..j] == subs[..j];
      j := j + 1;
    }
    assert subs[..j] == subs;
  }

  /** The callback of the outer `forEach`: the header, the subcategory lines, the gap. */
  method DrawCategory(cat: Category, y0: int, total0: real, draws0: seq<Draw>)
    returns (draws: seq<Draw>, currentY: int, totalSpent: real)
    ensures PdfState(currentY, totalSpent, draws) == CategoryStep(PdfState(y0, total0, draws0), cat)
  {
    draws := draws0 + [Box(y0), Text(cat.title, y0 + 20)];
    currentY := y0 + 45;
    draws, currentY, totalSpent := DrawSubcategories(cat.subcategories, currentY, total0, draws);
    currentY := currentY + 20;
  }

  /** `exportCategoriesToPDF`, up to the final `save`. */
  method ExportCategoriesToPdf(cats: seq<Category>) returns (draws: seq<Draw>, currentY: int, totalSpent: real)
    ensures PdfState(currentY, totalSpent, draws) == Document(cats)
  {
    draws := [Text("Monthly Budget Summary", 60)];
    currentY := 100;
    totalSpent := 0.0;
    var k := 0;
    while k < |cats|
      invariant 0 <= k <= |cats|
      invariant PdfState(currentY, totalSpent, draws) == CategorySteps(Start(), cats[..k])
    {
      draws, currentY, totalSpent := DrawCategory(cats[k], currentY, totalSpent, draws);
      assert cats[..k + 1][..k] == cats[..k];
      k := k + 1;
    }
    assert cats[..k] == cats;
    currentY := currentY + 10;
    draws := draws + [Rule(currentY)];
    currentY := currentY + 20;
    draws := draws + [Text("Total Spent: $" + ToFixed2(totalSpent), currentY)];
  }

  // ------------------------------------------------------------------
  // The total

  /** A line's amount is the amount the totals in App count for that subcategory. */
  lemma LineAmountIsAmount(sub: Subcategory)
    ensures LineAmount(sub.value) == Amount(sub)
  {
    ParseFloatEmpty();
    assert "0"[1..] == "";
    assert ParseFloat("0") == ScanInt("0", 0, false);
  }

  lemma SumSnoc(xs: seq<real>)
    requires xs != []
    ensures Sum(xs) == Sum(xs[..|xs| - 1]) + xs[|xs| - 1]
  {
    assert xs == xs[..|xs| - 1] + [xs[|xs| - 1]];
    SumConcat(xs[..|xs| - 1], [xs[|xs| - 1]]);
  }

  lemma {:induction false} SubcategoryStepsTotal(st: PdfState, subs: seq<Subcategory>)
    ensures SubcategorySteps(st, subs).total == st.total + Sum(Amounts(subs))
  {
    if subs != [] {
      var n := |subs| - 1;
      SubcategoryStepsTotal(st, subs[..n]);
      assert Amounts(subs)[..n] == Amounts(subs[..n]);
      SumSnoc(Amounts(subs));
      LineAmountIsAmount(subs[n]);
    }
  }

  lemma {:induction false} CategoryStepsTotal(st: PdfState, cats: seq<Category>)
    ensures CategorySteps(st, cats).total == st.total + Sum(CategoryTotals(cats))
  {
    if cats != [] {
      var n := |cats| - 1;
      CategoryStepsTotal(st, cats[..n]);
      assert CategoryTotals(cats)[..n] == CategoryTotals(cats[..n]);
      SumSnoc(CategoryTotals(cats));
      SubcategoryStepsTotal(HeaderStep(CategorySteps(st, cats[..n]), cats[n]), cats[n].subcategories);
    }
  }

  /**
   * The printed total is the total the app shows: every subcategory's
   * amount, with empty or unparseable values counting 0.
   */
  lemma DocumentTotal(cats: seq<Category>)
    ensures Document(cats).total == TotalSpent(cats)
    ensures Document(cats).draws[|Document(cats).draws| - 1]
            == Text("Total Spent: $" + ToFixed2(TotalSpent(cats)), Document(cats).y)
  {
    CategoryStepsTotal(Start(), cats);
    TotalSpentIsSumOfAmounts(cats);
  }

  // ------------------------------------------------------------------
  // The cursor and the page breaks

  /** Number of `addPage` calls among the drawing calls. */
  function PageCount(draws: seq<Draw>): nat {
    if draws == [] then 0 else PageCount(draws[..|draws| - 1]) + (if draws[|draws| - 1].NewPage? then 1 else 0)
  }

  lemma {:induction false} PageCountConcat(a: seq<Draw>, b: seq<Draw>)
    ensures PageCount(a + b) == PageCount(a) + PageCount(b)
  {
    if b != [] {
      var n := |b| - 1;
      assert (a + b)[..|a + b| - 1] == a + b[..n];
      PageCountConcat(a, b[..n]);
    } else {
      assert a + b == a;
    }
  }

  lemma {:induction false} PageCountNoBreak(draws: seq<Draw>)
    requires forall i :: 0 <= i < |draws| ==> !draws[i].NewPage?
    ensures PageCount(draws) == 0
  {
    if draws != [] {
      PageCountNoBreak(draws[..|draws| - 1]);
    }
  }

  /** A header never breaks the page. */
  lemma HeaderStepPages(st: PdfState, cat: Category)
    ensures PageCount(HeaderStep(st, cat).draws) == PageCount(st.draws)
    ensures HeaderStep(st, cat).y == st.y + 45
  {
    PageCountNoBreak([Box(st.y), Text(cat.title, st.y + 20)]);
    PageCountConcat(st.draws, [Box(st.y), Text(cat.title, st.y + 20)]);
  }

  /**
   * A line breaks the page exactly when it would leave the cursor past the
   * bottom; afterwards the cursor is on the page, between the top and the
   * bottom.
   */
  lemma SubcategoryStepPages(st: PdfState, sub: Subcategory)
    requires st.y >= PageTop - 25
    ensures var next := SubcategoryStep(st, sub);
      && PageCount(next.draws) == PageCount(st.draws) + (if st.y + 25 > PageBottom then 1 else 0)
      && PageTop <= next.y <= PageBottom
      && (st.y + 25 <= PageBottom ==> next.y == st.y + 25)
  {
    var amount := LineAmount(sub.value);
    var line := [Text(sub.labelText, st.y), Text("$" + ToFixed2(amount), st.y)];
    PageCountNoBreak(line);
    PageCountConcat(st.draws, line);
    assert (st.draws + line + [NewPage])[..|st.draws + line|] == st.draws + line;
  }

  /** After any subcategory line the cursor is between the top and the bottom of the page. */
  lemma {:induction false} SubcategoryStepsCursor(st: PdfState, subs: seq<Subcategory>)
    requires st.y >= PageTop - 25
    ensures SubcategorySteps(st, subs).y >= PageTop - 25
    ensures subs != [] ==> PageTop <= SubcategorySteps(st, subs).y <= PageBottom
    ensures PageCount(st.draws) <= PageCount(SubcategorySteps(st, subs).draws) <= PageCount(st.draws) + |subs|
    ensures PageCount(SubcategorySteps(st, subs).draws) == PageCount(st.draws) ==>
              SubcategorySteps(st, subs).y == st.y + 25 * |subs|
  {
    if subs != [] {
      var n := |subs| - 1;
      SubcategoryStepsCursor(st, subs[..n]);
      SubcategoryStepPages(SubcategorySteps(st, subs[..n]), subs[n]);
    }
  }

  /**
   * Across whole categories the cursor never moves above the page top, at most
   * one page is added per subcategory line and none for headers or gaps, and
   * without a page break the cursor has moved by exactly 65 points per
   * category and 25 per subcategory.
   */
  lemma {:induction false} CategoryStepsCursor(st: PdfState, cats: seq<Category>)
    requires st.y >= PageTop
    ensures CategorySteps(st, cats).y >= PageTop
    ensures PageCount(st.draws) <= PageCount(CategorySteps(st, cats).draws)
                                <= PageCount(st.draws) + SubcategoryCount(cats)
    ensures PageCount(CategorySteps(st, cats).draws) == PageCount(st.draws) ==>
              CategorySteps(st, cats).y == st.y + 65 * |cats| + 25 * SubcategoryCount(cats)
  {
    if cats != [] {
      var n := |cats| - 1;
      var mid := CategorySteps(st, cats[..n]);
      CategoryStepsCursor(st, cats[..n]);
      HeaderStepPages(mid, cats[n]);
      SubcategoryStepsCursor(HeaderStep(mid, cats[n]), cats[n].subcategories);
      SubcategoryCountStep(cats, n);
      assert cats[..n + 1] == cats;
    }
  }

  /** Categories without subcategories never break the page, so each pushes the cursor 65 points further down. */
  lemma {:induction false} EmptyCategoriesNeverBreak(st: PdfState, cats: seq<Category>)
    requires st.y >= PageTop
    requires forall k :: 0 <= k < |cats| ==> cats[k].subcategories == []
    ensures PageCount(CategorySteps(st, cats).draws) == PageCount(st.draws)
    ensures CategorySteps(st, cats).y == st.y + 65 * |cats|
  {
    NoSubcategories(cats);
    CategoryStepsCursor(st, cats);
  }

  lemma {:induction false} NoSubcategories(cats: seq<Category>)
    requires forall k :: 0 <= k < |cats| ==> cats[k].subcategories == []
    ensures SubcategoryCount(cats) == 0
  {
    if cats != [] {
      NoSubcategories(cats[1..]);
    }
  }

  /**
   * The total line adds no page: after the calls so far come the rule 10
   * points below the cursor and the total text 30 points below it, where the
   * cursor ends.
   */
  lemma FinishPages(st: PdfState)
    ensures PageCount(Finish(st).draws) == PageCount(st.draws)
    ensures Finish(st).y == st.y + 30
    ensures var d := Finish(st).draws;
      && |d| == |st.draws| + 2 && d[..|st.draws|] == st.draws
      && d[|st.draws|] == Rule(st.y + 10)
      && d[|st.draws| + 1] == Text("Total Spent: $" + ToFixed2(st.total), st.y + 30)
  {
    var tail := [Rule(st.y + 10), Text("Total Spent: $" + ToFixed2(st.total), st.y + 30)];
    PageCountNoBreak(tail);
    PageCountConcat(st.draws, tail);
  }

  /**
   * The whole document adds at most one page per subcategory, and when it
   * adds none the total text stands at 130 points plus 65 per category and
   * 25 per subcategory.
   */
  lemma DocumentLayout(cats: seq<Category>)
    ensures PageCount(Document(cats).draws) <= SubcategoryCount(cats)
    ensures PageCount(Document(cats).draws) == 0 ==>
              Document(cats).y == 130 + 65 * |cats| + 25 * SubcategoryCount(cats)
  {
    var start := Start();
    PageCountNoBreak(start.draws);
    CategoryStepsCursor(start, cats);
    FinishPages(CategorySteps(start, cats));
  }
}
