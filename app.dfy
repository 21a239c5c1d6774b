/**
 * The derived values of the App component (src/App.tsx): the currency input
 * sanitiser, the per-category and overall totals, the flat rows of the inline
 * spreadsheet export, and the guard of the "add category" dialog.
 *
 * The ledger state and its `addCategory` command belong to a hook that is not
 * part of this model; the dialog records the names it hands to `addCategory`
 * and says nothing about what that command does with them.
 */
module App {
  import opened JsBuiltins
  import opened Ledger

  // ------------------------------------------------------------------
  // formatCurrency

  predicate IsCurrencyChar(c: char) {
    IsDigit(c) || c == '.'
  }

  /** `value.replace(/[^0-9.]/g, "")`: the input with every other character removed, in order. */
  function Clean(value: string): (r: string)
    ensures |r| <= |value|
    ensures forall i :: 0 <= i < |r| ==> IsCurrencyChar(r[i])
    ensures (forall i :: 0 <= i < |value| ==> IsCurrencyChar(value[i])) ==> r == value
  {
    if value == [] then []
    else if IsCurrencyChar(value[0]) then [value[0]] + Clean(value[1..])
    else Clean(value[1..])
  }

  /** Cleaning a concatenation cleans each part and keeps them in order. */
  lemma {:induction false} CleanConcat(a: string, b: string)
    ensures Clean(a + b) == Clean(a) + Clean(b)
  {
    if a == [] {
      assert a + b == b;
    } else {
      assert (a + b)[1..] == a[1..] + b;
      CleanConcat(a[1..], b);
    }
  }

  /** Each character is kept as often as it occurs when it is a digit or ".", and dropped otherwise. */
  lemma {:induction false} CleanCounts(value: string, c: char)
    ensures multiset(Clean(value))[c] == if IsCurrencyChar(c) then multiset(value)[c] else 0
  {
    if value != [] {
      CleanCounts(value[1..], c);
      assert value == [value[0]] + value[1..];
    }
  }

  /** `formatCurrency(value)`. */
  function FormatCurrency(value: string): (r: string)
    ensures value == "" <==> r == ""
    ensures value != "" && ParseFloat(Clean(value)).None? ==> r == value
  {
    if value == "" then ""
    else
      match ParseFloat(Clean(value))
      case None => value
      case Some(num) => ToFixed2(num)
  }

  /** The cleaned text carries no white space or sign, so the number read from it is never negative. */
  lemma CleanParsesNonNegative(value: string)
    requires ParseFloat(Clean(value)).Some?
    ensures ParseFloat(Clean(value)).value >= 0.0
  {
    var c := Clean(value);
    assert c == [] || IsCurrencyChar(c[0]);
    ParseUnsignedNonNegative(c);
  }

  /**
   * When the cleaned text parses, the result is the number rounded to cents,
   * written as digits, ".", and exactly two digits.
   */
  lemma FormatCurrencyParsed(value: string)
    requires value != "" && ParseFloat(Clean(value)).Some?
    ensures var r := FormatCurrency(value);
      && |r| >= 4 && AllDigits(r[..|r| - 3]) && r[|r| - 3] == '.'
      && IsDigit(r[|r| - 2]) && IsDigit(r[|r| - 1])
      && ParseFloat(r) == Some(Round2(ParseFloat(Clean(value)).value))
  {
    var num := ParseFloat(Clean(value)).value;
    assert FormatCurrency(value) == ToFixed2(num);
    CleanParsesNonNegative(value);
    ParseToFixed2(num);
  }

  /** Two-decimal text of a non-negative number holds only digits and the point, so cleaning keeps it. */
  lemma CleanKeepsFixed(x: real)
    requires x >= 0.0
    ensures Clean(ToFixed2(x)) == ToFixed2(x)
  {
    var r := ToFixed2(x);
    forall i | 0 <= i < |r| ensures IsCurrencyChar(r[i]) {
      if i < |r| - 3 {
        assert r[..|r| - 3][i] == r[i];
      }
    }
  }

  /** Formatting an already formatted value changes nothing. */
  lemma FormatCurrencyIdempotent(value: string)
    ensures FormatCurrency(FormatCurrency(value)) == FormatCurrency(value)
  {
    if value != "" && ParseFloat(Clean(value)).Some? {
      var num := ParseFloat(Clean(value)).value;
      var r := ToFixed2(num);
      assert FormatCurrency(value) == r;
      CleanParsesNonNegative(value);
      CleanKeepsFixed(num);
      ParseToFixed2(num);
      assert ParseFloat(Clean(r)) == Some(Round2(num));
      assert FormatCurrency(r) == ToFixed2(Round2(num));
      Round2Idempotent(num);
    }
  }

  /** A minus sign is stripped with everything else, so "-5" formats like "5". */
  lemma FormatCurrencyDropsSign(value: string)
    requires ParseFloat(Clean(value)).Some?
    ensures FormatCurrency("-" + value) == FormatCurrency(value)
  {
    CleanConcat("-", value);
    assert Clean("-") == [];
    assert [] + Clean(value) == Clean(value);
    ParseFloatEmpty();
  }

  /** Text without digits comes back unchanged. */
  lemma FormatCurrencyKeepsText()
    ensures FormatCurrency("abc") == "abc"
  {
    assert "abc"[1..] == "bc" && "bc"[1..] == "c" && "c"[1..] == "";
    assert Clean("abc") == "";
    ParseFloatEmpty();
  }

  /** 7.5 is written "7.50". */
  lemma FixedSevenAndAHalf()
    ensures ToFixed2(7.5) == "7.50"
  {
    assert Cents(7.5) == 750;
    assert NatToDigits(7) == "7";
    assert CentsText(750) == "7.50";
  }

  /** Other characters are dropped and the number is written with two decimals. */
  lemma FormatCurrencyRounds()
    ensures FormatCurrency("$7.5") == "7.50"
  {
    assert "$7.5"[1..] == "7.5";
    assert Clean("$7.5") == Clean("7.5");
    assert forall i :: 0 <= i < |"7.5"| ==> IsCurrencyChar("7.5"[i]);
    assert Clean("7.5") == "7.5";
    assert "7.5"[1..] == ".5";
    assert ParseFloat("7.5") == ScanInt(".5", 7, true);
    ScanFracStep("5", 7.0, 0.1, true);
    assert "5"[1..] == "";
    assert ParseFloat("7.5") == Some(7.5);
    FixedSevenAndAHalf();
  }

  // ------------------------------------------------------------------
  // categoryTotals and totalSpent

  /** `parseFloat(sub.value) || 0`: the number the text starts with, and 0 for empty or unparseable text. */
  function Amount(sub: Subcategory): (a: real)
    ensures a == 0.0 || ParseFloat(sub.value) == Some(a)
    ensures ParseFloat(sub.value).None? ==> a == 0.0
    ensures sub.value == "" ==> a == 0.0
  {
    ParseFloatOrZero(sub.value)
  }

  function Amounts(subs: seq<Subcategory>): (xs: seq<real>)
    ensures |xs| == |subs| && forall j :: 0 <= j < |subs| ==> xs[j] == Amount(subs[j])
  {
    seq(|subs|, j requires 0 <= j < |subs| => Amount(subs[j]))
  }

  /** `xs.reduce((a, b) => a + b, acc)`: a left fold. */
  function Reduce(xs: seq<real>, acc: real): real {
    if xs == [] then acc else Reduce(xs[1..], acc + xs[0])
  }

  /** The sum of a sequence of numbers, as a reference for the folds. */
  function Sum(xs: seq<real>): real {
    if xs == [] then 0.0 else xs[0] + Sum(xs[1..])
  }

  lemma {:induction false} ReduceIsSum(xs: seq<real>, acc: real)
    ensures Reduce(xs, acc) == acc + Sum(xs)
  {
    if xs != [] {
      ReduceIsSum(xs[1..], acc + xs[0]);
    }
  }

  lemma {:induction false} SumConcat(a: seq<real>, b: seq<real>)
    ensures Sum(a + b) == Sum(a) + Sum(b)
  {
    if a == [] {
      assert a + b == b;
    } else {
      assert (a + b)[1..] == a[1..] + b;
      SumConcat(a[1..], b);
    }
  }

  /** One category's total, as the reduce over its subcategories computes it. */
  function CategoryTotal(cat: Category): (t: real)
    ensures t == Sum(Amounts(cat.subcategories))
  {
    ReduceIsSum(Amounts(cat.subcategories), 0.0);
    Reduce(Amounts(cat.subcategories), 0.0)
  }

  /** `categoryTotals`: one total per category, in category order. */
  function CategoryTotals(cats: seq<Category>): (ts: seq<real>)
    ensures |ts| == |cats| && forall k :: 0 <= k < |cats| ==> ts[k] == CategoryTotal(cats[k])
  {
    seq(|cats|, k requires 0 <= k < |cats| => CategoryTotal(cats[k]))
  }

  /** `totalSpent`: the reduce over the category totals, which is their sum. */
  function TotalSpent(cats: seq<Category>): (t: real)
    ensures t == Sum(CategoryTotals(cats))
  {
    ReduceIsSum(CategoryTotals(cats), 0.0);
    Reduce(CategoryTotals(cats), 0.0)
  }

  /** Every coerced amount of the ledger, category by category, in ledger order. */
  function LedgerAmounts(cats: seq<Category>): (xs: seq<real>)
    ensures |xs| == SubcategoryCount(cats)
  {
    if cats == [] then [] else Amounts(cats[0].subcategories) + LedgerAmounts(cats[1..])
  }

  /** Total spent is the sum of every subcategory's coerced amount over the whole ledger. */
  lemma {:induction false} TotalSpentIsSumOfAmounts(cats: seq<Category>)
    ensures TotalSpent(cats) == Sum(CategoryTotals(cats))
    ensures TotalSpent(cats) == Sum(LedgerAmounts(cats))
  {
    ReduceIsSum(CategoryTotals(cats), 0.0);
    SumOfTotals(cats);
  }

  lemma {:induction false} SumOfTotals(cats: seq<Category>)
    ensures Sum(CategoryTotals(cats)) == Sum(LedgerAmounts(cats))
  {
    if cats != [] {
      assert CategoryTotals(cats)[1..] == CategoryTotals(cats[1..]);
      SumOfTotals(cats[1..]);
      SumConcat(Amounts(cats[0].subcategories), LedgerAmounts(cats[1..]));
    }
  }

  lemma {:induction false} TotalSpentConcat(a: seq<Category>, b: seq<Category>)
    ensures TotalSpent(a + b) == TotalSpent(a) + TotalSpent(b)
  {
    var ta, tb, tab := CategoryTotals(a), CategoryTotals(b), CategoryTotals(a + b);
    ReduceIsSum(tab, 0.0);
    ReduceIsSum(ta, 0.0);
    ReduceIsSum(tb, 0.0);
    forall k | 0 <= k < |tab| ensures tab[k] == (ta + tb)[k] {
      if k < |a| {
        assert (a + b)[k] == a[k];
      } else {
        assert (a + b)[k] == b[k - |a|];
      }
    }
    assert tab == ta + tb;
    SumConcat(ta, tb);
  }

  /**
   * The total does not depend on the order of the categories, and a category
   * contributes exactly its own total.
   */
  lemma TotalSpentOfSplit(a: seq<Category>, c: Category, b: seq<Category>)
    ensures TotalSpent(a + [c] + b) == TotalSpent(a + b) + CategoryTotal(c)
    ensures TotalSpent(a + b) == TotalSpent(b + a)
  {
    TotalSpentConcat(a + [c], b);
    TotalSpentConcat(a, [c]);
    TotalSpentConcat(a, b);
    TotalSpentConcat(b, a);
    assert CategoryTotals([c]) == [CategoryTotal(c)];
    ReduceIsSum(CategoryTotals([c]), 0.0);
    assert Sum([CategoryTotal(c)]) == CategoryTotal(c) + Sum([]);
  }

  /** Reordering the categories in any way leaves the total unchanged. */
  lemma {:induction false} TotalSpentPermutation(a: seq<Category>, b: seq<Category>)
    requires multiset(a) == multiset(b)
    ensures TotalSpent(a) == TotalSpent(b)
    decreases |a|
  {
    if a == [] {
      assert |multiset(b)| == 0;
      assert b == a;
    } else {
      var i := IndexOf(b, a[0]);
      var rest := b[..i] + b[i + 1..];
      RemoveFirstCategory(a);
      RemoveCategory(b, i);
      TotalSpentPermutation(a[1..], rest);
    }
  }

  lemma IndexOf(b: seq<Category>, c: Category) returns (i: nat)
    requires c in multiset(b)
    ensures i < |b| && b[i] == c
  {
    assert c in b;
    i :| i < |b| && b[i] == c;
  }

  lemma RemoveFirstCategory(a: seq<Category>)
    requires a != []
    ensures multiset(a[1..]) == multiset(a) - multiset{a[0]}
    ensures TotalSpent(a) == TotalSpent(a[1..]) + CategoryTotal(a[0])
  {
    RemoveCategory(a, 0);
    assert a[..0] + a[1..] == a[1..];
  }

  /** Taking category `i` out removes one copy of it and exactly its total. */
  lemma RemoveCategory(b: seq<Category>, i: nat)
    requires i < |b|
    ensures multiset(b[..i] + b[i + 1..]) == multiset(b) - multiset{b[i]}
    ensures TotalSpent(b) == TotalSpent(b[..i] + b[i + 1..]) + CategoryTotal(b[i])
  {
    assert b == b[..i] + [b[i]] + b[i + 1..];
    TotalSpentOfSplit(b[..i], b[i], b[i + 1..]);
  }

  /** A subcategory contributes exactly its coerced amount to its category's total. */
  lemma CategoryTotalOfSplit(t: string, d: string, a: seq<Subcategory>, s: Subcategory, b: seq<Subcategory>)
    ensures CategoryTotal(Category(t, d, a + [s] + b)) == CategoryTotal(Category(t, d, a + b)) + Amount(s)
  {
    assert Amounts(a + [s] + b) == Amounts(a) + [Amount(s)] + Amounts(b);
    assert Amounts(a + b) == Amounts(a) + Amounts(b);
    SumConcat(Amounts(a) + [Amount(s)], Amounts(b));
    SumConcat(Amounts(a), [Amount(s)]);
    SumConcat(Amounts(a), Amounts(b));
    assert Sum([Amount(s)]) == Amount(s) + Sum([]);
  }

  /** The seed ledger's amounts are all empty, so nothing is spent. */
  lemma {:induction false} NothingSpentWhenValuesEmpty(cats: seq<Category>)
    requires AllValuesEmpty(cats)
    ensures TotalSpent(cats) == 0.0
  {
    TotalSpentIsSumOfAmounts(cats);
    LedgerAmountsZero(cats);
  }

  lemma {:induction false} LedgerAmountsZero(cats: seq<Category>)
    requires AllValuesEmpty(cats)
    ensures Sum(LedgerAmounts(cats)) == 0.0
  {
    if cats != [] {
      var xs := Amounts(cats[0].subcategories);
      forall j | 0 <= j < |xs| ensures xs[j] == 0.0 {
        ParseFloatEmpty();
      }
      SumOfZeros(xs);
      LedgerAmountsZero(cats[1..]);
      SumConcat(xs, LedgerAmounts(cats[1..]));
    }
  }

  lemma {:induction false} SumOfZeros(xs: seq<real>)
    requires forall j :: 0 <= j < |xs| ==> xs[j] == 0.0
    ensures Sum(xs) == 0.0
  {
    if xs != [] {
      SumOfZeros(xs[1..]);
    }
  }

  lemma DefaultLedgerSpendsNothing()
    ensures TotalSpent(DefaultCategories) == 0.0
  {
    DefaultCategoriesValues();
    NothingSpentWhenValuesEmpty(DefaultCategories);
  }

  // ------------------------------------------------------------------
  // handleExportToExcel: one row per (category, subcategory)

  /** A row of the inline export; `amount` is the raw text, not a number. */
  datatype ExportRow = ExportRow(category: string, subcategory: string, amount: string)

  function SubcategoryRows(cat: Category): (rows: seq<ExportRow>)
    ensures |rows| == |cat.subcategories|
    ensures forall j :: 0 <= j < |rows| ==>
      rows[j] == ExportRow(cat.title, cat.subcategories[j].labelText, cat.subcategories[j].value)
  {
    seq(|cat.subcategories|, j requires 0 <= j < |cat.subcategories| =>
      ExportRow(cat.title, cat.subcategories[j].labelText, cat.subcategories[j].value))
  }

  /** `categories.flatMap(cat => cat.subcategories.map(...))`. */
  function ExportRows(cats: seq<Category>): (rows: seq<ExportRow>)
    ensures |rows| == SubcategoryCount(cats)
  {
    if cats == [] then [] else SubcategoryRows(cats[0]) + ExportRows(cats[1..])
  }

  /**
   * Subcategory `j` of category `k` is exported right after the subcategories of
   * the categories before `k`, with its category's title and its raw value text.
   */
  lemma {:induction false} ExportRowAt(cats: seq<Category>, k: nat, j: nat)
    requires k < |cats| && j < |cats[k].subcategories|
    ensures SubcategoryCount(cats[..k]) + j < |ExportRows(cats)|
    ensures ExportRows(cats)[SubcategoryCount(cats[..k]) + j]
            == ExportRow(cats[k].title, cats[k].subcategories[j].labelText, cats[k].subcategories[j].value)
  {
    SubcategoryCountConcat(cats[..k], cats[k..]);
    assert cats[..k] + cats[k..] == cats;
    assert cats[k..][0] == cats[k];
    if k > 0 {
      ExportRowAt(cats[1..], k - 1, j);
      assert cats[1..][..k - 1] == cats[..k][1..];
    }
  }

  /** The export's amounts, coerced as the totals coerce them, are exactly the ledger's amounts. */
  lemma {:induction false} ExportAmountsAreLedgerAmounts(cats: seq<Category>)
    ensures var rows := ExportRows(cats);
      forall i :: 0 <= i < |rows| ==> ParseFloatOrZero(rows[i].amount) == LedgerAmounts(cats)[i]
  {
    if cats != [] {
      ExportAmountsAreLedgerAmounts(cats[1..]);
    }
  }

  // ------------------------------------------------------------------
  // handleAddCategory

  /** The guard `newCategoryName.trim()`: a name is taken when it has a character that is not white space. */
  function AcceptsCategoryName(name: string): (ok: bool)
    ensures ok <==> exists i :: 0 <= i < |name| && !IsJsWhitespace(name[i])
  {
    TrimEmptyIffBlank(name);
    Trim(name) != ""
  }

  /** The App component's own state around the "New Category" dialog. */
  class AddCategoryDialog {
    var showAddCategoryModal: bool
    var newCategoryName: string
    /** The names handed to the ledger's `addCategory`, oldest first. */
    var addCategoryCalls: seq<string>

    constructor ()
      ensures !showAddCategoryModal && newCategoryName == "" && addCategoryCalls == []
    {
      showAddCategoryModal := false;
      newCategoryName := "";
      addCategoryCalls := [];
    }

    /**
     * `handleAddCategory`: a blank name changes nothing; any other name is
     * passed on untrimmed, the dialog closes and the field is cleared.
     */
    method HandleAddCategory()
      modifies this
      ensures !AcceptsCategoryName(old(newCategoryName)) ==>
        && showAddCategoryModal == old(showAddCategoryModal)
        && newCategoryName == old(newCategoryName)
        && addCategoryCalls == old(addCategoryCalls)
      ensures AcceptsCategoryName(old(newCategoryName)) ==>
        && addCategoryCalls == old(addCategoryCalls) + [old(newCategoryName)]
        && !showAddCategoryModal
        && newCategoryName == ""
    {
      if !AcceptsCategoryName(newCategoryName) {
        return;
      }
      addCategoryCalls := addCategoryCalls + [newCategoryName];
      showAddCategoryModal := false;
      newCategoryName := "";
    }
  }
}
