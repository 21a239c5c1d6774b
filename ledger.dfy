/**
 * The budget ledger: categories holding subcategories whose amounts are kept
 * as the text the user typed, and the five categories the app starts with
 * (src/data/defaultCategories.ts).
 */
module Ledger {

  /** `labelText` is the source's `label` field (`label` is a Dafny keyword). */
  datatype Subcategory = Subcategory(labelText: string, value: string)

  datatype Category = Category(title: string, description: string, subcategories: seq<Subcategory>)

  /** The seed ledger. */
  const DefaultCategories: seq<Category> := [
    Category("Housing", "Expenses related to housing and rent.",
      [Subcategory("Rent", ""), Subcategory("Wifi", ""),
       Subcategory("Electricity", ""), Subcategory("Utilities", "")]),
    Category("Food", "Expenses for groceries and dining out.",
      [Subcategory("Restaurants", ""), Subcategory("Groceries", "")]),
    Category("Loans", "Loan repayments and debts.", []),
    Category("Subscriptions", "Recurring subscription services.", []),
    Category("Transportation", "Transportation and commuting costs.",
      [Subcategory("Gas", "")])
  ]

  /** Number of subcategories over all categories. */
  function SubcategoryCount(cats: seq<Category>): nat {
    if cats == [] then 0 else |cats[0].subcategories| + SubcategoryCount(cats[1..])
  }

  lemma {:induction false} SubcategoryCountConcat(a: seq<Category>, b: seq<Category>)
    ensures SubcategoryCount(a + b) == SubcategoryCount(a) + SubcategoryCount(b)
  {
    if a != [] {
      assert (a + b)[1..] == a[1..] + b;
      SubcategoryCountConcat(a[1..], b);
    } else {
      assert a + b == b;
    }
  }

  /** Counting the first `k + 1` categories adds the `k`-th category's subcategories. */
  lemma SubcategoryCountStep(cats: seq<Category>, k: nat)
    requires k < |cats|
    ensures SubcategoryCount(cats[..k + 1]) == SubcategoryCount(cats[..k]) + |cats[k].subcategories|
  {
    assert cats[..k + 1] == cats[..k] + [cats[k]];
    SubcategoryCountConcat(cats[..k], [cats[k]]);
  }

  predicate AllValuesEmpty(cats: seq<Category>) {
    forall k, j :: 0 <= k < |cats| && 0 <= j < |cats[k].subcategories| ==>
      cats[k].subcategories[j].value == ""
  }

  predicate TitlesDistinct(cats: seq<Category>) {
    forall k, l :: 0 <= k < l < |cats| ==> cats[k].title != cats[l].title
  }

  function Titles(cats: seq<Category>): (ts: seq<string>)
    ensures |ts| == |cats| && forall k :: 0 <= k < |cats| ==> ts[k] == cats[k].title
  {
    seq(|cats|, k requires 0 <= k < |cats| => cats[k].title)
  }

  /** The seed: five categories in this order, with 4, 2, 0, 0 and 1 subcategories, 7 in all. */
  lemma DefaultCategoriesShape()
    ensures Titles(DefaultCategories) == ["Housing", "Food", "Loans", "Subscriptions", "Transportation"]
    ensures |DefaultCategories[0].subcategories| == 4 && |DefaultCategories[1].subcategories| == 2
    ensures |DefaultCategories[2].subcategories| == 0 && |DefaultCategories[3].subcategories| == 0
    ensures |DefaultCategories[4].subcategories| == 1
    ensures SubcategoryCount(DefaultCategories) == 7
  {
    var d := DefaultCategories;
    assert d[1..][1..][1..][1..][1..] == [];
  }

  /** Every seed amount is empty text, and no two seed categories share a title. */
  lemma DefaultCategoriesValues()
    ensures AllValuesEmpty(DefaultCategories)
    ensures TitlesDistinct(DefaultCategories)
  {
  }
}
