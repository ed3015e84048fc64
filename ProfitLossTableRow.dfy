/** The expandable row of the profit-and-loss table
    (src/components/ProfitLossTableRow.tsx): the margin chip of a report, and the
    breakdown of its line items into category groups with totals and colours. */
module ProfitLossTableRow {
  import opened Types
  import opened Folds
  import DashboardMetrics

  // ---------------------------------------------------------------------------
  // Grouping line items by category

  /** The categories of `items` in first-seen order: the key order that
      `Object.entries` reports for the accumulator of the grouping reduce. */
  function Categories(items: seq<LineItem>): seq<string>
  {
    if items == [] then []
    else
      var seen := Categories(items[..|items| - 1]);
      var c := Category(items[|items| - 1]);
      if c in seen then seen else seen + [c]
  }

  function InCategory(c: string): LineItem -> bool
  {
    item => Category(item) == c
  }

  /** The members of group `c`, in input order. */
  function ItemsIn(items: seq<LineItem>, c: string): seq<LineItem>
  {
    Filter(items, InCategory(c))
  }

  lemma ItemsInSnoc(items: seq<LineItem>, x: LineItem, c: string)
    ensures ItemsIn(items + [x], c) == ItemsIn(items, c) + (if Category(x) == c then [x] else [])
  {
    FilterAppend(items, [x], InCategory(c));
    assert [x][1..] == [];
  }

  /** The `groupedLineItems` reduce: one pass that creates the group of a
      category the first time it is seen and pushes every item onto its group.
      `order` is the insertion order of the accumulator's keys. */
  method GroupLineItems(items: seq<LineItem>) returns (order: seq<string>, groups: map<string, seq<LineItem>>)
    ensures order == Categories(items)
    ensures forall c :: c in groups <==> c in order
    ensures forall c :: c in groups ==> groups[c] == ItemsIn(items, c)
  {
    order, groups := [], map[];
    for i := 0 to |items|
      invariant order == Categories(items[..i])
      invariant forall c :: c in groups <==> c in order
      invariant forall c :: c in groups ==> groups[c] == ItemsIn(items[..i], c)
    {
      var item := items[i];
      var category := item.account.category;
      assert items[..i + 1] == items[..i] + [item];
      assert items[..i + 1][..i] == items[..i];
      forall c | c in groups {
        ItemsInSnoc(items[..i], item, c);
      }
      if category !in groups {
        ItemsInSnoc(items[..i], item, category);
        CategoriesComplete(items[..i], category);
        groups := groups[category := []];
        order := order + [category];
      }
      groups := groups[category := groups[category] + [item]];
    }
    assert items[..|items|] == items;
  }

  /** A category is listed exactly when some item carries it. */
  lemma {:induction false} CategoriesComplete(items: seq<LineItem>, c: string)
    ensures c in Categories(items) <==> exists k :: 0 <= k < |items| && Category(items[k]) == c
    ensures c !in Categories(items) ==> ItemsIn(items, c) == []
  {
    if items != [] {
      var init := items[..|items| - 1];
      var x := items[|items| - 1];
      assert items == init + [x];
      CategoriesComplete(init, c);
      ItemsInSnoc(init, x, c);
      if exists k :: 0 <= k < |init| && Category(init[k]) == c {
        var k :| 0 <= k < |init| && Category(init[k]) == c;
        assert items[k] == init[k];
      }
      if exists k :: 0 <= k < |items| && Category(items[k]) == c {
        var k :| 0 <= k < |items| && Category(items[k]) == c;
        if k < |init| {
          assert init[k] == items[k];
        }
      }
    }
  }

  predicate NoDuplicates(s: seq<string>)
  {
    forall i, j :: 0 <= i < j < |s| ==> s[i] != s[j]
  }

  /** Each category is listed once. */
  lemma {:induction false} CategoriesDistinct(items: seq<LineItem>)
    ensures NoDuplicates(Categories(items))
  {
    if items != [] {
      var init := items[..|items| - 1];
      CategoriesDistinct(init);
      var seen, c := Categories(init), Category(items[|items| - 1]);
      if c !in seen {
        var order := seen + [c];
        forall i, j | 0 <= i < j < |order| ensures order[i] != order[j] {
          if j == |seen| {
            assert order[i] == seen[i];
          } else {
            assert order[i] == seen[i] && order[j] == seen[j];
          }
        }
      }
    }
  }

  /** First-seen order: the categories of any prefix of the items are a prefix
      of the categories of all of them, so a category seen earlier is listed
      earlier. */
  lemma {:induction false} CategoriesOfPrefix(items: seq<LineItem>, n: nat)
    requires n <= |items|
    ensures Categories(items[..n]) <= Categories(items)
  {
    if n < |items| {
      var init := items[..|items| - 1];
      assert init[..n] == items[..n];
      CategoriesOfPrefix(init, n);
    } else {
      assert items[..n] == items;
    }
  }

  /** Every item lands in exactly one group, the one of its category, as
      often as it occurs among the items; no item is lost or duplicated. */
  lemma GroupsPartitionItems(items: seq<LineItem>, x: LineItem, c: string)
    ensures multiset(ItemsIn(items, c))[x] == if Category(x) == c then multiset(items)[x] else 0
    ensures x in items ==> Category(x) in Categories(items)
  {
    FilterMultiset(items, InCategory(c));
    if x in items {
      var k :| 0 <= k < |items| && items[k] == x;
      CategoriesComplete(items, Category(x));
    }
  }

  // ---------------------------------------------------------------------------
  // Totals

  /** `getCategoryTotal`: the sum of the values of a group's items. */
  function CategoryTotal(items: seq<LineItem>): real
  {
    SumOf(items, Value)
  }

  /** The sum of the totals of the groups listed in `order`. */
  function SumOfGroupTotals(order: seq<string>, items: seq<LineItem>): real
  {
    if order == [] then 0.0
    else SumOfGroupTotals(order[..|order| - 1], items) + CategoryTotal(ItemsIn(items, order[|order| - 1]))
  }

  lemma {:induction false} SumOfGroupTotalsSnoc(order: seq<string>, items: seq<LineItem>, x: LineItem)
    requires NoDuplicates(order)
    ensures SumOfGroupTotals(order, items + [x])
         == SumOfGroupTotals(order, items) + (if Category(x) in order then x.value else 0.0)
  {
    if order != [] {
      var init, c := order[..|order| - 1], order[|order| - 1];
      SumOfGroupTotalsSnoc(init, items, x);
      ItemsInSnoc(items, x, c);
      SumAppend(ItemsIn(items, c), if Category(x) == c then [x] else [], Value);
      assert order == init + [c];
      assert Category(x) in order <==> Category(x) in init || Category(x) == c;
    }
  }

  /** The group totals add up to the sum of all line-item values. */
  lemma {:induction false} GroupTotalsAddUp(items: seq<LineItem>)
    ensures SumOfGroupTotals(Categories(items), items) == SumOf(items, Value)
  {
    if items != [] {
      var init, x := items[..|items| - 1], items[|items| - 1];
      var seen := Categories(init);
      assert items == init + [x];
      GroupTotalsAddUp(init);
      CategoriesDistinct(init);
      SumOfGroupTotalsSnoc(seen, init, x);
      SumAppend(init, [x], Value);
      assert SumOf([x], Value) == x.value;
      if Category(x) !in seen {
        CategoriesComplete(init, Category(x));
        ItemsInSnoc(init, x, Category(x));
        assert ItemsIn(items, Category(x)) == [x];
        assert (seen + [Category(x)])[..|seen|] == seen;
      }
    }
  }

  // ---------------------------------------------------------------------------
  // Displayed rows of a group

  predicate IsNonZero(item: LineItem) { item.value != 0.0 }

  /** The items a group displays: those whose value is not zero, in order. */
  function DisplayedItems(items: seq<LineItem>): seq<LineItem>
  {
    Filter(items, IsNonZero)
  }

  /** The display filter keeps exactly the non-zero items, each as often as it
      occurs, and hiding zeros does not change the group total. */
  lemma DisplayedItemsSpec(items: seq<LineItem>)
    ensures forall x :: multiset(DisplayedItems(items))[x] == if x.value != 0.0 then multiset(items)[x] else 0
    ensures CategoryTotal(DisplayedItems(items)) == CategoryTotal(items)
  {
    FilterMultiset(items, IsNonZero);
    SumFilterVanishing(items, IsNonZero, Value);
  }

  /** The body of a group's table: its non-zero items, or the
      "No transactions recorded" row when there are none. */
  datatype GroupBody = ItemRows(rows: seq<LineItem>) | NoTransactionsRow(category: string)

  function Body(category: string, items: seq<LineItem>): GroupBody
  {
    var shown := DisplayedItems(items);
    if |shown| > 0 then ItemRows(shown) else NoTransactionsRow(category)
  }

  /** The placeholder row appears exactly when every item of the group is zero
      (in particular for an empty group). */
  lemma NoTransactionsIffAllZero(category: string, items: seq<LineItem>)
    ensures Body(category, items).NoTransactionsRow?
        <==> forall k :: 0 <= k < |items| ==> items[k].value == 0.0
  {
    FilterMultiset(items, IsNonZero);
    if exists k :: 0 <= k < |items| && items[k].value != 0.0 {
      var k :| 0 <= k < |items| && items[k].value != 0.0;
      assert multiset(DisplayedItems(items))[items[k]] > 0;
    }
  }

  datatype ChipColor = Success | Error | Warning | Info | Default

  /** Colour of the amount of a displayed item. */
  function AmountColor(item: LineItem): ChipColor
  {
    if item.value > 0.0 then Success else Error
  }

  /** Displayed amounts are green when positive and red when negative; zero
      amounts, which would also be red, are never displayed. */
  lemma DisplayedAmountColors(items: seq<LineItem>)
    ensures var shown := DisplayedItems(items);
      forall k :: 0 <= k < |shown| ==> (AmountColor(shown[k]) == Error <==> shown[k].value < 0.0)
  {
  }

  /** `getCategoryColor` */
  function CategoryColor(category: string): ChipColor
  {
    match category
    case "Operating Revenue" => Success
    case "Cost of Goods Sold" => Error
    case "Operating Expenses" => Warning
    case "Non Operating Expenses" => Info
    case _ => Default
  }

  /** Each of the four named categories has its own colour; every other name,
      "Other Income" or a differently capitalised name among them, is grey. */
  lemma CategoryColorCases(category: string)
    ensures CategoryColor(category) != Default
        <==> category in {"Operating Revenue", "Cost of Goods Sold", "Operating Expenses", "Non Operating Expenses"}
    ensures CategoryColor("Other Income") == Default
    ensures CategoryColor("operating revenue") == Default
    ensures forall a, b | a in ColoredCategories && b in ColoredCategories && a != b :: CategoryColor(a) != CategoryColor(b)
  {
  }

  const ColoredCategories: set<string> :=
    {"Operating Revenue", "Cost of Goods Sold", "Operating Expenses", "Non Operating Expenses"}

  // ---------------------------------------------------------------------------
  // The summary row of a report

  predicate IsPositive(r: Report) { r.netProfit > 0.0 }

  /** The margin chip's figure: net over gross in percent, or `None` for "N/A"
      when gross profit is not positive. */
  function MarginLabel(r: Report): Option<real>
  {
    if r.grossProfit > 0.0 then Some(r.netProfit / r.grossProfit * 100.0) else None
  }

  /** Colour of the net-profit arrow and of the margin chip. */
  function NetColor(r: Report): ChipColor
  {
    if IsPositive(r) then Success else Error
  }

  /** The row's margin agrees with the trend chart's margin where it is shown;
      where the row says "N/A" the chart plots 0. When a figure is shown, the
      chip is green exactly when the figure is positive. */
  lemma MarginLabelMatchesTrend(r: Report)
    ensures MarginLabel(r).Some? <==> r.grossProfit > 0.0
    ensures MarginLabel(r).Some? ==> MarginLabel(r).value == DashboardMetrics.Margin(r)
    ensures MarginLabel(r).None? ==> DashboardMetrics.Margin(r) == 0.0
    ensures MarginLabel(r).Some? ==> (NetColor(r) == Success <==> MarginLabel(r).value > 0.0)
  {
    if r.grossProfit > 0.0 {
      var q := r.netProfit / r.grossProfit;
      assert r.netProfit == q * r.grossProfit;
      assert r.netProfit > 0.0 <==> q > 0.0;
    }
  }
}
