/** The expense pie chart: expenses grouped by category, sorted from the largest group down,
    with each group's share of the total and its colour. */
module ExpenseChart {
  import opened Seqs
  import opened FinanceContext

  /** One slice: a category and the amount spent in it. */
  datatype CategoryTotal = CategoryTotal(category: string, amount: real)

  function GroupAmount(g: CategoryTotal): real { g.amount }

  // ---------------------------------------------------------------------------
  // Grouping

  /** `acc.find(item => item.category === c)`, as the index of the group found or -1. */
  function CategoryIndex(acc: seq<CategoryTotal>, c: string): (j: int)
    ensures -1 <= j < |acc|
    ensures j == -1 <==> forall g :: g in acc ==> g.category != c
    ensures 0 <= j ==> acc[j].category == c
  {
    FindIndex((g: CategoryTotal) => g.category == c, acc)
  }

  /** One step of the grouping `reduce`: add to the group of the expense's category, or open
      a new group at the end. */
  function AddExpense(acc: seq<CategoryTotal>, e: Transaction): seq<CategoryTotal>
  {
    var j := CategoryIndex(acc, e.category);
    if j >= 0 then acc[j := acc[j].(amount := acc[j].amount + e.amount)]
    else acc + [CategoryTotal(e.category, e.amount)]
  }

  /** `expensesByCategory` before sorting: the grouping `reduce` over the expenses, left to
      right, so groups appear in the order their category first occurs. */
  function GroupByCategory(es: seq<Transaction>): seq<CategoryTotal>
    decreases |es|
  {
    if es == [] then [] else AddExpense(GroupByCategory(es[..|es| - 1]), es[|es| - 1])
  }

  function HasCategory(c: string): Transaction -> bool
  {
    (t: Transaction) => t.category == c
  }

  /** The transactions of one category. */
  function InCategory(es: seq<Transaction>, c: string): seq<Transaction>
  {
    Filter(HasCategory(c), es)
  }

  /** The amount spent in one category. */
  function CategorySum(es: seq<Transaction>, c: string): real
  {
    Sum(Amount, InCategory(es, c))
  }

  predicate DistinctCategories(gs: seq<CategoryTotal>)
  {
    forall i, j :: 0 <= i < j < |gs| ==> gs[i].category != gs[j].category
  }

  function CategoriesOf(gs: seq<CategoryTotal>): set<string>
  {
    set g | g in gs :: g.category
  }

  function TransactionCategories(es: seq<Transaction>): set<string>
  {
    set e | e in es :: e.category
  }

  /** `gs` is the right grouping of `es`: one group per category that occurs, and each
      group's amount is the sum of the amounts in that category. */
  predicate GroupsOf(gs: seq<CategoryTotal>, es: seq<Transaction>)
  {
    && DistinctCategories(gs)
    && CategoriesOf(gs) == TransactionCategories(es)
    && forall i :: 0 <= i < |gs| ==> gs[i].amount == CategorySum(es, gs[i].category)
  }

  /** Appending one transaction adds its amount to its own category's sum only. */
  lemma CategorySumAppend(es: seq<Transaction>, e: Transaction, c: string)
    ensures CategorySum(es + [e], c) == CategorySum(es, c) + (if e.category == c then e.amount else 0.0)
  {
    var all := es + [e];
    assert all[..|all| - 1] == es;
    var inEs := InCategory(es, c);
    if e.category == c {
      assert InCategory(all, c) == inEs + [e];
      assert (inEs + [e])[..|inEs + [e]| - 1] == inEs;
    } else {
      assert InCategory(all, c) == inEs;
    }
  }

  /** The grouping is right: one group per category that occurs, and each group's amount
      is the sum of the amounts in that category. */
  lemma {:induction false} GroupByCategoryCorrect(es: seq<Transaction>)
    ensures GroupsOf(GroupByCategory(es), es)
    decreases |es|
  {
    if es != [] {
      var init, e := es[..|es| - 1], es[|es| - 1];
      GroupByCategoryCorrect(init);
      assert es == init + [e];
      if CategoryIndex(GroupByCategory(init), e.category) < 0 {
        NewCategoryStep(GroupByCategory(init), init, e);
      } else {
        KnownCategoryStep(GroupByCategory(init), init, e);
      }
    }
  }

  /** The first expense of a category opens a group for it. */
  lemma NewCategoryStep(gs: seq<CategoryTotal>, es: seq<Transaction>, e: Transaction)
    requires GroupsOf(gs, es)
    requires CategoryIndex(gs, e.category) < 0
    ensures GroupsOf(AddExpense(gs, e), es + [e])
  {
    assert AddExpense(gs, e) == gs + [CategoryTotal(e.category, e.amount)];
    NewGroupCategories(gs, es, e);
    NewGroupSums(gs, es, e);
  }

  lemma NewGroupCategories(gs: seq<CategoryTotal>, es: seq<Transaction>, e: Transaction)
    requires DistinctCategories(gs) && CategoriesOf(gs) == TransactionCategories(es)
    requires forall g :: g in gs ==> g.category != e.category
    ensures DistinctCategories(gs + [CategoryTotal(e.category, e.amount)])
    ensures CategoriesOf(gs + [CategoryTotal(e.category, e.amount)]) == TransactionCategories(es + [e])
  {
    var gs' := gs + [CategoryTotal(e.category, e.amount)];
    assert TransactionCategories(es + [e]) == TransactionCategories(es) + {e.category};
    assert CategoriesOf(gs') == CategoriesOf(gs) + {e.category};
    assert forall i :: 0 <= i < |gs| ==> gs[i] in gs && gs'[i] == gs[i];
  }

  lemma NewGroupSums(gs: seq<CategoryTotal>, es: seq<Transaction>, e: Transaction)
    requires CategoriesOf(gs) == TransactionCategories(es)
    requires forall g :: g in gs ==> g.category != e.category
    requires forall i :: 0 <= i < |gs| ==> gs[i].amount == CategorySum(es, gs[i].category)
    ensures var gs' := gs + [CategoryTotal(e.category, e.amount)];
            forall i :: 0 <= i < |gs'| ==> gs'[i].amount == CategorySum(es + [e], gs'[i].category)
  {
    var gs' := gs + [CategoryTotal(e.category, e.amount)];
    assert CategorySum(es, e.category) == 0.0 by {
      assert e.category !in TransactionCategories(es);
      FilterKeepsNone(HasCategory(e.category), es);
    }
    forall i | 0 <= i < |gs'|
      ensures gs'[i].amount == CategorySum(es + [e], gs'[i].category)
    {
      CategorySumAppend(es, e, gs'[i].category);
      if i < |gs| {
        assert gs[i] in gs;
      }
    }
  }

  /** A later expense of a category adds to that category's group. */
  lemma KnownCategoryStep(gs: seq<CategoryTotal>, es: seq<Transaction>, e: Transaction)
    requires GroupsOf(gs, es)
    requires CategoryIndex(gs, e.category) >= 0
    ensures GroupsOf(AddExpense(gs, e), es + [e])
  {
    var all := es + [e];
    var j := CategoryIndex(gs, e.category);
    assert TransactionCategories(all) == TransactionCategories(es) + {e.category};
    var gs' := gs[j := gs[j].(amount := gs[j].amount + e.amount)];
    assert AddExpense(gs, e) == gs';
    SameCategories(gs, gs');
    forall i | 0 <= i < |gs'|
      ensures gs'[i].amount == CategorySum(all, gs'[i].category)
    {
      CategorySumAppend(es, e, gs'[i].category);
      if i != j {
        assert gs[i].category != gs[j].category;
      }
    }
  }

  /** Changing amounts only keeps the categories and their distinctness. */
  lemma SameCategories(gs: seq<CategoryTotal>, gs': seq<CategoryTotal>)
    requires |gs| == |gs'|
    requires forall i :: 0 <= i < |gs| ==> gs'[i].category == gs[i].category
    ensures CategoriesOf(gs') == CategoriesOf(gs)
    ensures DistinctCategories(gs') == DistinctCategories(gs)
  {
    forall c | c in CategoriesOf(gs)
      ensures c in CategoriesOf(gs')
    {
      var g :| g in gs && g.category == c;
      var i :| 0 <= i < |gs| && gs[i] == g;
      assert gs'[i] in gs';
    }
    forall c | c in CategoriesOf(gs')
      ensures c in CategoriesOf(gs)
    {
      var g :| g in gs' && g.category == c;
      var i :| 0 <= i < |gs'| && gs'[i] == g;
      assert gs[i] in gs;
    }
  }

  /** The groups add up to the sum of the expenses grouped. */
  lemma {:induction false} GroupsTotal(es: seq<Transaction>)
    ensures Sum(GroupAmount, GroupByCategory(es)) == Sum(Amount, es)
    decreases |es|
  {
    if es != [] {
      var init, e := es[..|es| - 1], es[|es| - 1];
      GroupsTotal(init);
      assert GroupByCategory(es) == AddExpense(GroupByCategory(init), e);
      AddExpenseTotal(GroupByCategory(init), e);
    }
  }

  /** One grouping step adds the expense's amount to the groups' total. */
  lemma AddExpenseTotal(gs: seq<CategoryTotal>, e: Transaction)
    ensures Sum(GroupAmount, AddExpense(gs, e)) == Sum(GroupAmount, gs) + e.amount
  {
    var j := CategoryIndex(gs, e.category);
    if j >= 0 {
      var gs' := gs[j := gs[j].(amount := gs[j].amount + e.amount)];
      SumUpdate(GroupAmount, gs, j, gs'[j]);
    } else {
      var gs' := gs + [CategoryTotal(e.category, e.amount)];
      assert gs'[..|gs'| - 1] == gs;
    }
  }

  /** The grouping `reduce` of the source: the accumulator grows by `push` and its groups
      are updated in place. */
  method GroupExpenses(transactions: seq<Transaction>) returns (acc: seq<CategoryTotal>)
    ensures acc == GroupByCategory(Filter(IsExpense, transactions))
  {
    var expenses := Filter(IsExpense, transactions);
    acc := [];
    var i := 0;
    while i < |expenses|
      invariant 0 <= i <= |expenses|
      invariant acc == GroupByCategory(expenses[..i])
    {
      var expense := expenses[i];
      var existing := CategoryIndex(acc, expense.category);
      if existing >= 0 {
        acc := acc[existing := acc[existing].(amount := acc[existing].amount + expense.amount)];
      } else {
        acc := acc + [CategoryTotal(expense.category, expense.amount)];
      }
      assert expenses[..i + 1][..i] == expenses[..i];
      i := i + 1;
    }
    assert expenses[..i] == expenses;
  }

  // ---------------------------------------------------------------------------
  // Sorting

  predicate NonIncreasing(s: seq<CategoryTotal>)
  {
    forall i, j :: 0 <= i < j < |s| ==> s[i].amount >= s[j].amount
  }

  /** `expensesByCategory.sort((a, b) => b.amount - a.amount)`: in place, largest first;
      groups of equal amount keep their order. */
  method SortByAmountDescending(a: array<CategoryTotal>)
    modifies a
    ensures NonIncreasing(a[..])
    ensures multiset(a[..]) == multiset(old(a[..]))
  {
    var i := 0;
    while i < a.Length
      invariant 0 <= i <= a.Length
      invariant NonIncreasing(a[..i])
      invariant multiset(a[..]) == multiset(old(a[..]))
    {
      InsertAt(a, i);
      i := i + 1;
    }
    assert a[..i] == a[..];
  }

  /** One pass of the insertion: moves `a[i]` left past the smaller amounts before it. */
  method InsertAt(a: array<CategoryTotal>, i: nat)
    requires i < a.Length
    requires NonIncreasing(a[..i])
    modifies a
    ensures NonIncreasing(a[..i + 1])
    ensures multiset(a[..]) == multiset(old(a[..]))
  {
    var j := i;
    while j > 0 && a[j - 1].amount < a[j].amount
      invariant 0 <= j <= i
      invariant multiset(a[..]) == multiset(old(a[..]))
      invariant forall p, q :: 0 <= p < q <= i && p != j && q != j ==> a[p].amount >= a[q].amount
      invariant forall q :: j < q <= i ==> a[j].amount > a[q].amount
    {
      Swap(a, j - 1, j);
      j := j - 1;
    }
  }

  /** Exchanges two cells. */
  method Swap(a: array<CategoryTotal>, x: nat, y: nat)
    requires x < a.Length && y < a.Length
    modifies a
    ensures a[..] == old(a[..])[x := old(a[y])][y := old(a[x])]
    ensures multiset(a[..]) == multiset(old(a[..]))
  {
    a[x], a[y] := a[y], a[x];
  }

  /** The groups of the chart, largest first. */
  method SortedExpensesByCategory(transactions: seq<Transaction>) returns (sorted: seq<CategoryTotal>)
    ensures NonIncreasing(sorted)
    ensures multiset(sorted) == multiset(GroupByCategory(Filter(IsExpense, transactions)))
  {
    var groups := GroupExpenses(transactions);
    var a := new CategoryTotal[|groups|](k requires 0 <= k < |groups| => groups[k]);
    assert a[..] == groups;
    SortByAmountDescending(a);
    sorted := a[..];
  }

  /** Sorting does not change which groups there are: after sorting, categories are still
      distinct, still those of the expenses, and each amount is still its category's sum;
      the groups together total the expenses. */
  lemma SortedGroupsCorrect(transactions: seq<Transaction>, sorted: seq<CategoryTotal>)
    requires multiset(sorted) == multiset(GroupByCategory(Filter(IsExpense, transactions)))
    ensures forall g :: g in sorted ==> g.amount == CategorySum(Filter(IsExpense, transactions), g.category)
    ensures CategoriesOf(sorted) == TransactionCategories(Filter(IsExpense, transactions))
    ensures DistinctCategories(sorted)
    ensures Sum(GroupAmount, sorted) == Expenses(transactions)
  {
    var es := Filter(IsExpense, transactions);
    var gs := GroupByCategory(es);
    GroupByCategoryCorrect(es);
    SameMembers(sorted, gs);
    MembersOfGrouping(sorted, gs, es);
    assert CategoriesOf(sorted) == CategoriesOf(gs);
    GroupsTotal(es);
    SumPermutation(GroupAmount, sorted, gs);
    DistinctUnderPermutation(sorted, gs);
  }

  /** Groups with distinct categories stay distinct when reordered. */
  lemma DistinctUnderPermutation(a: seq<CategoryTotal>, b: seq<CategoryTotal>)
    requires multiset(a) == multiset(b)
    requires DistinctCategories(b)
    ensures DistinctCategories(a)
  {
    forall i, j | 0 <= i < j < |a|
      ensures a[i].category != a[j].category
    {
      if a[i].category == a[j].category {
        SameMembers(a, b);
        assert a[i] in a && a[j] in a;
        var p :| 0 <= p < |b| && b[p] == a[i];
        var q :| 0 <= q < |b| && b[q] == a[j];
        assert p == q;
        var g := a[j];
        assert a == a[..j] + [g] + a[j + 1..];
        assert a[..j][i] == g;
        assert multiset(a)[g] >= 2;
        CountInDistinct(b, g);
      }
    }
  }

  /** A group occurs at most once among groups with distinct categories. */
  lemma {:induction false} CountInDistinct(b: seq<CategoryTotal>, g: CategoryTotal)
    requires DistinctCategories(b)
    ensures multiset(b)[g] <= 1
    decreases |b|
  {
    if b != [] {
      var init, last := b[..|b| - 1], b[|b| - 1];
      assert b == init + [last];
      assert forall i :: 0 <= i < |init| ==> init[i] == b[i];
      CountInDistinct(init, g);
      if g == last {
        assert g !in init by {
          forall i | 0 <= i < |init|
            ensures init[i] != g
          {
            assert b[i].category != b[|b| - 1].category;
          }
        }
      }
    }
  }

  /** Two sequences with the same multiset have the same elements. */
  lemma SameMembers(a: seq<CategoryTotal>, b: seq<CategoryTotal>)
    requires multiset(a) == multiset(b)
    ensures forall g :: g in a <==> g in b
  {
    assert forall g :: g in a <==> g in multiset(a);
    assert forall g :: g in b <==> g in multiset(b);
  }

  /** Every group drawn from a right grouping carries its category's sum. */
  lemma MembersOfGrouping(sorted: seq<CategoryTotal>, gs: seq<CategoryTotal>, es: seq<Transaction>)
    requires GroupsOf(gs, es)
    requires forall g :: g in sorted ==> g in gs
    ensures forall g :: g in sorted ==> g.amount == CategorySum(es, g.category)
  {
    forall g | g in sorted
      ensures g.amount == CategorySum(es, g.category)
    {
      var i :| 0 <= i < |gs| && gs[i] == g;
    }
  }

  // ---------------------------------------------------------------------------
  // Chart entries

  /** One entry of `chartData`, with the colour its cell is drawn in. The percentage is kept
      as a number; `toFixed(1)` is not modelled. */
  datatype ChartEntry = ChartEntry(name: string, value: real, percentage: real, color: string)

  function EntryPercentage(e: ChartEntry): real { e.percentage }

  const Colors: seq<string> := ["#9B87F5", "#38BDF8", "#FB923C", "#6366F1", "#22C55E", "#EF4444", "#A855F7", "#FACC15"]

  /** The share of the total, in percent, or 0 when the total is not positive. */
  function Percentage(amount: real, total: real): (p: real)
    ensures total <= 0.0 ==> p == 0.0
    ensures total > 0.0 ==> p * total == amount * 100.0
    ensures total > 0.0 && 0.0 <= amount <= total ==> 0.0 <= p <= 100.0
  {
    if total > 0.0 then
      PercentageBounds(amount, total);
      amount / total * 100.0
    else 0.0
  }

  lemma PercentageBounds(amount: real, total: real)
    requires total > 0.0
    ensures amount / total * 100.0 * total == amount * 100.0
    ensures 0.0 <= amount <= total ==> 0.0 <= amount / total * 100.0 <= 100.0
  {
  }

  /** The entries for a given total. */
  function Entries(sorted: seq<CategoryTotal>, total: real): (data: seq<ChartEntry>)
    ensures |data| == |sorted|
  {
    seq(|sorted|, i requires 0 <= i < |sorted| =>
      ChartEntry(sorted[i].category, sorted[i].amount, Percentage(sorted[i].amount, total), Colors[i % |Colors|]))
  }

  /** `chartData`, with `totalExpenses` the sum over the groups. */
  function ChartData(sorted: seq<CategoryTotal>): (data: seq<ChartEntry>)
    ensures |data| == |sorted|
  {
    Entries(sorted, Sum(GroupAmount, sorted))
  }

  /** Entry i shows group i and takes the i-th colour, cycling through the eight. */
  lemma ChartEntryAt(sorted: seq<CategoryTotal>, i: nat)
    requires i < |sorted|
    ensures ChartData(sorted)[i].name == sorted[i].category
    ensures ChartData(sorted)[i].value == sorted[i].amount
    ensures ChartData(sorted)[i].percentage == Percentage(sorted[i].amount, Sum(GroupAmount, sorted))
    ensures ChartData(sorted)[i].color == Colors[i % 8]
  {
  }

  /** The entries of a prefix are the prefix of the entries. */
  lemma EntriesPrefix(sorted: seq<CategoryTotal>, total: real, n: nat)
    requires n <= |sorted|
    ensures Entries(sorted, total)[..n] == Entries(sorted[..n], total)
  {
  }

  /** The percentages add up to the share of the groups' sum in the total. */
  lemma {:induction false} EntriesPercentageSum(sorted: seq<CategoryTotal>, total: real)
    ensures Sum(EntryPercentage, Entries(sorted, total)) == Percentage(Sum(GroupAmount, sorted), total)
    decreases |sorted|
  {
    if sorted != [] {
      var n := |sorted| - 1;
      var data := Entries(sorted, total);
      EntriesPrefix(sorted, total, n);
      EntriesPercentageSum(sorted[..n], total);
      assert Sum(EntryPercentage, data) == Sum(EntryPercentage, data[..n]) + data[n].percentage;
      assert Sum(GroupAmount, sorted) == Sum(GroupAmount, sorted[..n]) + sorted[n].amount;
      PercentageAdditive(Sum(GroupAmount, sorted[..n]), sorted[n].amount, total);
    }
  }

  /** The chart's percentages of a positive total add up to 100. */
  lemma ChartPercentagesSumTo100(sorted: seq<CategoryTotal>)
    requires Sum(GroupAmount, sorted) > 0.0
    ensures Sum(EntryPercentage, ChartData(sorted)) == 100.0
  {
    var total := Sum(GroupAmount, sorted);
    assert ChartData(sorted) == Entries(sorted, total);
    EntriesPercentageSum(sorted, total);
    WholeIsHundred(total);
  }

  lemma PercentageAdditive(x: real, y: real, total: real)
    ensures Percentage(x, total) + Percentage(y, total) == Percentage(x + y, total)
  {
    if total > 0.0 {
      var a, b, c := x / total, y / total, (x + y) / total;
      assert (a + b - c) * total == 0.0;
      assert a + b == c;
    }
  }

  lemma WholeIsHundred(total: real)
    requires total > 0.0
    ensures Percentage(total, total) == 100.0
  {
  }
}
