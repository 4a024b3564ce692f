/**
  The aggregation step: revenue and expense totals over the cleaned rows, the
  net income, and the expense breakdown (expense rows grouped by exact
  category text, each group's sum taken in absolute value, the groups sorted
  by that value, largest first).
 */
module Aggregate {

  import opened Ledger
  import opened Classify

  function Abs(x: real): real
  {
    if x < 0.0 then -x else x
  }

  /** The rows that satisfy `keep`, in their order. */
  function Where(rows: seq<Row>, keep: Row -> bool): (kept: seq<Row>)
    ensures |kept| <= |rows|
  {
    if rows == [] then []
    else
      var last := rows[|rows| - 1];
      Where(rows[..|rows| - 1], keep) + (if keep(last) then [last] else [])
  }

  /** The sum of the amounts (0 for no rows). */
  function Sum(rows: seq<Row>): real
  {
    if rows == [] then 0.0 else Sum(rows[..|rows| - 1]) + rows[|rows| - 1].amount
  }

  predicate IsRevenueRow(r: Row)
  {
    IsRevenue(r.category)
  }

  predicate IsExpenseRow(r: Row)
  {
    IsExpense(r.category)
  }

  function TotalRevenue(rows: seq<Row>): real
  {
    Sum(Where(rows, IsRevenueRow))
  }

  /** The sum of the expense amounts; negative when expenses are recorded as negative amounts. */
  function ExpenseSum(rows: seq<Row>): real
  {
    Sum(Where(rows, IsExpenseRow))
  }

  function NetIncome(rows: seq<Row>): real
  {
    TotalRevenue(rows) + ExpenseSum(rows)
  }

  /**
    The rows kept are exactly the rows that satisfy the test, each as many
    times as it occurs in the table (duplicates are kept, not merged).
   */
  lemma WhereMembers(rows: seq<Row>, keep: Row -> bool)
    ensures forall r :: r in Where(rows, keep) <==> r in rows && keep(r)
    ensures forall r :: multiset(Where(rows, keep))[r] == if keep(r) then multiset(rows)[r] else 0
  {
    WhereCounts(rows, keep);
    forall r ensures r in Where(rows, keep) <==> r in rows && keep(r) {
      assert r in Where(rows, keep) <==> r in multiset(Where(rows, keep));
      assert r in rows <==> r in multiset(rows);
    }
  }

  lemma {:induction false} WhereCounts(rows: seq<Row>, keep: Row -> bool)
    ensures forall r :: multiset(Where(rows, keep))[r] == if keep(r) then multiset(rows)[r] else 0
  {
    if rows != [] {
      var n := |rows| - 1;
      var front, x := rows[..n], rows[n];
      WhereCounts(front, keep);
      assert rows == front + [x];
      assert multiset(rows) == multiset(front) + multiset{x};
      if keep(x) {
        assert multiset(Where(rows, keep)) == multiset(Where(front, keep)) + multiset{x};
      } else {
        assert Where(rows, keep) == Where(front, keep);
      }
    }
  }

  lemma {:induction false} WhereAppend(a: seq<Row>, b: seq<Row>, keep: Row -> bool)
    ensures Where(a + b, keep) == Where(a, keep) + Where(b, keep)
  {
    if b == [] {
      assert a + b == a;
    } else {
      var n := |b| - 1;
      var c, x := a + b[..n], b[n];
      var tail := if keep(x) then [x] else [];
      assert a + b == c + [x];
      assert (c + [x])[..|c + [x]| - 1] == c;
      assert Where(a + b, keep) == Where(c, keep) + tail;
      assert Where(b, keep) == Where(b[..n], keep) + tail;
      WhereAppend(a, b[..n], keep);
      assert Where(a, keep) + (Where(b[..n], keep) + tail) == (Where(a, keep) + Where(b[..n], keep)) + tail;
    }
  }

  lemma {:induction false} SumAppend(a: seq<Row>, b: seq<Row>)
    ensures Sum(a + b) == Sum(a) + Sum(b)
  {
    if b == [] {
      assert a + b == a;
    } else {
      var n := |b| - 1;
      SumAppend(a, b[..n]);
      assert b == b[..n] + [b[n]];
      assert a + b == (a + b[..n]) + [b[n]];
    }
  }

  /**
    One more row adds its amount to the revenue total exactly when its category
    is revenue, and to the expense sum exactly when its category is an expense;
    the two tests are independent.
   */
  lemma RowContribution(rows: seq<Row>, r: Row)
    ensures TotalRevenue(rows + [r]) == TotalRevenue(rows) + (if IsRevenue(r.category) then r.amount else 0.0)
    ensures ExpenseSum(rows + [r]) == ExpenseSum(rows) + (if IsExpense(r.category) then r.amount else 0.0)
    ensures NetIncome(rows + [r]) == NetIncome(rows)
      + (if IsRevenue(r.category) then r.amount else 0.0)
      + (if IsExpense(r.category) then r.amount else 0.0)
  {
    WhereAppend(rows, [r], IsRevenueRow);
    WhereAppend(rows, [r], IsExpenseRow);
    SumAppend(Where(rows, IsRevenueRow), Where([r], IsRevenueRow));
    SumAppend(Where(rows, IsExpenseRow), Where([r], IsExpenseRow));
    assert [r][..0] == [];
  }

  /** The totals of a ledger are the sums of the totals of its parts. */
  lemma TotalsAppend(a: seq<Row>, b: seq<Row>)
    ensures TotalRevenue(a + b) == TotalRevenue(a) + TotalRevenue(b)
    ensures ExpenseSum(a + b) == ExpenseSum(a) + ExpenseSum(b)
    ensures NetIncome(a + b) == NetIncome(a) + NetIncome(b)
  {
    WhereAppend(a, b, IsRevenueRow);
    WhereAppend(a, b, IsExpenseRow);
    SumAppend(Where(a, IsRevenueRow), Where(b, IsRevenueRow));
    SumAppend(Where(a, IsExpenseRow), Where(b, IsExpenseRow));
  }

  /** A row whose category is both revenue and an expense counts in both totals. */
  lemma OverlapCountsTwice(r: Row)
    requires IsRevenue(r.category) && IsExpense(r.category)
    ensures TotalRevenue([r]) == r.amount && ExpenseSum([r]) == r.amount
    ensures NetIncome([r]) == 2.0 * r.amount
  {
    RowContribution([], r);
    assert [] + [r] == [r];
  }

  lemma {:induction false} NonPositiveSum(rows: seq<Row>)
    requires forall r :: r in rows ==> r.amount <= 0.0
    ensures Sum(rows) <= 0.0
  {
    if rows != [] {
      var n := |rows| - 1;
      assert forall r :: r in rows[..n] ==> r in rows;
      NonPositiveSum(rows[..n]);
      assert rows[n] in rows;
    }
  }

  /**
    With expenses recorded as non-positive amounts, the expense sum is at most
    0 and net income is revenue minus the magnitude of the expenses.
   */
  lemma NetIncomeAsDifference(rows: seq<Row>)
    requires forall r :: r in rows && IsExpense(r.category) ==> r.amount <= 0.0
    ensures ExpenseSum(rows) <= 0.0
    ensures NetIncome(rows) == TotalRevenue(rows) - Abs(ExpenseSum(rows))
  {
    WhereMembers(rows, IsExpenseRow);
    NonPositiveSum(Where(rows, IsExpenseRow));
  }

  // ---------------------------------------------------------------------
  // The expense breakdown

  /** One group of the breakdown: a category text and an amount. */
  datatype Group = Group(category: string, total: real)

  /** The test for rows of exactly this category text. */
  function InCategory(category: string): Row -> bool
  {
    (r: Row) => r.category == category
  }

  /** The sum of the amounts of the rows with exactly this category text. */
  function CategoryTotal(rows: seq<Row>, category: string): real
  {
    Sum(Where(rows, InCategory(category)))
  }

  function Categories(rows: seq<Row>): set<string>
  {
    set r | r in rows :: r.category
  }

  function Keys(gs: seq<Group>): set<string>
  {
    set g | g in gs :: g.category
  }

  ghost predicate DistinctCategories(gs: seq<Group>)
  {
    forall i, j :: 0 <= i < j < |gs| ==> gs[i].category != gs[j].category
  }

  /** Non-increasing order of the group amounts. */
  ghost predicate SortedDesc(gs: seq<Group>)
  {
    forall i, j :: 0 <= i < j < |gs| ==> gs[i].total >= gs[j].total
  }

  function SumTotals(gs: seq<Group>): real
  {
    if gs == [] then 0.0 else gs[0].total + SumTotals(gs[1..])
  }

  /** Adds one row into its category's group, opening a new group at the end for a new category. */
  function AddTo(gs: seq<Group>, r: Row): seq<Group>
  {
    if gs == [] then [Group(r.category, r.amount)]
    else if gs[0].category == r.category then [Group(r.category, gs[0].total + r.amount)] + gs[1..]
    else [gs[0]] + AddTo(gs[1..], r)
  }

  /** Group-by on the exact category text with a per-group sum, groups in order of first appearance. */
  function Groups(rows: seq<Row>): seq<Group>
  {
    if rows == [] then [] else AddTo(Groups(rows[..|rows| - 1]), rows[|rows| - 1])
  }

  /** Each group's amount replaced by its absolute value. */
  function Magnitudes(gs: seq<Group>): (ms: seq<Group>)
    ensures |ms| == |gs|
    ensures forall i :: 0 <= i < |gs| ==> ms[i] == Group(gs[i].category, Abs(gs[i].total))
  {
    if gs == [] then [] else [Group(gs[0].category, Abs(gs[0].total))] + Magnitudes(gs[1..])
  }

  function Insert(g: Group, gs: seq<Group>): seq<Group>
  {
    if gs == [] || g.total >= gs[0].total then [g] + gs
    else [gs[0]] + Insert(g, gs[1..])
  }

  /** Sorting by amount, largest first. */
  function SortDesc(gs: seq<Group>): seq<Group>
  {
    if gs == [] then [] else Insert(gs[0], SortDesc(gs[1..]))
  }

  /** The expense breakdown of the cleaned rows. */
  function ExpenseBreakdown(rows: seq<Row>): seq<Group>
  {
    SortDesc(Magnitudes(Groups(Where(rows, IsExpenseRow))))
  }

  /** The categories of the expense rows. */
  function ExpenseCategories(rows: seq<Row>): set<string>
  {
    set r | r in rows && IsExpense(r.category) :: r.category
  }

  lemma CategoryTotalStep(rows: seq<Row>, r: Row, category: string)
    ensures CategoryTotal(rows + [r], category)
      == CategoryTotal(rows, category) + (if r.category == category then r.amount else 0.0)
  {
    WhereAppend(rows, [r], InCategory(category));
    SumAppend(Where(rows, InCategory(category)), Where([r], InCategory(category)));
    assert [r][..0] == [];
  }

  lemma {:induction false} CategoryTotalAbsent(rows: seq<Row>, category: string)
    requires category !in Categories(rows)
    ensures CategoryTotal(rows, category) == 0.0
  {
    if rows != [] {
      var n := |rows| - 1;
      assert rows == rows[..n] + [rows[n]];
      assert Categories(rows[..n]) <= Categories(rows);
      CategoryTotalAbsent(rows[..n], category);
      CategoryTotalStep(rows[..n], rows[n], category);
    }
  }

  lemma KeysCons(g: Group, gs: seq<Group>)
    ensures Keys([g] + gs) == {g.category} + Keys(gs)
  {
    assert forall h :: h in [g] + gs <==> h == g || h in gs;
  }

  lemma DistinctCons(g: Group, gs: seq<Group>)
    ensures DistinctCategories([g] + gs) <==> DistinctCategories(gs) && g.category !in Keys(gs)
  {
    var s := [g] + gs;
    if DistinctCategories(s) {
      forall i, j | 0 <= i < j < |gs| ensures gs[i].category != gs[j].category {
        assert s[i + 1] == gs[i] && s[j + 1] == gs[j];
      }
      forall h | h in gs ensures h.category != g.category {
        var j :| 0 <= j < |gs| && gs[j] == h;
        assert s[0] == g && s[j + 1] == h;
      }
    }
    if DistinctCategories(gs) && g.category !in Keys(gs) {
      forall i, j | 0 <= i < j < |s| ensures s[i].category != s[j].category {
        if i == 0 {
          assert s[j] == gs[j - 1] && s[j] in gs;
        } else {
          assert s[i] == gs[i - 1] && s[j] == gs[j - 1];
        }
      }
    }
  }

  /** Adding a row keeps the categories distinct, adds its category, and adds its amount to the sum. */
  lemma AddToShape(gs: seq<Group>, r: Row)
    requires DistinctCategories(gs)
    ensures DistinctCategories(AddTo(gs, r))
    ensures Keys(AddTo(gs, r)) == Keys(gs) + {r.category}
    ensures SumTotals(AddTo(gs, r)) == SumTotals(gs) + r.amount
  {
    AddToKeys(gs, r);
    AddToDistinct(gs, r);
    AddToSum(gs, r);
  }

  lemma {:induction false} AddToKeys(gs: seq<Group>, r: Row)
    ensures Keys(AddTo(gs, r)) == Keys(gs) + {r.category}
  {
    if gs == [] {
      KeysCons(Group(r.category, r.amount), []);
    } else {
      var head, tail := gs[0], gs[1..];
      assert gs == [head] + tail;
      KeysCons(head, tail);
      if head.category == r.category {
        KeysCons(Group(r.category, head.total + r.amount), tail);
      } else {
        AddToKeys(tail, r);
        KeysCons(head, AddTo(tail, r));
      }
    }
  }

  lemma {:induction false} AddToDistinct(gs: seq<Group>, r: Row)
    requires DistinctCategories(gs)
    ensures DistinctCategories(AddTo(gs, r))
  {
    if gs == [] {
      KeysCons(Group(r.category, r.amount), []);
      DistinctCons(Group(r.category, r.amount), []);
    } else {
      var head, tail := gs[0], gs[1..];
      assert gs == [head] + tail;
      DistinctCons(head, tail);
      if head.category == r.category {
        DistinctCons(Group(r.category, head.total + r.amount), tail);
      } else {
        AddToDistinct(tail, r);
        AddToKeys(tail, r);
        DistinctCons(head, AddTo(tail, r));
      }
    }
  }

  lemma {:induction false} AddToSum(gs: seq<Group>, r: Row)
    ensures SumTotals(AddTo(gs, r)) == SumTotals(gs) + r.amount
  {
    if gs != [] && gs[0].category != r.category {
      AddToSum(gs[1..], r);
    }
  }

  /** Adding a row into the groups of `rows` gives groups holding the category totals of `rows + [r]`. */
  lemma {:induction false} AddToTotals(gs: seq<Group>, rows: seq<Row>, r: Row)
    requires DistinctCategories(gs)
    requires forall g :: g in gs ==> g.total == CategoryTotal(rows, g.category)
    requires r.category !in Keys(gs) ==> CategoryTotal(rows, r.category) == 0.0
    ensures forall g :: g in AddTo(gs, r) ==> g.total == CategoryTotal(rows + [r], g.category)
  {
    if gs == [] {
      CategoryTotalStep(rows, r, r.category);
    } else {
      var head, tail := gs[0], gs[1..];
      assert gs == [head] + tail;
      DistinctCons(head, tail);
      KeysCons(head, tail);
      if head.category == r.category {
        forall g | g in AddTo(gs, r) ensures g.total == CategoryTotal(rows + [r], g.category) {
          CategoryTotalStep(rows, r, g.category);
        }
      } else {
        AddToTotals(tail, rows, r);
        CategoryTotalStep(rows, r, head.category);
      }
    }
  }

  /**
    The groups have one entry per distinct category of the rows, each holding
    the sum of that category's amounts, and together they sum to all amounts.
   */
  lemma GroupsFacts(rows: seq<Row>)
    ensures DistinctCategories(Groups(rows))
    ensures Keys(Groups(rows)) == Categories(rows)
    ensures forall g :: g in Groups(rows) ==> g.total == CategoryTotal(rows, g.category)
    ensures SumTotals(Groups(rows)) == Sum(rows)
  {
    GroupsShape(rows);
    GroupsTotals(rows);
  }

  lemma {:induction false} GroupsShape(rows: seq<Row>)
    ensures DistinctCategories(Groups(rows))
    ensures Keys(Groups(rows)) == Categories(rows)
    ensures SumTotals(Groups(rows)) == Sum(rows)
  {
    if rows != [] {
      var n := |rows| - 1;
      var front, r := rows[..n], rows[n];
      assert rows == front + [r];
      var gs := Groups(front);
      assert Groups(rows) == AddTo(gs, r);
      GroupsShape(front);
      AddToShape(gs, r);
      assert Sum(rows) == Sum(front) + r.amount;
      assert Categories(rows) == Categories(front) + {r.category};
    }
  }

  lemma {:induction false} GroupsTotals(rows: seq<Row>)
    ensures forall g :: g in Groups(rows) ==> g.total == CategoryTotal(rows, g.category)
  {
    if rows != [] {
      var n := |rows| - 1;
      var front, r := rows[..n], rows[n];
      assert rows == front + [r];
      var gs := Groups(front);
      assert Groups(rows) == AddTo(gs, r);
      GroupsTotals(front);
      GroupsShape(front);
      if r.category !in Keys(gs) {
        CategoryTotalAbsent(front, r.category);
      }
      AddToTotals(gs, front, r);
    }
  }

  lemma {:induction false} InsertPermutes(g: Group, gs: seq<Group>)
    ensures multiset(Insert(g, gs)) == multiset(gs) + multiset{g}
    ensures SumTotals(Insert(g, gs)) == g.total + SumTotals(gs)
  {
    if !(gs == [] || g.total >= gs[0].total) {
      assert gs == [gs[0]] + gs[1..];
      InsertPermutes(g, gs[1..]);
    }
  }

  lemma {:induction false} InsertMembers(g: Group, gs: seq<Group>)
    ensures forall x :: x in Insert(g, gs) <==> x == g || x in gs
  {
    if !(gs == [] || g.total >= gs[0].total) {
      assert gs == [gs[0]] + gs[1..];
      InsertMembers(g, gs[1..]);
    }
  }

  lemma {:induction false} InsertSorted(g: Group, gs: seq<Group>)
    requires SortedDesc(gs)
    ensures SortedDesc(Insert(g, gs))
  {
    if !(gs == [] || g.total >= gs[0].total) {
      var head, tail := gs[0], gs[1..];
      assert SortedDesc(tail);
      InsertSorted(g, tail);
      InsertMembers(g, tail);
      var s := [head] + Insert(g, tail);
      forall j | 0 < j < |s| ensures head.total >= s[j].total {
        assert s[j] in Insert(g, tail);
        if s[j] != g {
          var k :| 0 <= k < |tail| && tail[k] == s[j];
          assert gs[k + 1] == s[j];
        }
      }
      assert Insert(g, gs) == s;
    }
  }

  lemma {:induction false} InsertKeys(g: Group, gs: seq<Group>)
    ensures Keys(Insert(g, gs)) == {g.category} + Keys(gs)
    ensures DistinctCategories(gs) && g.category !in Keys(gs) ==> DistinctCategories(Insert(g, gs))
  {
    if gs == [] || g.total >= gs[0].total {
      KeysCons(g, gs);
      DistinctCons(g, gs);
    } else {
      var head, tail := gs[0], gs[1..];
      assert gs == [head] + tail;
      InsertKeys(g, tail);
      KeysCons(head, Insert(g, tail));
      KeysCons(head, tail);
      DistinctCons(head, Insert(g, tail));
      DistinctCons(head, tail);
    }
  }

  /** Sorting yields a non-increasing permutation with the same categories and the same sum. */
  lemma SortDescFacts(gs: seq<Group>)
    ensures multiset(SortDesc(gs)) == multiset(gs)
    ensures SortedDesc(SortDesc(gs))
    ensures SumTotals(SortDesc(gs)) == SumTotals(gs)
    ensures Keys(SortDesc(gs)) == Keys(gs)
    ensures DistinctCategories(gs) ==> DistinctCategories(SortDesc(gs))
  {
    SortDescPermutes(gs);
    SortDescSorted(gs);
    SortDescKeys(gs);
  }

  lemma {:induction false} SortDescPermutes(gs: seq<Group>)
    ensures multiset(SortDesc(gs)) == multiset(gs)
    ensures SumTotals(SortDesc(gs)) == SumTotals(gs)
  {
    if gs != [] {
      var head, tail := gs[0], gs[1..];
      assert gs == [head] + tail;
      SortDescPermutes(tail);
      InsertPermutes(head, SortDesc(tail));
    }
  }

  lemma {:induction false} SortDescSorted(gs: seq<Group>)
    ensures SortedDesc(SortDesc(gs))
  {
    if gs != [] {
      SortDescSorted(gs[1..]);
      InsertSorted(gs[0], SortDesc(gs[1..]));
    }
  }

  lemma {:induction false} SortDescKeys(gs: seq<Group>)
    ensures Keys(SortDesc(gs)) == Keys(gs)
    ensures DistinctCategories(gs) ==> DistinctCategories(SortDesc(gs))
  {
    if gs != [] {
      var head, tail := gs[0], gs[1..];
      assert gs == [head] + tail;
      SortDescKeys(tail);
      InsertKeys(head, SortDesc(tail));
      KeysCons(head, tail);
      DistinctCons(head, tail);
    }
  }

  /**
    Taking magnitudes keeps the categories (and their distinctness) and, when
    every amount is non-positive, negates the sum.
   */
  lemma MagnitudesFacts(gs: seq<Group>)
    ensures Keys(Magnitudes(gs)) == Keys(gs)
    ensures DistinctCategories(gs) ==> DistinctCategories(Magnitudes(gs))
    ensures (forall g :: g in gs ==> g.total <= 0.0) ==> SumTotals(Magnitudes(gs)) == -SumTotals(gs)
  {
    MagnitudesKeys(gs);
    if forall g :: g in gs ==> g.total <= 0.0 {
      MagnitudesSum(gs);
    }
  }

  lemma {:induction false} MagnitudesKeys(gs: seq<Group>)
    ensures Keys(Magnitudes(gs)) == Keys(gs)
  {
    if gs != [] {
      var head, tail := gs[0], gs[1..];
      assert gs == [head] + tail;
      MagnitudesKeys(tail);
      var m := Group(head.category, Abs(head.total));
      assert Magnitudes(gs) == [m] + Magnitudes(tail);
      KeysCons(m, Magnitudes(tail));
      KeysCons(head, tail);
    }
  }

  lemma {:induction false} MagnitudesSum(gs: seq<Group>)
    requires forall g :: g in gs ==> g.total <= 0.0
    ensures SumTotals(Magnitudes(gs)) == -SumTotals(gs)
  {
    if gs != [] {
      assert gs[0] in gs;
      assert forall g :: g in gs[1..] ==> g in gs;
      MagnitudesSum(gs[1..]);
    }
  }

  lemma {:induction false} DistinctCardinality(gs: seq<Group>)
    requires DistinctCategories(gs)
    ensures |Keys(gs)| == |gs|
  {
    if gs != [] {
      var head, tail := gs[0], gs[1..];
      assert gs == [head] + tail;
      DistinctCons(head, tail);
      KeysCons(head, tail);
      DistinctCardinality(tail);
    }
  }

  /** Restricting to the expense rows does not change the total of an expense category. */
  lemma {:induction false} ExpenseCategoryTotal(rows: seq<Row>, category: string)
    requires IsExpense(category)
    ensures CategoryTotal(Where(rows, IsExpenseRow), category) == CategoryTotal(rows, category)
  {
    if rows != [] {
      var n := |rows| - 1;
      var front, r := rows[..n], rows[n];
      ExpenseCategoryTotal(front, category);
      CategoryTotalStep(front, r, category);
      assert rows == front + [r];
      var exp := Where(front, IsExpenseRow);
      if IsExpense(r.category) {
        assert Where(rows, IsExpenseRow) == exp + [r];
        CategoryTotalStep(exp, r, category);
      } else {
        assert Where(rows, IsExpenseRow) == exp;
        assert r.category != category;
      }
    }
  }

  lemma BreakdownShape(rows: seq<Row>)
    ensures DistinctCategories(ExpenseBreakdown(rows))
    ensures Keys(ExpenseBreakdown(rows)) == ExpenseCategories(rows)
    ensures SortedDesc(ExpenseBreakdown(rows))
  {
    var exp := Where(rows, IsExpenseRow);
    var groups := Groups(exp);
    GroupsFacts(exp);
    MagnitudesFacts(groups);
    SortDescFacts(Magnitudes(groups));
    WhereMembers(rows, IsExpenseRow);
    assert Categories(exp) == ExpenseCategories(rows);
  }

  lemma BreakdownValues(rows: seq<Row>)
    ensures forall g :: g in ExpenseBreakdown(rows) ==> g.total == Abs(CategoryTotal(rows, g.category))
  {
    var exp := Where(rows, IsExpenseRow);
    var groups := Groups(exp);
    var mags := Magnitudes(groups);
    GroupsFacts(exp);
    SortDescFacts(mags);
    WhereMembers(rows, IsExpenseRow);
    forall g | g in ExpenseBreakdown(rows) ensures g.total == Abs(CategoryTotal(rows, g.category)) {
      assert g in multiset(mags);
      var i :| 0 <= i < |groups| && mags[i] == g;
      assert groups[i] in groups;
      assert g.category in Categories(exp);
      ExpenseCategoryTotal(rows, g.category);
    }
  }

  /**
    The breakdown has exactly one entry per distinct expense category; each
    entry holds the absolute value of the sum of that category's amounts (so
    it is at least 0); the entries are in non-increasing order of value.
   */
  lemma BreakdownSpec(rows: seq<Row>)
    ensures DistinctCategories(ExpenseBreakdown(rows))
    ensures Keys(ExpenseBreakdown(rows)) == ExpenseCategories(rows)
    ensures |ExpenseBreakdown(rows)| == |ExpenseCategories(rows)|
    ensures forall g :: g in ExpenseBreakdown(rows) ==>
      g.total == Abs(CategoryTotal(rows, g.category)) && g.total >= 0.0
    ensures forall c :: c in ExpenseCategories(rows) ==>
      Group(c, Abs(CategoryTotal(rows, c))) in ExpenseBreakdown(rows)
    ensures SortedDesc(ExpenseBreakdown(rows))
  {
    var b := ExpenseBreakdown(rows);
    BreakdownShape(rows);
    BreakdownValues(rows);
    DistinctCardinality(b);
    forall c | c in ExpenseCategories(rows) ensures Group(c, Abs(CategoryTotal(rows, c))) in b {
      assert c in Keys(b);
      var g :| g in b && g.category == c;
    }
  }

  /**
    With expenses recorded as non-positive amounts, the negated expense sum
    (the Total Expenses figure) is at least 0 and equals the sum of the
    breakdown's entries.
   */
  lemma TotalExpensesMatchBreakdown(rows: seq<Row>)
    requires forall r :: r in rows && IsExpense(r.category) ==> r.amount <= 0.0
    ensures -ExpenseSum(rows) >= 0.0
    ensures SumTotals(ExpenseBreakdown(rows)) == -ExpenseSum(rows)
  {
    var exp := Where(rows, IsExpenseRow);
    var groups := Groups(exp);
    WhereMembers(rows, IsExpenseRow);
    NonPositiveSum(exp);
    GroupsFacts(exp);
    forall g | g in groups ensures g.total <= 0.0 {
      WhereMembers(exp, InCategory(g.category));
      NonPositiveSum(Where(exp, InCategory(g.category)));
    }
    MagnitudesFacts(groups);
    SortDescFacts(Magnitudes(groups));
  }

}
