/**
  The income statement: a fixed skeleton of (line item, amount) lines with one
  line per expense category in the middle, and the pipeline that produces it
  from the raw ledger (clean, classify and aggregate, lay out).
 */
module Report {

  import opened Wrappers
  import opened Ledger
  import opened Classify
  import opened Aggregate

  /** The Amount column of the statement: an empty cell or a number. */
  datatype Amount = Blank | Value(number: real)

  datatype Line = Line(item: string, amount: Amount)

  const SPACER := Line("", Blank)

  /** The line items that the skeleton holds once each. */
  const FIXED_ITEMS := ["Revenues:", "  Sales Revenue", "Expenses:", "Total Expenses", "NET INCOME (LOSS)"]

  /** The breakdown lines, one per entry and in its order, each indented by two spaces. */
  function CategoryLines(breakdown: seq<Group>): (lines: seq<Line>)
    ensures |lines| == |breakdown|
    ensures forall k :: 0 <= k < |breakdown| ==>
      lines[k] == Line("  " + breakdown[k].category, Value(breakdown[k].total))
  {
    if breakdown == [] then []
    else
      var last := breakdown[|breakdown| - 1];
      CategoryLines(breakdown[..|breakdown| - 1]) + [Line("  " + last.category, Value(last.total))]
  }

  /** The statement laid out from the aggregates. */
  function Layout(revenue: real, breakdown: seq<Group>, expenseSum: real, netIncome: real): seq<Line>
  {
    [Line("Revenues:", Blank), Line("  Sales Revenue", Value(revenue)), SPACER, Line("Expenses:", Blank)]
    + CategoryLines(breakdown)
    + [SPACER, Line("Total Expenses", Value(-expenseSum)), SPACER, Line("NET INCOME (LOSS)", Value(netIncome))]
  }

  /** The statement as the program builds it, appending one line at a time. */
  method BuildStatement(revenue: real, breakdown: seq<Group>, expenseSum: real, netIncome: real)
    returns (lines: seq<Line>)
    ensures lines == Layout(revenue, breakdown, expenseSum, netIncome)
  {
    lines := [];
    lines := lines + [Line("Revenues:", Blank)];
    lines := lines + [Line("  Sales Revenue", Value(revenue))];
    lines := lines + [SPACER];
    lines := lines + [Line("Expenses:", Blank)];
    ghost var header := lines;
    for k := 0 to |breakdown|
      invariant lines == header + CategoryLines(breakdown[..k])
    {
      assert breakdown[..k + 1][..k] == breakdown[..k];
      lines := lines + [Line("  " + breakdown[k].category, Value(breakdown[k].total))];
    }
    assert breakdown[..|breakdown|] == breakdown;
    lines := lines + [SPACER];
    lines := lines + [Line("Total Expenses", Value(expenseSum * -1.0))];
    lines := lines + [SPACER];
    lines := lines + [Line("NET INCOME (LOSS)", Value(netIncome))];
  }

  /** The income statement of a raw ledger. */
  function IncomeStatement(raw: seq<RawRow>, parse: string -> Option<real>): seq<Line>
  {
    var rows := Cleaned(raw, parse);
    Layout(TotalRevenue(rows), ExpenseBreakdown(rows), ExpenseSum(rows), NetIncome(rows))
  }

  /** The whole computation, from the raw table to the statement's lines. */
  method GenerateIncomeStatement(raw: seq<RawRow>, parse: string -> Option<real>) returns (lines: seq<Line>)
    ensures lines == IncomeStatement(raw, parse)
  {
    var rows := CleanTable(raw, parse);
    var totalRevenue := TotalRevenue(rows);
    var totalExpensesNegative := ExpenseSum(rows);
    var expensesByCategory := ExpenseBreakdown(rows);
    var netIncome := totalRevenue + totalExpensesNegative;
    assert netIncome == NetIncome(rows);
    lines := BuildStatement(totalRevenue, expensesByCategory, totalExpensesNegative, netIncome);
  }

  /** The number of lines carrying this line item. */
  function Count(lines: seq<Line>, item: string): nat
  {
    |set k | 0 <= k < |lines| && lines[k].item == item|
  }

  /** The position of every line of the layout. */
  lemma LayoutShape(revenue: real, breakdown: seq<Group>, expenseSum: real, netIncome: real)
    ensures var lines := Layout(revenue, breakdown, expenseSum, netIncome);
      var n := |breakdown|;
      && |lines| == 8 + n
      && lines[0] == Line("Revenues:", Blank)
      && lines[1] == Line("  Sales Revenue", Value(revenue))
      && lines[2] == SPACER
      && lines[3] == Line("Expenses:", Blank)
      && (forall k :: 0 <= k < n ==> lines[4 + k] == Line("  " + breakdown[k].category, Value(breakdown[k].total)))
      && lines[4 + n] == SPACER
      && lines[5 + n] == Line("Total Expenses", Value(-expenseSum))
      && lines[6 + n] == SPACER
      && lines[7 + n] == Line("NET INCOME (LOSS)", Value(netIncome))
  {
  }

  lemma SingleLine(lines: seq<Line>, item: string, p: int)
    requires 0 <= p < |lines| && lines[p].item == item
    requires forall k :: 0 <= k < |lines| && k != p ==> lines[k].item != item
    ensures Count(lines, item) == 1
  {
    assert (set k | 0 <= k < |lines| && lines[k].item == item) == {p};
  }

  /** Only the breakdown lines are indented by two spaces followed by a category other than "Sales Revenue". */
  lemma IndentedItem(c: string, d: string)
    requires "  " + c == "  " + d
    ensures c == d
  {
    assert c == ("  " + c)[2..];
    assert d == ("  " + d)[2..];
  }

  /** An indented category other than "Sales Revenue" is neither a fixed item nor a spacer's item. */
  lemma IndentedNotFixed(c: string)
    requires c != "Sales Revenue"
    ensures "  " + c !in FIXED_ITEMS && "  " + c != ""
  {
    var item := "  " + c;
    assert item[0] == ' ';
    if item == "  Sales Revenue" {
      IndentedItem(c, "Sales Revenue");
    }
  }

  lemma FixedItemsDiffer()
    ensures forall i, j :: 0 <= i < j < |FIXED_ITEMS| ==> FIXED_ITEMS[i] != FIXED_ITEMS[j]
    ensures "" !in FIXED_ITEMS
  {
    assert FIXED_ITEMS[0][0] == 'R' && FIXED_ITEMS[1][0] == ' ' && FIXED_ITEMS[2][0] == 'E';
    assert FIXED_ITEMS[3][0] == 'T' && FIXED_ITEMS[4][0] == 'N';
  }

  /**
    The line items of a statement skeleton, position by position: the fixed
    items and the spacers around one indented line per breakdown entry.
   */
  ghost predicate Skeleton(lines: seq<Line>, breakdown: seq<Group>)
  {
    var n := |breakdown|;
    && |lines| == 8 + n
    && lines[0].item == FIXED_ITEMS[0] && lines[1].item == FIXED_ITEMS[1] && lines[3].item == FIXED_ITEMS[2]
    && lines[5 + n].item == FIXED_ITEMS[3] && lines[7 + n].item == FIXED_ITEMS[4]
    && lines[2].item == "" && lines[4 + n].item == "" && lines[6 + n].item == ""
    && (forall k :: 0 <= k < n ==> lines[4 + k].item == "  " + breakdown[k].category)
  }

  lemma LayoutItems(revenue: real, breakdown: seq<Group>, expenseSum: real, netIncome: real)
    ensures Skeleton(Layout(revenue, breakdown, expenseSum, netIncome), breakdown)
  {
    LayoutShape(revenue, breakdown, expenseSum, netIncome);
  }

  lemma FixedItemOnce(lines: seq<Line>, breakdown: seq<Group>, i: int)
    requires Skeleton(lines, breakdown)
    requires 0 <= i < |FIXED_ITEMS|
    requires "Sales Revenue" !in Keys(breakdown)
    ensures Count(lines, FIXED_ITEMS[i]) == 1
  {
    var n := |breakdown|;
    FixedItemsDiffer();
    var p := if i == 0 then 0 else if i == 1 then 1 else if i == 2 then 3 else if i == 3 then 5 + n else 7 + n;
    forall k | 0 <= k < |lines| && k != p ensures lines[k].item != FIXED_ITEMS[i] {
      if 4 <= k < 4 + n {
        assert breakdown[k - 4] in breakdown;
        IndentedNotFixed(breakdown[k - 4].category);
      } else if k == 2 || k == 4 + n || k == 6 + n {
      } else if k == 0 {
        assert lines[k].item == FIXED_ITEMS[0] && i != 0;
      } else if k == 1 {
        assert lines[k].item == FIXED_ITEMS[1] && i != 1;
      } else if k == 3 {
        assert lines[k].item == FIXED_ITEMS[2] && i != 2;
      } else if k == 5 + n {
        assert lines[k].item == FIXED_ITEMS[3] && i != 3;
      } else {
        assert k == 7 + n;
        assert lines[k].item == FIXED_ITEMS[4] && i != 4;
      }
    }
    SingleLine(lines, FIXED_ITEMS[i], p);
  }

  /** Outside the breakdown, every line item is a fixed one or empty. */
  lemma OutsideBreakdown(lines: seq<Line>, breakdown: seq<Group>, k: int)
    requires Skeleton(lines, breakdown)
    requires 0 <= k < |lines| && !(4 <= k < 4 + |breakdown|)
    ensures lines[k].item == "" || lines[k].item in FIXED_ITEMS
  {
    var n := |breakdown|;
    if k == 2 || k == 4 + n || k == 6 + n {
    } else if k == 0 {
      assert lines[k].item == FIXED_ITEMS[0];
    } else if k == 1 {
      assert lines[k].item == FIXED_ITEMS[1];
    } else if k == 3 {
      assert lines[k].item == FIXED_ITEMS[2];
    } else if k == 5 + n {
      assert lines[k].item == FIXED_ITEMS[3];
    } else {
      assert k == 7 + n;
      assert lines[k].item == FIXED_ITEMS[4];
    }
  }

  lemma CategoryItemOnce(lines: seq<Line>, breakdown: seq<Group>, c: string)
    requires Skeleton(lines, breakdown)
    requires DistinctCategories(breakdown)
    requires c in Keys(breakdown) && c != "Sales Revenue"
    ensures Count(lines, "  " + c) == 1
  {
    var n := |breakdown|;
    IndentedNotFixed(c);
    var g :| g in breakdown && g.category == c;
    var j :| 0 <= j < n && breakdown[j] == g;
    forall k | 0 <= k < |lines| && k != 4 + j ensures lines[k].item != "  " + c {
      if 4 <= k < 4 + n {
        assert breakdown[k - 4].category != c;
        if lines[k].item == "  " + c {
          IndentedItem(breakdown[k - 4].category, c);
        }
      } else {
        OutsideBreakdown(lines, breakdown, k);
      }
    }
    SingleLine(lines, "  " + c, 4 + j);
  }

  /**
    When the breakdown's categories are distinct and none is "Sales Revenue",
    each fixed line item appears exactly once, each breakdown category exactly
    once, and every other line is a spacer.
   */
  lemma LayoutItemsOnce(revenue: real, breakdown: seq<Group>, expenseSum: real, netIncome: real)
    requires DistinctCategories(breakdown)
    requires "Sales Revenue" !in Keys(breakdown)
    ensures var lines := Layout(revenue, breakdown, expenseSum, netIncome);
      && (forall item :: item in FIXED_ITEMS ==> Count(lines, item) == 1)
      && (forall c :: c in Keys(breakdown) ==> Count(lines, "  " + c) == 1)
      && (forall k :: 0 <= k < |lines| ==>
            lines[k] == SPACER || lines[k].item in FIXED_ITEMS || exists c :: c in Keys(breakdown) && lines[k].item == "  " + c)
  {
    var lines := Layout(revenue, breakdown, expenseSum, netIncome);
    LayoutItems(revenue, breakdown, expenseSum, netIncome);
    forall i | 0 <= i < |FIXED_ITEMS| ensures Count(lines, FIXED_ITEMS[i]) == 1 {
      FixedItemOnce(lines, breakdown, i);
    }
    forall c | c in Keys(breakdown) ensures Count(lines, "  " + c) == 1 {
      CategoryItemOnce(lines, breakdown, c);
    }
    LayoutLineKinds(revenue, breakdown, expenseSum, netIncome);
  }

  /** Every line of the layout is a spacer, a fixed line item or a breakdown category's line. */
  lemma LayoutLineKinds(revenue: real, breakdown: seq<Group>, expenseSum: real, netIncome: real)
    ensures var lines := Layout(revenue, breakdown, expenseSum, netIncome);
      forall k :: 0 <= k < |lines| ==>
        lines[k] == SPACER || lines[k].item in FIXED_ITEMS || exists c :: c in Keys(breakdown) && lines[k].item == "  " + c
  {
    var lines := Layout(revenue, breakdown, expenseSum, netIncome);
    var n := |breakdown|;
    LayoutShape(revenue, breakdown, expenseSum, netIncome);
    forall k | 0 <= k < |lines|
      ensures lines[k] == SPACER || lines[k].item in FIXED_ITEMS || exists c :: c in Keys(breakdown) && lines[k].item == "  " + c
    {
      if 4 <= k < 4 + n {
        assert breakdown[k - 4] in breakdown;
      } else if k == 2 || k == 4 + n || k == 6 + n {
      } else if k == 0 {
        assert lines[k].item == FIXED_ITEMS[0];
      } else if k == 1 {
        assert lines[k].item == FIXED_ITEMS[1];
      } else if k == 3 {
        assert lines[k].item == FIXED_ITEMS[2];
      } else if k == 5 + n {
        assert lines[k].item == FIXED_ITEMS[3];
      } else {
        assert k == 7 + n;
        assert lines[k].item == FIXED_ITEMS[4];
      }
    }
  }

  /**
    The statement of any ledger holds each fixed line item exactly once and one
    line per distinct expense category, so it has 8 lines plus one per
    distinct expense category.
   */
  lemma StatementItems(raw: seq<RawRow>, parse: string -> Option<real>)
    ensures var rows := Cleaned(raw, parse);
      var lines := IncomeStatement(raw, parse);
      && |lines| == 8 + |ExpenseCategories(rows)|
      && (forall item :: item in FIXED_ITEMS ==> Count(lines, item) == 1)
      && (forall c :: c in ExpenseCategories(rows) ==> Count(lines, "  " + c) == 1)
  {
    var rows := Cleaned(raw, parse);
    var breakdown := ExpenseBreakdown(rows);
    BreakdownSpec(rows);
    SalesRevenueIsRevenueOnly("Sales Revenue");
    LayoutShape(TotalRevenue(rows), breakdown, ExpenseSum(rows), NetIncome(rows));
    LayoutItemsOnce(TotalRevenue(rows), breakdown, ExpenseSum(rows), NetIncome(rows));
  }

  /**
    The figures of the statement: the Sales Revenue line holds the revenue
    total, and the NET INCOME (LOSS) figure is the Sales Revenue figure minus
    the Total Expenses figure.
   */
  lemma StatementFigures(raw: seq<RawRow>, parse: string -> Option<real>)
    ensures var lines := IncomeStatement(raw, parse);
      && |lines| >= 8
      && lines[1].amount == Value(TotalRevenue(Cleaned(raw, parse)))
      && lines[|lines| - 3].amount.Value? && lines[|lines| - 1].amount.Value?
      && lines[|lines| - 1].amount.number == lines[1].amount.number - lines[|lines| - 3].amount.number
  {
    var rows := Cleaned(raw, parse);
    LayoutFigures(TotalRevenue(rows), ExpenseBreakdown(rows), ExpenseSum(rows), NetIncome(rows));
  }

  /** The lines of the layout that carry a figure. */
  lemma LayoutFigures(revenue: real, breakdown: seq<Group>, expenseSum: real, netIncome: real)
    ensures var lines := Layout(revenue, breakdown, expenseSum, netIncome);
      && |lines| == 8 + |breakdown|
      && lines[1] == Line("  Sales Revenue", Value(revenue))
      && lines[|lines| - 3] == Line("Total Expenses", Value(-expenseSum))
      && lines[|lines| - 1] == Line("NET INCOME (LOSS)", Value(netIncome))
  {
    LayoutShape(revenue, breakdown, expenseSum, netIncome);
  }

  /** The statement of a ledger without numeric rows: the skeleton alone, with every figure 0. */
  const EMPTY_STATEMENT := [
    Line("Revenues:", Blank), Line("  Sales Revenue", Value(0.0)), SPACER, Line("Expenses:", Blank),
    SPACER, Line("Total Expenses", Value(0.0)), SPACER, Line("NET INCOME (LOSS)", Value(0.0))]

  /**
    A ledger in which no amount is numeric, in particular an empty one, gives
    zero totals, no breakdown lines, and the 8-line skeleton.
   */
  lemma NothingNumeric(raw: seq<RawRow>, parse: string -> Option<real>)
    requires forall j :: 0 <= j < |raw| ==> ToNumeric(raw[j].amount, parse) == None
    ensures var rows := Cleaned(raw, parse);
      TotalRevenue(rows) == 0.0 && ExpenseSum(rows) == 0.0 && NetIncome(rows) == 0.0 && ExpenseBreakdown(rows) == []
    ensures IncomeStatement(raw, parse) == EMPTY_STATEMENT
  {
    CleanedNothingNumeric(raw, parse);
    EmptyLayout();
  }

  lemma EmptyLayout()
    ensures Layout(0.0, [], 0.0, 0.0) == EMPTY_STATEMENT
  {
    var lines := Layout(0.0, [], 0.0, 0.0);
    LayoutShape(0.0, [], 0.0, 0.0);
    forall k | 0 <= k < 8 ensures lines[k] == EMPTY_STATEMENT[k] {
    }
  }

  /** A row whose amount is not numeric changes nothing in the statement, wherever it stands. */
  lemma UnparseableRowIgnored(a: seq<RawRow>, r: RawRow, b: seq<RawRow>, parse: string -> Option<real>)
    requires ToNumeric(r.amount, parse) == None
    ensures IncomeStatement(a + [r] + b, parse) == IncomeStatement(a + b, parse)
  {
    CleanedDropsUnparseable(a, r, b, parse);
  }

  /**
    A three-row ledger: a sale of 1000, an office expense of -200, and a row
    whose amount is the text "oops". The bad row is excluded from everything;
    revenue is 1000, the expense sum -200, net income 800.
   */
  lemma ThreeRowLedger(raw: seq<RawRow>, parse: string -> Option<real>)
    requires |raw| == 3
    requires raw[0] == RawRow("Sales Revenue", Numeric(1000.0))
    requires raw[1] == RawRow("Office Expense", Numeric(-200.0))
    requires raw[2] == RawRow("Bad Row", Text("oops"))
    requires parse("oops") == None
    ensures IncomeStatement(raw, parse) == [
      Line("Revenues:", Blank), Line("  Sales Revenue", Value(1000.0)), SPACER,
      Line("Expenses:", Blank), Line("  Office Expense", Value(200.0)), SPACER,
      Line("Total Expenses", Value(200.0)), SPACER, Line("NET INCOME (LOSS)", Value(800.0))]
  {
    var sale, office := Row(raw[0].category, 1000.0), Row(raw[1].category, -200.0);
    assert Cleaned(raw, parse) == [sale, office] by {
      var kept := [raw[0], raw[1]];
      assert raw == kept + [raw[2]] + [];
      CleanedDropsUnparseable(kept, raw[2], [], parse);
      assert kept + [] == kept && kept[..1] == [raw[0]] && [raw[0]][..0] == [];
    }
    SalesRevenueIsRevenueOnly(sale.category);
    OfficeExpenseIsExpenseOnly(office.category);
    TwoRowAggregates(sale, office);
    var g := Group(office.category, Abs(office.amount));
    ScenarioLayout(1000.0, g, -200.0, 800.0);
    OfficeExpenseIndented(g.category);
  }

  /** A revenue-only row followed by an expense-only row: each total is that row's amount. */
  lemma TwoRowAggregates(sale: Row, office: Row)
    requires IsRevenue(sale.category) && !IsExpense(sale.category)
    requires IsExpense(office.category) && !IsRevenue(office.category)
    ensures TotalRevenue([sale, office]) == sale.amount
    ensures ExpenseSum([sale, office]) == office.amount
    ensures ExpenseBreakdown([sale, office]) == [Group(office.category, Abs(office.amount))]
  {
    var rows := [sale, office];
    assert rows[..1] == [sale] && [sale][..0] == [] && [office][..0] == [];
    assert Where([sale], IsExpenseRow) == [];
    assert Where(rows, IsExpenseRow) == [office];
    assert Where([sale], IsRevenueRow) == [sale];
    assert Where(rows, IsRevenueRow) == [sale];
    assert Sum([sale]) == sale.amount && Sum([office]) == office.amount;
    var g := Group(office.category, office.amount);
    assert Groups([office]) == [g];
    var m := Group(office.category, Abs(office.amount));
    assert Magnitudes([g]) == [m];
    assert [m][1..] == [];
    assert SortDesc([m]) == Insert(m, []);
  }

  /**
    Two expense categories met smaller-magnitude first, with an unclassified
    row between them: the breakdown skips that row and lists the larger
    magnitude first, whatever the signs of the amounts.
   */
  lemma TwoExpenseBreakdown(small: Row, other: Row, large: Row)
    requires IsExpense(small.category) && IsExpense(large.category) && !IsExpense(other.category)
    requires small.category != large.category
    requires Abs(small.amount) < Abs(large.amount)
    ensures ExpenseBreakdown([small, other, large]) ==
      [Group(large.category, Abs(large.amount)), Group(small.category, Abs(small.amount))]
  {
    ExpenseRowsSkipOther(small, other, large);
    var gs, gl := Group(small.category, small.amount), Group(large.category, large.amount);
    GroupsOfTwo(small, large);
    var ms, ml := Group(small.category, Abs(small.amount)), Group(large.category, Abs(large.amount));
    assert Magnitudes([gs, gl]) == [ms, ml];
    SortTwoDescending(ms, ml);
  }

  lemma ExpenseRowsSkipOther(small: Row, other: Row, large: Row)
    requires IsExpense(small.category) && IsExpense(large.category) && !IsExpense(other.category)
    ensures Where([small, other, large], IsExpenseRow) == [small, large]
  {
    var rows := [small, other, large];
    assert rows[..2] == [small, other];
    assert [small, other][..1] == [small];
    assert [small][..0] == [];
    assert Where([small], IsExpenseRow) == [small];
    assert Where([small, other], IsExpenseRow) == [small] + [];
  }

  /** Two rows of different categories form two groups, in their order. */
  lemma GroupsOfTwo(a: Row, b: Row)
    requires a.category != b.category
    ensures Groups([a, b]) == [Group(a.category, a.amount), Group(b.category, b.amount)]
  {
    assert [a, b][..1] == [a];
    assert [a][..0] == [];
    var ga := Group(a.category, a.amount);
    assert Groups([a]) == [ga];
    assert [ga][1..] == [];
    assert AddTo([ga], b) == [ga] + AddTo([], b);
  }

  /** Sorting two groups of different totals puts the larger total first, in either input order. */
  lemma SortTwoDescending(m: Group, l: Group)
    requires m.total < l.total
    ensures SortDesc([m, l]) == [l, m]
    ensures SortDesc([l, m]) == [l, m]
  {
    assert [m, l][1..] == [l] && [l][1..] == [];
    assert SortDesc([l]) == Insert(l, []) == [l];
    assert Insert(m, [l]) == [l] + Insert(m, []);
    assert [l, m][1..] == [m] && [m][1..] == [];
    assert SortDesc([m]) == Insert(m, []) == [m];
    assert Insert(l, [m]) == [l, m];
  }

  /**
    The ledger Travel Cost -50, Rent -100, Office Supplies -250: Rent is not an
    expense, and the breakdown lists Office Supplies 250 before Travel Cost 50.
   */
  lemma ThreeExpenseLedger(travel: Row, rent: Row, supplies: Row)
    requires travel == Row("Travel Cost", -50.0)
    requires rent == Row("Rent", -100.0)
    requires supplies == Row("Office Supplies", -250.0)
    ensures var b := ExpenseBreakdown([travel, rent, supplies]);
      && |b| == 2
      && b[0].category == "Office Supplies" && b[0].total == 250.0
      && b[1].category == "Travel Cost" && b[1].total == 50.0
  {
    TravelCostIsExpense(travel.category);
    RentIsUnclassified(rent.category);
    OfficeSuppliesIsExpense(supplies.category);
    TwoExpenseBreakdown(travel, rent, supplies);
  }

  lemma OfficeExpenseIndented(c: string)
    requires c == "Office Expense"
    ensures "  " + c == "  Office Expense"
  {
  }

  /** With a single breakdown entry the statement has nine lines. */
  lemma ScenarioLayout(revenue: real, g: Group, expenseSum: real, netIncome: real)
    ensures Layout(revenue, [g], expenseSum, netIncome) == [
      Line("Revenues:", Blank), Line("  Sales Revenue", Value(revenue)), SPACER,
      Line("Expenses:", Blank), Line("  " + g.category, Value(g.total)), SPACER,
      Line("Total Expenses", Value(-expenseSum)), SPACER, Line("NET INCOME (LOSS)", Value(netIncome))]
  {
    assert CategoryLines([g]) == [Line("  " + g.category, Value(g.total))];
  }

}
