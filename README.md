# Income statement generator — a Dafny model

The program reads a ledger of transactions (one row per transaction, with a
free-text Category and an Amount) and writes a short income statement. It
works in three stages, all inside `generate_income_statement`:

1. **Cleaning.** It coerces the Amount column to numbers and drops every row
   whose amount does not coerce. It takes the Category column as text.
2. **Classification and aggregation.**
   - A row is *revenue* when its category contains "revenue", ignoring case.
   - It is an *expense* when its category contains "expense", "cost" or
     "supplies", ignoring case.
   - The revenue total is the sum of the revenue rows. The expense sum is the
     sum of the expense rows, which are negative by convention.
   - Net income is revenue plus the expense sum.
   - The expense rows are grouped by exact category. Each group's sum is taken
     as a magnitude, and the groups are sorted from largest to smallest.
3. **Assembly.** The statement is a list of (line item, amount) lines. In order:
   - "Revenues:", then "  Sales Revenue" with the revenue total;
   - a spacer, then "Expenses:";
   - one indented line per expense category, in sorted order;
   - a spacer, then "Total Expenses" with the negated expense sum;
   - a spacer, then "NET INCOME (LOSS)".

The model has five modules:

| module | file | contents |
|---|---|---|
| `Wrappers` | `wrappers.dfy` | `Option` |
| `Ledger` | `ledger.dfy` | the cleaning step, as the function `Cleaned` and the loop `CleanTable` |
| `Classify` | `classify.dfy` | ASCII case folding, substring search and the two classifiers |
| `Aggregate` | `aggregate.dfy` | selection, sums, group-by, the descending sort and the expense breakdown |
| `Report` | `report.dfy` | the statement layout, the line-by-line builder `BuildStatement` and the whole pipeline `GenerateIncomeStatement` |

The pipeline reads a table and appends lines one at a time. Both of those
steps are methods with loops, proved equal to the specification functions
`Cleaned` and `Layout`. The properties are lemmas about those functions.

The definitions that model the program's expressions are:

- `Ledger.Cleaned`: the coercion and row dropping (generate_report.py:35-37);
- `Classify.IsRevenue`: the revenue mask (generate_report.py:45);
- `Aggregate.TotalRevenue`: the revenue total (generate_report.py:46);
- `Classify.IsExpense`: the expense mask (generate_report.py:50);
- `Aggregate.ExpenseSum`: the expense sum (generate_report.py:51);
- `Aggregate.ExpenseBreakdown`: the expense breakdown (generate_report.py:54), built from `Groups`, `Magnitudes` and `SortDesc`;
- `Aggregate.NetIncome`: net income (generate_report.py:57);
- `Report.Layout`: the statement's lines (generate_report.py:60-85);
- `Report.IncomeStatement`: the whole computation from the raw table (generate_report.py:35-85).

The input file's text may hold a number or arbitrary text. Coercing that text
is left to a parameter, `parse: string -> Option<real>`. `None` stands for the
NaN that `pd.to_numeric(..., errors='coerce')` produces.

A category such as "Rent" contains none of the expense keywords, so the
program never classifies it as an expense and it never reaches the breakdown.
`Classify.RentIsUnclassified` proves this, and `Report.ThreeExpenseLedger`
shows a rent row left out of a breakdown.

## Model

| member | source | states |
|---|---|---|
| Ledger.CleanedSelection | generate_report.py:35-37 | The cleaned rows are exactly the raw rows whose amount coerces, none missing and none extra. They keep their original order and category, and carry the coerced number as their amount. |
| Ledger.CleanedAppend | generate_report.py:35-37 | Cleaning is row-wise: cleaning a concatenation gives the concatenation of the cleaned parts. |
| Ledger.CleanedDropsUnparseable | generate_report.py:35-37 | Inserting a row whose amount does not coerce, at any position, leaves the cleaned table unchanged. |
| Ledger.CleanedNothingNumeric | generate_report.py:35-37 | If no amount coerces (in particular for an empty table), the cleaned table is empty. |
| Ledger.CleanTable | generate_report.py:35-40 | The cleaning loop returns exactly the cleaned table `Cleaned` specifies. |
| Classify.Lower | generate_report.py:45 | Lower-casing keeps the length and maps each character through ASCII case folding. |
| Classify.ContainsIff | generate_report.py:45 | The left-to-right substring scan succeeds exactly when the keyword occurs at some position of the text. |
| Classify.MissingCharNotContained | generate_report.py:50 | A keyword one of whose characters is absent from the text is not found in it. |
| Classify.ClassificationIgnoresCase | generate_report.py:45-50 | A category is revenue exactly when "revenue" matches it at some position, comparing letters without regard to case. It is an expense exactly when "expense", "cost" or "supplies" matches that way. |
| Classify.SameClassUpToCase | generate_report.py:45-50 | Two categories that differ only in letter case fall into the same classes. |
| Classify.RevenueSpellings | generate_report.py:45 | "REVENUE", "Revenue" and "revenue" are all revenue. |
| Classify.CostOfRevenueIsBoth | generate_report.py:45-50 | "Cost of Revenue" is both revenue and an expense, so the two classes overlap. |
| Classify.NoExpenseLetters | generate_report.py:50 | Text with no x, c or p in either case is never an expense. |
| Classify.SalesRevenueIsRevenueOnly | generate_report.py:45-50 | "Sales Revenue" is revenue and not an expense. |
| Classify.OfficeExpenseIsExpenseOnly | generate_report.py:45-50 | "Office Expense" is an expense and not revenue. |
| Classify.TravelCostIsExpense | generate_report.py:50 | "Travel Cost" is an expense. |
| Classify.OfficeSuppliesIsExpense | generate_report.py:50 | "Office Supplies" is an expense. |
| Classify.RentIsUnclassified | generate_report.py:45-50 | "Rent" is neither revenue nor an expense, so it enters no total. |
| Aggregate.WhereMembers | generate_report.py:45 | A row filter keeps exactly the rows that pass its test, each as many times as it occurs in the table. Duplicate rows are all kept, and a failing row is dropped entirely. |
| Aggregate.WhereCounts | generate_report.py:50 | The number of copies of each row after filtering equals its number in the table when it passes the test, and 0 otherwise. |
| Aggregate.WhereAppend | generate_report.py:50 | Filtering distributes over concatenation. |
| Aggregate.SumAppend | generate_report.py:46 | The sum of a concatenation is the sum of the sums. |
| Aggregate.RowContribution | generate_report.py:45-57 | One more row adds its amount to the revenue total when it is revenue, and to the expense sum when it is an expense. Net income then grows by the amount once per class the row belongs to. |
| Aggregate.TotalsAppend | generate_report.py:45-57 | Revenue, expense sum and net income are additive over concatenated ledgers. |
| Aggregate.OverlapCountsTwice | generate_report.py:45-57 | A row that is both revenue and an expense is counted in both totals, so it contributes twice its amount to net income. |
| Aggregate.NonPositiveSum | generate_report.py:49-51 | A sum of non-positive amounts is non-positive. |
| Aggregate.NetIncomeAsDifference | generate_report.py:49-57 | When expenses are recorded as negative amounts, the expense sum is non-positive. Net income is then revenue minus the magnitude of the expenses. |
| Aggregate.CategoryTotalAbsent | generate_report.py:54 | A category that no row carries totals 0. |
| Aggregate.KeysCons | generate_report.py:54 | The categories of a grouping with a group in front are that group's category plus the rest. |
| Aggregate.DistinctCons | generate_report.py:54 | A grouping with a group in front has distinct categories exactly when the rest does and the front category is new. |
| Aggregate.AddToShape | generate_report.py:54 | Adding a row to a grouping keeps the categories distinct. It adds exactly the row's category, and it raises the total over all groups by the row's amount. |
| Aggregate.AddToTotals | generate_report.py:54 | Take a grouping with distinct categories in which every group holds its category's sum over the rows, and suppose the new row's category, if not yet grouped, sums to 0 over those rows. Adding the row gives a grouping whose groups hold the sums over the extended rows. |
| Aggregate.GroupsFacts | generate_report.py:54 | Group-by yields one group per distinct category and no other. Each group holds the sum of its category's amounts, and the group totals add up to the sum of all rows. |
| Aggregate.GroupsShape | generate_report.py:54 | Group-by yields distinct categories, exactly the categories of the rows, and group totals adding up to the sum of all rows. |
| Aggregate.GroupsTotals | generate_report.py:54 | Each group holds the sum of the amounts of its category's rows. |
| Aggregate.InsertPermutes | generate_report.py:54 | Inserting into a sorted list adds exactly the new group to the multiset of groups. |
| Aggregate.InsertSorted | generate_report.py:54 | Inserting into a list sorted by descending total keeps it sorted. |
| Aggregate.SortDescFacts | generate_report.py:54 | The descending sort returns a permutation of its input, sorted by non-increasing total. It keeps the categories, their distinctness and the total over all groups. |
| Aggregate.MagnitudesFacts | generate_report.py:54 | Taking absolute values keeps the categories and their distinctness. Over non-positive totals it negates the total over all groups. |
| Aggregate.DistinctCardinality | generate_report.py:54 | A grouping with distinct categories has as many groups as categories. |
| Aggregate.ExpenseCategoryTotal | generate_report.py:50-54 | For an expense category, summing over the expense rows gives the same total as summing over all rows. |
| Aggregate.BreakdownShape | generate_report.py:50-54 | The breakdown's categories are distinct and are exactly the expense categories of the ledger, sorted by descending magnitude. |
| Aggregate.BreakdownValues | generate_report.py:50-54 | Each breakdown entry holds the absolute value of its category's sum. |
| Aggregate.BreakdownSpec | generate_report.py:50-54 | The breakdown has exactly one entry per distinct expense category, holding the absolute value of that category's sum, and only those entries. Its order is non-increasing. |
| Aggregate.TotalExpensesMatchBreakdown | generate_report.py:50-54 | When expenses are recorded as negative amounts, the breakdown's magnitudes add up to the figure shown as Total Expenses, and that figure is non-negative. |
| Report.CategoryLines | generate_report.py:72-73 | One line per breakdown entry, in its order, labelled with the category indented by two spaces and carrying its magnitude. |
| Report.BuildStatement | generate_report.py:60-85 | The line-by-line builder produces exactly the statement layout. |
| Report.GenerateIncomeStatement | generate_report.py:35-85 | The whole pipeline (clean, aggregate, build) produces the income statement of the raw table. |
| Report.LayoutShape | generate_report.py:60-85 | The statement has 8 lines plus one per breakdown entry. Each fixed line and each breakdown line is at its position with its amount. |
| Report.SingleLine | generate_report.py:60-85 | A line item found at one position and nowhere else occurs exactly once. |
| Report.IndentedNotFixed | generate_report.py:64-73 | A category line other than "  Sales Revenue" is neither a fixed line item nor a spacer. |
| Report.LayoutItemsOnce | generate_report.py:60-85 | When the breakdown's categories are distinct and none of them is "Sales Revenue", each fixed line item and each category line occurs exactly once. Every other line is a spacer. |
| Report.LayoutLineKinds | generate_report.py:60-85 | Every line is a spacer, a fixed line item or the line of a breakdown category. |
| Report.StatementItems | generate_report.py:35-85 | For any ledger, the statement has 8 lines plus one per distinct expense category. Each fixed line item occurs once, and each expense category occurs on exactly one line. |
| Report.StatementFigures | generate_report.py:56-85 | The "  Sales Revenue" figure is the revenue total of the cleaned ledger. The NET INCOME (LOSS) figure is the Sales Revenue figure minus the Total Expenses figure. |
| Report.LayoutFigures | generate_report.py:64-85 | Line 1 carries the revenue, the third-to-last line the negated expense sum, and the last line the net income. |
| Report.NothingNumeric | generate_report.py:35-85 | A ledger in which no amount coerces (including an empty one) gives zero totals, an empty breakdown and the bare 8-line skeleton. |
| Report.EmptyLayout | generate_report.py:60-85 | With zero figures and no breakdown, the layout is the 8-line skeleton. |
| Report.UnparseableRowIgnored | generate_report.py:35-85 | A row whose amount does not coerce, wherever it stands, leaves the whole statement unchanged. |
| Report.ThreeRowLedger | generate_report.py:35-85 | A sale of 1000, an office expense of -200 and a row with amount "oops" give revenue 1000, one breakdown line "  Office Expense" of 200, Total Expenses 200 and net income 800. |
| Report.TwoRowAggregates | generate_report.py:45-57 | For the two-row ledger of a revenue-only row followed by an expense-only row, the revenue total and the expense sum are their amounts. The breakdown is the expense row's category with its magnitude. |
| Report.ExpenseRowsSkipOther | generate_report.py:50 | The expense filter over three rows, of which only the middle one is not an expense, keeps the outer two in order. |
| Report.GroupsOfTwo | generate_report.py:54 | Two rows of different categories form two groups in order of appearance, each holding its row's amount. |
| Report.SortTwoDescending | generate_report.py:54 | Sorting two groups whose totals differ, given in either order, puts the one with the larger total first. |
| Report.TwoExpenseBreakdown | generate_report.py:50-54 | Take two expense rows of different categories whose magnitudes differ, the smaller first, with a non-expense row between them. The amounts may have either sign. The breakdown skips the middle row and lists the two categories with their magnitudes, larger first. |
| Report.ThreeExpenseLedger | generate_report.py:50-54 | For the ledger Travel Cost -50, Rent -100, Office Supplies -250, the breakdown is Office Supplies 250 followed by Travel Cost 50. Rent is absent, and the sort reverses the order of appearance. |
| Report.ScenarioLayout | generate_report.py:60-85 | With a single breakdown entry the statement is the nine lines in the program's order. |

## Left out

- A table without an Amount or a Category column makes the program stop with an uncaught `KeyError` (generate_report.py:35, :37 and :40), unlike the read and write errors, which are caught. Each row of the model (`Ledger.RawRow`) has both fields, so the model starts from a table that has both columns and does not model this crash.
- Reading the spreadsheet, and the checks for a missing or unreadable file (generate_report.py:16-31): file I/O is outside the model. The model starts from the table already read.
- Writing the statement to a spreadsheet, and its error path (generate_report.py:87-101): file I/O. The model ends with the list of lines.
- Console output, including the progress messages and previews: it has no effect on the result.
- Ledger.ToNumeric: the grammar of numeric text that `pd.to_numeric` accepts is not modelled. The parse function is a parameter, and `None` stands for NaN. A numeric cell that already holds NaN is modelled as `Empty`.
- Amounts are exact reals. Floating-point rounding in the sums and the negation is not modelled.
- Classify.Lower: case folding is modelled for ASCII letters only. The full Unicode case-insensitive matching of `str.contains(..., case=False)` is not modelled.
- Classification sees categories as they stand. The `astype(str)` conversion (generate_report.py:40) of non-text cells (numbers, and a missing category becoming "nan") is outside the model.
- Aggregate.SortDesc: the model builds groups in order of first appearance and sorts them with an insertion sort. Among categories with equal magnitudes, this order is the model's own choice. pandas sorts the group keys and then runs an unstable sort, and that tie order is not modelled. The statement's other properties do not depend on it.
- Columns of the table other than Category and Amount (such as the date) are dropped, because no step uses them.
