# Budget categories and the spend chart, in Dafny

`budget.py` keeps budget categories. A category has a name and a ledger of
entries, each an amount with a description. Deposits append an entry as it
is. Withdrawals append the negated amount, but only when the balance covers
it. Transfers withdraw from one category and deposit into another. The
balance is the sum of the ledger. A category prints as a fixed-width
statement: a centred title, one line per entry and a total. The free function
`create_spend_chart` draws a text bar chart. It shows what each category
spent as a share of everyone's spending, truncated to whole percent. The bars
are drawn in 11 rows, from 100 down to 0. The category names are written
vertically below them.

The model has five modules:

- `Text` (text.dfy): the fixed-width formatting budget.py uses, written out
  as functions. This covers centring with a fill character, padding, cutting
  to a width, two-decimal rendering of a cent amount, joining and splitting
  lines, and the inverses used to read values back.
- `Ledger` (ledger.dfy): entries, balances, spent and received sums, and the
  ledger that a history of deposits and withdrawals leaves behind.
- `Report` (report.dfy): the category statement as a function of the name and
  the ledger, and its line structure.
- `Budget` (category.dfy): the class `Category`. It keeps the name and the
  ledger, and its methods append to the ledger in place. `Render` builds the
  statement with the loop of budget.py and is proved equal to `Report.Statement`.
- `Chart` (chart.dfy): the spend chart as a function `SpendChart` with its
  two failure cases. `CreateSpendChart` builds the same text with the loops
  of budget.py over a list of `Category` objects.

Amounts are integer cents, so 10.15 is the entry amount 1015. A percentage is
the exact quotient `spent * 100 / total`, truncated toward zero as Python's
`int` truncates. The two inputs budget.py cannot chart are modelled as
errors: an empty list, where `max` of no name lengths raises, and a list with
no spending at all, where the percentage divides by zero.

## Model

| member | source | states |
|---|---|---|
| Budget.Category.constructor | budget.py:3-5 | a new category has the given name, an empty ledger and balance 0 |
| Budget.Category.Deposit | budget.py:8-13 | the description defaults to the empty string; appends exactly one entry with the amount and description unchanged; earlier entries stay; the balance rises by the amount |
| Budget.Category.Withdraw | budget.py:15-25 | the description defaults to the empty string; succeeds iff the amount is at most the old balance (equal is enough); on success appends exactly the negated amount and leaves a balance of old minus amount, which is non-negative; on failure the ledger is unchanged |
| Budget.Category.GetBalance | budget.py:28-32 | the balance is the sum of all ledger amounts (`Ledger.Balance`, additive by `Ledger.BalanceConcat`): what was received plus what was spent, so never more than what was received, and 0 for an empty ledger |
| Budget.Category.CheckFunds | budget.py:50-61 | true iff recording the withdrawal would leave the balance non-negative |
| Budget.Category.Transfer | budget.py:35-46 | succeeds iff the source's funds cover the amount; on success the source gets one entry "Transfer to <dest>" of minus the amount and the destination one entry "Transfer from <source>" of the amount; the sum of the two balances is preserved; on failure neither ledger changes; transferring to the category itself puts both entries on its ledger and leaves its balance unchanged |
| Budget.Category.Render | budget.py:64-81 | the loop-built statement equals `Report.Statement` of the name and ledger |
| Ledger.BalanceConcat | budget.py:28-32 | the balance of two ledgers one after the other is the sum of their balances; a one-entry ledger's balance is its amount |
| Ledger.BalanceIsReceivedPlusSpent | budget.py:103 | the balance is what was received plus what was spent, so it is never more than what was received |
| Ledger.NothingSpentIff | budget.py:103 | a category's spending is 0 iff none of its entries is negative |
| Ledger.ReplayNeverOverdrawn | budget.py:15-25 | after any sequence of deposits and guarded withdrawals with non-negative deposits, the balance is non-negative |
| Text.Center | budget.py:75 | a name shorter than the width is centred in exactly that width, with half the fill rounded down on the left and the rest (equal or one more) on the right; a longer name is kept whole |
| Text.FitLeft | budget.py:78 | exactly `width` characters: the description cut there, or the description followed by spaces |
| Text.PadLeft | budget.py:78 | the text right-justified with the fill character; a wider text is kept whole |
| Text.Fixed2RoundTrip | budget.py:78-79 | the two-decimal rendering of a cent amount reads back as that amount |
| Text.ParseNatToString | budget.py:113 | the decimal numeral of a number reads back as that number |
| Report.StatementIsLines | budget.py:75-81 | the statement is the title, one line per entry in ledger order and the total, joined by single newlines: ledger length + 2 lines |
| Report.StatementLineCount | budget.py:75-81 | when no name or description contains a newline, splitting the statement at newlines gives exactly those ledger length + 2 lines |
| Report.EntryLineLayout | budget.py:77-78 | an entry line is the description cut or space-padded to 23 columns, and from column 23 on it is the two-decimal amount right-justified in 7 columns; a wider amount widens the line; the line is 30 wide when the amount fits |
| Report.EntryAmountReadsBack | budget.py:78 | the amount reads back exactly from the columns after the description |
| Report.TotalLineReadsBack | budget.py:79 | the last line is "Total: " followed by the balance, which reads back exactly |
| Chart.SumOfNonPositive | budget.py:103-105 | the total of the per-category spending is not positive, is at most each category's spending, and is 0 iff every category's is 0 |
| Chart.SpendChartFailures | budget.py:103-124 | the chart fails with NoCategories iff the list is empty, and with NothingSpent iff the list is non-empty and no category has a negative entry |
| Chart.TruncDivIsTruncation | budget.py:108 | the percentage computation rounds the exact quotient toward zero |
| Chart.PercentagesInRange | budget.py:103-108 | whenever something was spent, every percentage is between 0 and 100 and together they add up to at most 100 |
| Chart.BarRowShape | budget.py:112-119 | there are 11 bar rows; row k is 3 * n + 5 characters long, has '|' in column 3 and a space at the end, and its axis label, spaces stripped, is the numeral of 100 - 10k |
| Chart.BarColumn | budget.py:114-118 | category j's cell in row k is " o " iff its percentage reaches the row's level, which is the same as its percentage rounded down to a multiple of 10 reaching it; the 0 row has " o " for every category |
| Chart.RuleShape | budget.py:122 | the rule is 4 spaces and then 3 * n + 1 dashes, as wide as a bar row |
| Chart.MaxNameLength | budget.py:124 | at least every name's length, and equal to one of them |
| Chart.LabelColumn | budget.py:124-131 | there is one label row per character of the longest name; each row is 3 * n + 5 wide and starts with 5 spaces; name j's i-th character (or a space below its end) is in column 5 + 3j, followed by two spaces |
| Chart.ChartIsLines | budget.py:110-134 | the chart is the heading, the 11 bar rows, the rule and the label rows joined by newlines, 13 + longest-name-length lines; when every name is empty the rule still ends with a newline |
| Chart.ChartLineCount | budget.py:110-134 | when some name is non-empty and no name contains a newline, splitting the chart at newlines gives exactly those 13 + longest-name-length lines |
| Chart.DrawCells | budget.py:114-118 | the inner loop produces, for each category in order, " o " when its percentage reaches the level and blanks otherwise |
| Chart.DrawBars | budget.py:112-119 | the bar loop produces the 11 bar rows, each followed by a newline |
| Chart.DrawLabelCells | budget.py:127-131 | the inner label loop produces each name's i-th character and two spaces, or three spaces past its end |
| Chart.DrawLabels | budget.py:125-134 | the label loop produces the label rows with a newline between rows and none after the last |
| Chart.CreateSpendChart | budget.py:86-138 | the loop-built result over a list of categories equals `SpendChart` of their names and ledgers, including both failures |

## Left out

- Floating point. Amounts are integer cents, and the balance is an exact integer sum, not Python's float `sum`.
- Chart.CreateSpendChart: each percentage is the exact quotient truncated toward zero. The source computes `(spent/total)*100` in floating point. When the exact value is a whole number, that result can fall just below it and truncate one lower. This float artefact is not modelled.
- Python's format mini-language is covered only for what the source uses: `*^30` centring, `[:23]` with `:23` cut-and-pad, `7.2f` and `.2f` for a cent amount, and `:3` for the axis label.
- Budget.Category.Deposit: the `None` that `list.append` returns is not modelled, because the method has no result.
- Input validation: the source has none, and the model adds none. Negative deposits and negative withdrawal amounts are accepted. A negative withdrawal passes the funds check whenever the balance is not below it, and then adds money.
- Concurrency: the source is single-threaded, and nothing about atomicity is modelled.
- Chart.CreateSpendChart: reads each category's name and ledger through `Chart.Views`, a snapshot of values. The source's nested loops are split into the helper methods `DrawBars`, `DrawCells`, `DrawLabels` and `DrawLabelCells`. They build the string in the same order. When the list is empty, the model builds the bar rows and the rule and then fails, as budget.py does when `max` gets no name lengths.
- Chart.ChartLineCount: only for names that contain no newline and with at least one non-empty name. Otherwise reading the text back does not recover the rows, and `Chart.ChartIsLines` describes the text instead.
