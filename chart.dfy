/** The spend chart over a list of categories: each category's spending (its
    negative entries only) as a truncated percentage of everyone's spending,
    drawn as 11 rows of 'o' bars labelled 100 down to 0, a rule, and the
    category names written vertically below their bars. */
module Chart {
  import opened Text
  import opened Ledger
  import opened Budget

  /** The two inputs budget.py cannot chart: it fails taking the maximum
      name length of no categories, and divides by zero when nothing was spent. */
  datatype ChartError = NoCategories | NothingSpent

  datatype Result<T> = Ok(value: T) | Err(error: ChartError)

  const Heading := "Percentage spent by category"
  const BarRowCount: nat := 11

  function Views(cs: seq<Category>): seq<Snapshot>
    reads cs
  {
    seq(|cs|, i requires 0 <= i < |cs| reads cs => Snapshot(cs[i].name, cs[i].ledger))
  }

  function Names(cats: seq<Snapshot>): seq<string>
  {
    seq(|cats|, i requires 0 <= i < |cats| => cats[i].name)
  }

  function SpentPerCategory(cats: seq<Snapshot>): seq<int>
  {
    seq(|cats|, i requires 0 <= i < |cats| => Spent(cats[i].ledger))
  }

  function Sum(xs: seq<int>): int
  {
    if xs == [] then 0 else Sum(xs[..|xs| - 1]) + xs[|xs| - 1]
  }

  /** Python's `int(a / b)`: the exact quotient truncated toward zero. */
  function TruncDiv(a: int, b: int): int
    requires b != 0
  {
    var m := Abs(a) / Abs(b);
    if (a < 0) == (b < 0) then m else -m
  }

  /** `TruncDiv` rounds the exact quotient toward zero: its magnitude is the
      largest whole number of times |b| fits in |a|, and its sign is the
      quotient's. */
  lemma TruncDivIsTruncation(a: int, b: int)
    requires b != 0
    ensures var q := TruncDiv(a, b);
      && Abs(q) * Abs(b) <= Abs(a) < (Abs(q) + 1) * Abs(b)
      && (q == 0 || (q < 0 <==> (a < 0) != (b < 0)))
  {
    var m := Abs(a) / Abs(b);
    DivBounds(Abs(a), Abs(b));
    assert Abs(TruncDiv(a, b)) == m;
  }

  lemma DivBounds(x: nat, y: nat)
    requires y > 0
    ensures (x / y) * y <= x < (x / y + 1) * y
  {
    var m := x / y;
    assert x == m * y + x % y;
    assert (m + 1) * y == m * y + y;
  }

  function Percentage(spent: int, total: int): int
    requires total != 0
  {
    TruncDiv(spent * 100, total)
  }

  function Percentages(spent: seq<int>, total: int): seq<int>
    requires total != 0
  {
    seq(|spent|, i requires 0 <= i < |spent| => Percentage(spent[i], total))
  }

  // ------------------------------------------------------------------ layout

  function Cell(level: int, pct: int): string
  {
    if pct >= level then " o " else "   "
  }

  function Cells(level: int, pcts: seq<int>): (r: string)
    ensures |r| == 3 * |pcts|
  {
    if pcts == [] then "" else Cells(level, pcts[..|pcts| - 1]) + Cell(level, pcts[|pcts| - 1])
  }

  /** The axis label of a bar row: the level right-justified in 3 columns. */
  function Axis(level: nat): string
  {
    PadLeft(NatToString(level), 3, ' ')
  }

  function Level(row: nat): (level: nat)
    requires row < BarRowCount
    ensures level <= 100
  {
    100 - 10 * row
  }

  function BarRow(level: nat, pcts: seq<int>): string
  {
    Axis(level) + "|" + Cells(level, pcts) + " "
  }

  function BarRows(pcts: seq<int>): seq<string>
  {
    seq(BarRowCount, k requires 0 <= k < BarRowCount => BarRow(Level(k), pcts))
  }

  function Rule(n: nat): string
  {
    "    " + RepeatString("---", n) + "-"
  }

  function LabelCell(name: string, i: nat): string
  {
    if i < |name| then [name[i]] + "  " else "   "
  }

  function LabelCells(i: nat, names: seq<string>): (r: string)
    ensures |r| == 3 * |names|
  {
    if names == [] then "" else LabelCells(i, names[..|names| - 1]) + LabelCell(names[|names| - 1], i)
  }

  function LabelRow(i: nat, names: seq<string>): string
  {
    "     " + LabelCells(i, names)
  }

  /** The length of the longest name (Python's `max` of the name lengths). */
  function MaxNameLength(names: seq<string>): (m: nat)
    requires |names| > 0
    ensures forall j :: 0 <= j < |names| ==> |names[j]| <= m
    ensures exists j :: 0 <= j < |names| && |names[j]| == m
  {
    if |names| == 1 then |names[0]|
    else Max(MaxNameLength(names[..|names| - 1]), |names[|names| - 1]|)
  }

  function LabelRows(names: seq<string>): seq<string>
    requires |names| > 0
  {
    seq(MaxNameLength(names), i requires 0 <= i < MaxNameLength(names) => LabelRow(i, names))
  }

  /** The chart exactly as budget.py assembles it: heading and bar rows and
      rule each ended by '\n', then the label rows joined by '\n'. */
  function ChartText(names: seq<string>, pcts: seq<int>): string
    requires |names| > 0
  {
    Heading + "\n" + Terminated(BarRows(pcts)) + Rule(|names|) + "\n" + Join(LabelRows(names))
  }

  function SpendChart(cats: seq<Snapshot>): Result<string>
  {
    if |cats| == 0 then Err(NoCategories)
    else
      var spent := SpentPerCategory(cats);
      var total := Sum(spent);
      if total == 0 then Err(NothingSpent)
      else Ok(ChartText(Names(cats), Percentages(spent, total)))
  }

  // -------------------------------------------------------------- properties

  lemma {:induction false} SumOfNonPositive(xs: seq<int>)
    requires forall i :: 0 <= i < |xs| ==> xs[i] <= 0
    ensures Sum(xs) <= 0
    ensures forall i :: 0 <= i < |xs| ==> Sum(xs) <= xs[i]
    ensures Sum(xs) == 0 <==> forall i :: 0 <= i < |xs| ==> xs[i] == 0
  {
    if xs != [] {
      var init := xs[..|xs| - 1];
      assert forall i :: 0 <= i < |init| ==> init[i] == xs[i];
      SumOfNonPositive(init);
    }
  }

  /** budget.py fails on exactly two kinds of input: no categories at all,
      and categories none of which has a negative entry. */
  lemma SpendChartFailures(cats: seq<Snapshot>)
    ensures SpendChart(cats) == Err(NoCategories) <==> |cats| == 0
    ensures SpendChart(cats) == Err(NothingSpent) <==>
      |cats| > 0 && forall i, k :: 0 <= i < |cats| && 0 <= k < |cats[i].ledger| ==> cats[i].ledger[k].amount >= 0
  {
    var spent := SpentPerCategory(cats);
    SumOfNonPositive(spent);
    forall i | 0 <= i < |cats|
      ensures spent[i] == 0 <==> forall k :: 0 <= k < |cats[i].ledger| ==> cats[i].ledger[k].amount >= 0
    {
      NothingSpentIff(cats[i].ledger);
    }
    assert SpendChart(cats) == Err(NothingSpent) <==> |cats| > 0 && Sum(spent) == 0;
  }

  lemma MulCancel(x: int, y: int, b: int)
    requires b > 0 && x * b <= y * b
    ensures x <= y
  {
  }

  lemma PercentageOfShare(spent: int, total: int)
    requires total < 0 && spent <= 0
    ensures Percentage(spent, total) == (-spent * 100) / (-total)
    ensures Percentage(spent, total) * (-total) <= -spent * 100
  {
    var a := -spent * 100;
    var b := -total;
    assert Abs(spent * 100) == a && Abs(total) == b;
    if spent == 0 {
      assert a == 0;
      assert a / b == 0;
    }
    assert TruncDiv(spent * 100, total) == a / b;
    DivBounds(a, b);
  }

  lemma PercentagesSnoc(xs: seq<int>, total: int)
    requires total != 0 && xs != []
    ensures Sum(Percentages(xs, total))
      == Sum(Percentages(xs[..|xs| - 1], total)) + Percentage(xs[|xs| - 1], total)
  {
    var init := Percentages(xs[..|xs| - 1], total);
    var p := Percentage(xs[|xs| - 1], total);
    assert Percentages(xs, total) == init + [p];
    assert (init + [p])[..|init|] == init;
  }

  lemma AddThenScale(s: int, p: int, b: int)
    ensures (s + p) * b == s * b + p * b
  {
  }

  lemma {:induction false} PercentagesSum(xs: seq<int>, total: int)
    requires total < 0
    requires forall i :: 0 <= i < |xs| ==> xs[i] <= 0
    ensures Sum(Percentages(xs, total)) * (-total) <= 100 * -Sum(xs)
  {
    if xs != [] {
      var init := xs[..|xs| - 1];
      var last := xs[|xs| - 1];
      PercentagesSum(init, total);
      PercentagesSnoc(xs, total);
      PercentageOfShare(last, total);
      AddThenScale(Sum(Percentages(init, total)), Percentage(last, total), -total);
    }
  }

  /** One category's share of the total spending, as a percentage, lies
      between 0 and 100. */
  lemma ShareInRange(spent: int, total: int)
    requires total < 0 && total <= spent <= 0
    ensures 0 <= Percentage(spent, total) <= 100
  {
    var p := Percentage(spent, total);
    var b := -total;
    PercentageOfShare(spent, total);
    assert -spent * 100 <= b * 100;
    assert p * b <= 100 * b;
    MulCancel(p, 100, b);
  }

  /** When the chart can be drawn, every category's percentage lies between 0
      and 100 and together they come to at most 100 (truncation only loses). */
  lemma PercentagesInRange(cats: seq<Snapshot>)
    requires Sum(SpentPerCategory(cats)) != 0
    ensures var spent := SpentPerCategory(cats);
      var pcts := Percentages(spent, Sum(spent));
      && (forall i :: 0 <= i < |pcts| ==> 0 <= pcts[i] <= 100)
      && Sum(pcts) <= 100
  {
    var spent := SpentPerCategory(cats);
    var total := Sum(spent);
    var pcts := Percentages(spent, total);
    SumOfNonPositive(spent);
    forall i | 0 <= i < |pcts|
      ensures 0 <= pcts[i] <= 100
    {
      ShareInRange(spent[i], total);
    }
    PercentagesSum(spent, total);
    var s := Sum(pcts);
    var b := -total;
    assert s * b <= 100 * b;
    MulCancel(s, 100, b);
  }

  lemma {:induction false} CellsAt(level: int, pcts: seq<int>, j: nat)
    requires j < |pcts|
    ensures Cells(level, pcts)[3 * j..3 * j + 3] == Cell(level, pcts[j])
  {
    var init := pcts[..|pcts| - 1];
    var front := Cells(level, init);
    var last := Cell(level, pcts[|pcts| - 1]);
    assert Cells(level, pcts) == front + last;
    if j < |init| {
      CellsAt(level, init, j);
      SliceLeft(front, last, 3 * j, 3 * j + 3);
      assert init[j] == pcts[j];
    } else {
      SliceRight(front, last, 0, 3);
    }
  }

  lemma {:induction false} LabelCellsAt(i: nat, names: seq<string>, j: nat)
    requires j < |names|
    ensures LabelCells(i, names)[3 * j..3 * j + 3] == LabelCell(names[j], i)
  {
    var init := names[..|names| - 1];
    var front := LabelCells(i, init);
    var last := LabelCell(names[|names| - 1], i);
    assert LabelCells(i, names) == front + last;
    if j < |init| {
      LabelCellsAt(i, init, j);
      SliceLeft(front, last, 3 * j, 3 * j + 3);
      assert init[j] == names[j];
    } else {
      SliceRight(front, last, 0, 3);
    }
  }

  lemma AxisWidth(level: nat)
    requires level < 1000
    ensures |Axis(level)| == 3
    ensures StripLeading(Axis(level), ' ') == NatToString(level)
  {
    NatToStringWidth(level);
    StripPadLeft(NatToString(level), 3, ' ');
  }

  lemma BarRowParts(level: nat, pcts: seq<int>)
    requires level < 1000
    ensures |BarRow(level, pcts)| == 3 * |pcts| + 5
    ensures BarRow(level, pcts)[..3] == Axis(level)
    ensures BarRow(level, pcts)[3] == '|' && BarRow(level, pcts)[3 * |pcts| + 4] == ' '
    ensures BarRow(level, pcts)[4..3 * |pcts| + 4] == Cells(level, pcts)
  {
    AxisWidth(level);
  }

  /** Every bar row is 3 columns of level, '|', 3 columns per category and a
      closing space; its axis label, spaces stripped, is the numeral of its
      level, 100 down to 0 (which reads back by `ParseNatToString`). */
  lemma BarRowShape(pcts: seq<int>, k: nat)
    requires k < BarRowCount
    ensures |BarRows(pcts)| == BarRowCount
    ensures |BarRows(pcts)[k]| == 3 * |pcts| + 5
    ensures BarRows(pcts)[k][3] == '|' && BarRows(pcts)[k][3 * |pcts| + 4] == ' '
    ensures StripLeading(BarRows(pcts)[k][..3], ' ') == NatToString(Level(k))
  {
    BarRowAt(pcts, k);
    BarRowParts(Level(k), pcts);
    AxisWidth(Level(k));
  }

  lemma BarRowAt(pcts: seq<int>, k: nat)
    requires k < BarRowCount
    ensures |BarRows(pcts)| == BarRowCount
    ensures 0 <= Level(k) <= 100 && BarRows(pcts)[k] == BarRow(Level(k), pcts)
  {
  }

  lemma BarCell(level: nat, pcts: seq<int>, j: nat)
    requires level < 1000 && j < |pcts|
    ensures BarRow(level, pcts)[4 + 3 * j..7 + 3 * j] == Cell(level, pcts[j])
  {
    AxisWidth(level);
    CellsAt(level, pcts, j);
    CellOfRow(Axis(level) + "|", Cells(level, pcts), j);
  }

  lemma CellOfRow(head: string, cells: string, j: nat)
    requires |head| == 4 && 3 * j + 3 <= |cells|
    ensures (head + cells + " ")[4 + 3 * j..7 + 3 * j] == cells[3 * j..3 * j + 3]
  {
    SliceRight(head, cells, 3 * j, 3 * j + 3);
    SliceLeft(head + cells, " ", 4 + 3 * j, 7 + 3 * j);
  }

  /** Column j of a category is " o " in the rows whose level its percentage
      reaches and blank in the others: the bar is its percentage rounded down
      to a multiple of 10, drawn from that level down to the 0 row. */
  lemma BarColumn(pcts: seq<int>, k: nat, j: nat)
    requires k < BarRowCount && j < |pcts|
    requires 0 <= pcts[j] <= 100
    ensures BarRows(pcts)[k][4 + 3 * j..7 + 3 * j] == (if pcts[j] >= Level(k) then " o " else "   ")
    ensures pcts[j] >= Level(k) <==> Level(k) <= pcts[j] / 10 * 10
    ensures Level(BarRowCount - 1) == 0 && BarRows(pcts)[BarRowCount - 1][4 + 3 * j..7 + 3 * j] == " o "
  {
    BarColumnCell(pcts, k, j);
    BarColumnCell(pcts, BarRowCount - 1, j);
    BarHeight(pcts[j], k);
  }

  lemma BarColumnCell(pcts: seq<int>, k: nat, j: nat)
    requires k < BarRowCount && j < |pcts|
    ensures BarRows(pcts)[k][4 + 3 * j..7 + 3 * j] == Cell(Level(k), pcts[j])
  {
    BarRowAt(pcts, k);
    BarCell(Level(k), pcts, j);
  }

  /** A percentage reaches a level, a multiple of 10, exactly when it does
      once rounded down to a multiple of 10. */
  lemma BarHeight(pct: int, k: nat)
    requires 0 <= pct <= 100 && k < BarRowCount
    ensures pct >= Level(k) <==> Level(k) <= pct / 10 * 10
  {
    var q := pct / 10;
    assert pct == q * 10 + pct % 10;
    assert Level(k) == (10 - k) * 10;
    if pct >= Level(k) {
      assert q >= 10 - k;
    }
  }

  lemma {:induction false} DashesAreRepeated(n: nat)
    ensures RepeatString("---", n) == Repeat('-', 3 * n)
  {
    if n > 0 {
      DashesAreRepeated(n - 1);
      assert Repeat('-', 3 * n) == "---" + Repeat('-', 3 * (n - 1));
    }
  }

  /** The rule is four spaces and then dashes reaching two columns past the
      last bar: the same width as every bar row. */
  lemma RuleShape(n: nat)
    ensures Rule(n) == "    " + Repeat('-', 3 * n + 1)
    ensures |Rule(n)| == 3 * n + 5
  {
    DashesAreRepeated(n);
    assert Repeat('-', 3 * n) + "-" == Repeat('-', 3 * n + 1);
  }

  /** There is one label row per character of the longest name; name j is
      written down column 5 + 3j, blank below its last character. */
  lemma LabelColumn(names: seq<string>, i: nat, j: nat)
    requires |names| > 0 && i < MaxNameLength(names) && j < |names|
    ensures |LabelRows(names)| == MaxNameLength(names)
    ensures |LabelRows(names)[i]| == 3 * |names| + 5
    ensures LabelRows(names)[i][..5] == "     "
    ensures LabelRows(names)[i][5 + 3 * j] == (if i < |names[j]| then names[j][i] else ' ')
    ensures LabelRows(names)[i][6 + 3 * j..8 + 3 * j] == "  "
  {
    assert LabelRows(names)[i] == LabelRow(i, names);
    LabelRowCell(i, names, j);
    LabelCellParts(names[j], i);
    var row := LabelRow(i, names);
    var cell := row[5 + 3 * j..8 + 3 * j];
    assert row[5 + 3 * j] == cell[0];
    assert row[6 + 3 * j..8 + 3 * j] == cell[1..];
  }

  lemma LabelRowCell(i: nat, names: seq<string>, j: nat)
    requires j < |names|
    ensures |LabelRow(i, names)| == 3 * |names| + 5
    ensures LabelRow(i, names)[..5] == "     "
    ensures LabelRow(i, names)[5 + 3 * j..8 + 3 * j] == LabelCell(names[j], i)
  {
    LabelCellsAt(i, names, j);
    SliceRight("     ", LabelCells(i, names), 3 * j, 3 * j + 3);
  }

  lemma LabelCellParts(name: string, i: nat)
    ensures |LabelCell(name, i)| == 3
    ensures LabelCell(name, i)[0] == (if i < |name| then name[i] else ' ')
    ensures LabelCell(name, i)[1..] == "  "
  {
  }

  function ChartLines(names: seq<string>, pcts: seq<int>): seq<string>
    requires |names| > 0
  {
    [Heading] + BarRows(pcts) + [Rule(|names|)] + LabelRows(names)
  }

  /** The chart is the heading, 11 bar rows, the rule and the label rows,
      separated by newlines; when every name is empty the rule still ends
      with a newline. */
  lemma ChartIsLines(names: seq<string>, pcts: seq<int>)
    requires |names| > 0
    ensures |ChartLines(names, pcts)| == 13 + MaxNameLength(names)
    ensures MaxNameLength(names) > 0 ==> ChartText(names, pcts) == Join(ChartLines(names, pcts))
    ensures MaxNameLength(names) == 0 ==>
      ChartText(names, pcts) == Terminated([Heading] + BarRows(pcts) + [Rule(|names|)])
  {
    var bars := BarRows(pcts);
    var front := [Heading] + bars + [Rule(|names|)];
    TerminatedSnoc([Heading] + bars, Rule(|names|));
    assert ([Heading] + bars)[1..] == bars;
    assert Terminated(front) == Heading + "\n" + Terminated(bars) + Rule(|names|) + "\n";
    assert ChartLines(names, pcts) == front + LabelRows(names);
    if MaxNameLength(names) > 0 {
      JoinConcat(front, LabelRows(names));
    }
  }

  lemma {:induction false} CellsNoNewline(level: int, pcts: seq<int>)
    ensures '\n' !in Cells(level, pcts)
  {
    if pcts != [] {
      CellsNoNewline(level, pcts[..|pcts| - 1]);
    }
  }

  lemma BarRowNoNewline(level: nat, pcts: seq<int>)
    requires level < 1000
    ensures '\n' !in BarRow(level, pcts)
  {
    var numeral := NatToString(level);
    assert '\n' !in numeral by {
      forall i | 0 <= i < |numeral| ensures numeral[i] != '\n' {
        assert IsDigit(numeral[i]);
      }
    }
    AbsentAfterPadding('\n', numeral, 3, ' ');
    CellsNoNewline(level, pcts);
  }

  lemma RuleNoNewline(n: nat)
    ensures '\n' !in Rule(n)
  {
    RuleShape(n);
    AbsentFromRepeat('\n', '-', 3 * n + 1);
  }

  lemma {:induction false} LabelCellsNoNewline(i: nat, names: seq<string>)
    requires forall j :: 0 <= j < |names| ==> '\n' !in names[j]
    ensures '\n' !in LabelCells(i, names)
  {
    if names != [] {
      LabelCellsNoNewline(i, names[..|names| - 1]);
      var name := names[|names| - 1];
      if i < |name| {
        assert name[i] in name;
      }
    }
  }

  lemma BarRowsNoNewline(pcts: seq<int>, k: nat)
    requires k < BarRowCount
    ensures '\n' !in BarRows(pcts)[k]
  {
    BarRowAt(pcts, k);
    BarRowNoNewline(Level(k), pcts);
  }

  lemma LabelRowsNoNewline(names: seq<string>, r: nat)
    requires |names| > 0 && r < MaxNameLength(names)
    requires forall j :: 0 <= j < |names| ==> '\n' !in names[j]
    ensures '\n' !in LabelRows(names)[r]
  {
    assert LabelRows(names)[r] == LabelRow(r, names);
    LabelCellsNoNewline(r, names);
  }

  lemma ChartLineNoNewline(names: seq<string>, pcts: seq<int>, i: nat)
    requires |names| > 0 && i < |ChartLines(names, pcts)|
    requires forall j :: 0 <= j < |names| ==> '\n' !in names[j]
    ensures '\n' !in ChartLines(names, pcts)[i]
  {
    var front := [Heading] + BarRows(pcts) + [Rule(|names|)];
    var labels := LabelRows(names);
    assert ChartLines(names, pcts) == front + labels;
    if i < |front| {
      assert ChartLines(names, pcts)[i] == front[i];
      if i == 0 {
        assert front[i] == Heading;
      } else if i <= BarRowCount {
        assert front[i] == BarRows(pcts)[i - 1];
        BarRowsNoNewline(pcts, i - 1);
      } else {
        assert front[i] == Rule(|names|);
        RuleNoNewline(|names|);
      }
    } else {
      assert ChartLines(names, pcts)[i] == labels[i - |front|];
      LabelRowsNoNewline(names, i - |front|);
    }
  }

  /** Read back as text, the chart has exactly 13 lines more than the longest
      name has characters, whenever a name is non-empty and none holds a
      newline of its own. */
  lemma ChartLineCount(names: seq<string>, pcts: seq<int>)
    requires |names| > 0 && MaxNameLength(names) > 0
    requires forall j :: 0 <= j < |names| ==> '\n' !in names[j]
    ensures Split(ChartText(names, pcts)) == ChartLines(names, pcts)
    ensures |Split(ChartText(names, pcts))| == 13 + MaxNameLength(names)
  {
    ChartIsLines(names, pcts);
    var lines := ChartLines(names, pcts);
    forall i | 0 <= i < |lines| ensures '\n' !in lines[i] {
      ChartLineNoNewline(names, pcts, i);
    }
    SplitJoin(lines);
  }

  // -------------------------------------------------------------- the method

  lemma CellsSnoc(level: int, pcts: seq<int>, j: nat)
    requires j < |pcts|
    ensures Cells(level, pcts[..j + 1]) == Cells(level, pcts[..j]) + Cell(level, pcts[j])
  {
    assert pcts[..j + 1][..j] == pcts[..j];
  }

  lemma LabelCellsSnoc(i: nat, names: seq<string>, j: nat)
    requires j < |names|
    ensures LabelCells(i, names[..j + 1]) == LabelCells(i, names[..j]) + LabelCell(names[j], i)
  {
    assert names[..j + 1][..j] == names[..j];
  }

  lemma BarRowsSnoc(pcts: seq<int>, k: nat)
    requires k < BarRowCount
    ensures Terminated(BarRows(pcts)[..k + 1]) == Terminated(BarRows(pcts)[..k]) + BarRow(Level(k), pcts) + "\n"
  {
    var rows := BarRows(pcts);
    var row := BarRow(Level(k), pcts);
    assert rows[k] == row;
    PrefixSnoc(rows, k);
    TerminatedSnoc(rows[..k], row);
  }

  /** One more bar row, drawn as budget.py draws it, extends the rows so far. */
  lemma BarRowStep(before: string, k: nat, pcts: seq<int>, row: string)
    requires k < BarRowCount
    requires before == Terminated(BarRows(pcts)[..k])
    requires row == Axis(Level(k)) + "|" + Cells(Level(k), pcts) + " "
    ensures before + row + "\n" == Terminated(BarRows(pcts)[..k + 1])
  {
    BarRowsSnoc(pcts, k);
  }

  lemma LabelRowAppended(before: string, i: nat, names: seq<string>)
    ensures before + "     " + LabelCells(i, names) == before + LabelRow(i, names)
  {
  }

  lemma LabelRowsSnoc(names: seq<string>, i: nat)
    requires |names| > 0 && i < MaxNameLength(names)
    ensures Terminated(LabelRows(names)[..i + 1]) == Terminated(LabelRows(names)[..i]) + LabelRow(i, names) + "\n"
    ensures Join(LabelRows(names)[..i + 1]) == Terminated(LabelRows(names)[..i]) + LabelRow(i, names)
  {
    var rows := LabelRows(names);
    var row := LabelRow(i, names);
    assert rows[i] == row;
    PrefixSnoc(rows, i);
    TerminatedSnoc(rows[..i], row);
    JoinConcat(rows[..i], [row]);
  }

  /** The cells of one bar row: " o " for each category whose percentage
      reaches `level`, blanks for the others. */
  method DrawCells(level: int, percentages: seq<int>) returns (cells: string)
    ensures cells == Cells(level, percentages)
  {
    cells := "";
    var j := 0;
    while j < |percentages|
      invariant 0 <= j <= |percentages|
      invariant cells == Cells(level, percentages[..j])
    {
      CellsSnoc(level, percentages, j);
      if percentages[j] >= level {
        cells := cells + " o ";
      } else {
        cells := cells + "   ";
      }
      j := j + 1;
    }
    assert percentages[..j] == percentages;
  }

  /** The 11 bar rows, levels 100 down to 0, each ended by a newline. */
  method DrawBars(percentages: seq<int>) returns (bars: string)
    ensures bars == Terminated(BarRows(percentages))
  {
    ghost var rows := BarRows(percentages);
    bars := "";
    var k := 0;
    while k < BarRowCount
      invariant 0 <= k <= BarRowCount
      invariant bars == Terminated(rows[..k])
    {
      var level := Level(k);
      var cells := DrawCells(level, percentages);
      var row := Axis(level) + "|" + cells + " ";
      BarRowStep(bars, k, percentages, row);
      bars := bars + row + "\n";
      k := k + 1;
    }
    assert rows[..k] == rows;
  }

  /** Row `i` of the name labels after its indent: each name's `i`-th
      character and two spaces, or three spaces when the name is shorter. */
  method DrawLabelCells(i: nat, names: seq<string>) returns (cells: string)
    ensures cells == LabelCells(i, names)
  {
    cells := "";
    var j := 0;
    while j < |names|
      invariant 0 <= j <= |names|
      invariant cells == LabelCells(i, names[..j])
    {
      LabelCellsSnoc(i, names, j);
      var name := names[j];
      if i < |name| {
        cells := cells + [name[i]] + "  ";
      } else {
        cells := cells + "   ";
      }
      j := j + 1;
    }
    assert names[..j] == names;
  }

  /** The name labels: one row per character position of the longest name,
      rows separated by newlines and no newline after the last. */
  method DrawLabels(names: seq<string>) returns (labels: string)
    requires |names| > 0
    ensures labels == Join(LabelRows(names))
  {
    labels := "";
    var maxLength := MaxNameLength(names);
    var i := 0;
    while i < maxLength
      invariant 0 <= i <= maxLength
      invariant i < maxLength ==> labels == Terminated(LabelRows(names)[..i])
      invariant i == maxLength ==> labels == Join(LabelRows(names)[..i])
    {
      var cells := DrawLabelCells(i, names);
      ghost var before := labels;
      labels := labels + "     " + cells;
      LabelRowAppended(before, i, names);
      LabelRowsSnoc(names, i);
      if i < maxLength - 1 {
        labels := labels + "\n";
      }
      i := i + 1;
    }
    assert LabelRows(names)[..i] == LabelRows(names);
  }

  /** The chart text, or the error budget.py runs into. */
  method CreateSpendChart(categories: seq<Category>) returns (r: Result<string>)
    ensures r == SpendChart(Views(categories))
  {
    var cats := Views(categories);
    var spent := SpentPerCategory(cats);
    var total := Sum(spent);
    if |cats| > 0 && total == 0 {
      // budget.py divides by zero computing the first percentage
      return Err(NothingSpent);
    }
    var percentages := if |cats| == 0 then [] else Percentages(spent, total);
    var chart := Heading + "\n";
    var bars := DrawBars(percentages);
    chart := chart + bars;
    chart := chart + Rule(|cats|) + "\n";
    if |cats| == 0 {
      // budget.py fails taking the maximum of no name lengths
      return Err(NoCategories);
    }
    var labels := DrawLabels(Names(cats));
    chart := chart + labels;
    r := Ok(chart);
  }
}
