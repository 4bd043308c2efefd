/** The printed statement of a category (its string conversion): a title line
    with the name centred in 30 columns of '*', one line per ledger entry with
    the description in 23 columns and the amount right-justified in 7, and a
    closing "Total: " line without a newline after it. */
module Report {
  import opened Text
  import opened Ledger

  const TitleWidth: nat := 30
  const DescriptionWidth: nat := 23
  const AmountWidth: nat := 7
  const TotalLabel := "Total: "

  function TitleLine(name: string): string
  {
    Center(name, TitleWidth, '*')
  }

  function EntryLine(e: Entry): string
  {
    FitLeft(e.description, DescriptionWidth) + PadLeft(Fixed2(e.amount), AmountWidth, ' ')
  }

  /** One line per entry, in ledger order. */
  function EntryLines(ledger: seq<Entry>): (r: seq<string>)
    ensures |r| == |ledger|
  {
    if ledger == [] then [] else EntryLines(ledger[..|ledger| - 1]) + [EntryLine(ledger[|ledger| - 1])]
  }

  lemma {:induction false} EntryLinesAt(ledger: seq<Entry>, i: nat)
    requires i < |ledger|
    ensures EntryLines(ledger)[i] == EntryLine(ledger[i])
  {
    if i < |ledger| - 1 {
      EntryLinesAt(ledger[..|ledger| - 1], i);
    }
  }

  lemma EntryLinesSnoc(ledger: seq<Entry>, i: nat)
    requires i < |ledger|
    ensures EntryLines(ledger[..i + 1]) == EntryLines(ledger[..i]) + [EntryLine(ledger[i])]
  {
    assert ledger[..i + 1][..i] == ledger[..i];
  }

  function TotalLine(ledger: seq<Entry>): string
  {
    TotalLabel + Fixed2(Balance(ledger))
  }

  /** The statement exactly as budget.py assembles it: title and entry lines
      each ended by '\n', then the total line. */
  function Statement(name: string, ledger: seq<Entry>): string
  {
    TitleLine(name) + "\n" + Terminated(EntryLines(ledger)) + TotalLine(ledger)
  }

  function StatementLines(name: string, ledger: seq<Entry>): seq<string>
  {
    [TitleLine(name)] + EntryLines(ledger) + [TotalLine(ledger)]
  }

  /** The statement is its title, one line per entry in ledger order, and the
      total, separated by single newlines: ledger length + 2 lines. */
  lemma StatementIsLines(name: string, ledger: seq<Entry>)
    ensures Statement(name, ledger) == Join(StatementLines(name, ledger))
    ensures |StatementLines(name, ledger)| == |ledger| + 2
    ensures forall i :: 0 <= i < |ledger| ==> StatementLines(name, ledger)[i + 1] == EntryLine(ledger[i])
  {
    var front := [TitleLine(name)] + EntryLines(ledger);
    JoinConcat(front, [TotalLine(ledger)]);
    assert front[1..] == EntryLines(ledger);
    assert StatementLines(name, ledger) == front + [TotalLine(ledger)];
    forall i | 0 <= i < |ledger|
      ensures StatementLines(name, ledger)[i + 1] == EntryLine(ledger[i])
    {
      EntryLinesAt(ledger, i);
    }
  }

  predicate NumeralChar(c: char)
  {
    IsDigit(c) || c == '-' || c == '.'
  }

  lemma Fixed2DigitsChars(m: nat)
    ensures forall i :: 0 <= i < |Fixed2Digits(m)| ==> NumeralChar(Fixed2Digits(m)[i])
  {
    var whole := NatToString(m / 100);
    var tail := [DigitChar(m % 100 / 10), DigitChar(m % 10)];
    var digits := Fixed2Digits(m);
    forall i | 0 <= i < |digits|
      ensures NumeralChar(digits[i])
    {
      if i < |whole| {
        assert digits[i] == whole[i];
      } else if i > |whole| {
        assert digits[i] == tail[i - |whole| - 1];
      }
    }
  }

  lemma Fixed2Chars(cents: int)
    ensures forall i :: 0 <= i < |Fixed2(cents)| ==> NumeralChar(Fixed2(cents)[i])
  {
    var digits := Fixed2Digits(Abs(cents));
    var sign := if cents < 0 then "-" else "";
    Fixed2DigitsChars(Abs(cents));
    forall i | 0 <= i < |Fixed2(cents)|
      ensures NumeralChar(Fixed2(cents)[i])
    {
      if i >= |sign| {
        assert Fixed2(cents)[i] == digits[i - |sign|];
      }
    }
  }

  lemma Fixed2NoNewline(cents: int)
    ensures '\n' !in Fixed2(cents)
  {
    Fixed2Chars(cents);
    var f := Fixed2(cents);
    forall i | 0 <= i < |f| ensures f[i] != '\n' {
      assert NumeralChar(f[i]);
    }
  }

  lemma EntryLineNoNewline(e: Entry)
    requires '\n' !in e.description
    ensures '\n' !in EntryLine(e)
  {
    Fixed2NoNewline(e.amount);
    AbsentAfterPadding('\n', e.description, DescriptionWidth, ' ');
    AbsentAfterPadding('\n', Fixed2(e.amount), AmountWidth, ' ');
  }

  lemma TotalLineNoNewline(ledger: seq<Entry>)
    ensures '\n' !in TotalLine(ledger)
  {
    Fixed2NoNewline(Balance(ledger));
  }

  lemma TitleLineNoNewline(name: string)
    requires '\n' !in name
    ensures '\n' !in TitleLine(name)
  {
    var t := TitleLine(name);
    if |name| < TitleWidth {
      var left := (TitleWidth - |name|) / 2;
      forall i | 0 <= i < |t| ensures t[i] != '\n' {
        if left <= i < left + |name| {
          assert t[left..left + |name|][i - left] == t[i];
        }
      }
    }
  }

  /** Read back as text, the statement has exactly ledger length + 2 lines,
      whenever no name or description holds a newline of its own. */
  lemma StatementLineCount(name: string, ledger: seq<Entry>)
    requires '\n' !in name
    requires forall i :: 0 <= i < |ledger| ==> '\n' !in ledger[i].description
    ensures Split(Statement(name, ledger)) == StatementLines(name, ledger)
    ensures |Split(Statement(name, ledger))| == |ledger| + 2
  {
    StatementIsLines(name, ledger);
    var lines := StatementLines(name, ledger);
    forall i | 0 <= i < |lines| ensures '\n' !in lines[i] {
      if i == 0 {
        TitleLineNoNewline(name);
      } else if i <= |ledger| {
        EntryLineNoNewline(ledger[i - 1]);
      } else {
        TotalLineNoNewline(ledger);
      }
    }
    SplitJoin(lines);
  }

  lemma EntryLineParts(e: Entry)
    ensures |EntryLine(e)| == DescriptionWidth + |PadLeft(Fixed2(e.amount), AmountWidth, ' ')|
    ensures EntryLine(e)[..DescriptionWidth] == FitLeft(e.description, DescriptionWidth)
    ensures EntryLine(e)[DescriptionWidth..] == PadLeft(Fixed2(e.amount), AmountWidth, ' ')
  {
    var d := FitLeft(e.description, DescriptionWidth);
    var a := PadLeft(Fixed2(e.amount), AmountWidth, ' ');
    assert |d| == DescriptionWidth;
    assert EntryLine(e) == d + a;
  }

  /** An entry line shows the description cut or space-filled to 23 columns,
      then the amount right-justified in 7 (wider amounts widen the line). */
  lemma EntryLineLayout(e: Entry)
    ensures |EntryLine(e)| == DescriptionWidth + Max(|Fixed2(e.amount)|, AmountWidth)
    ensures |Fixed2(e.amount)| <= AmountWidth ==> |EntryLine(e)| == TitleWidth
    ensures EntryLine(e)[DescriptionWidth..] == PadLeft(Fixed2(e.amount), AmountWidth, ' ')
    ensures |e.description| >= DescriptionWidth ==> EntryLine(e)[..DescriptionWidth] == e.description[..DescriptionWidth]
    ensures |e.description| < DescriptionWidth ==>
      EntryLine(e)[..|e.description|] == e.description
      && forall i :: |e.description| <= i < DescriptionWidth ==> EntryLine(e)[i] == ' '
  {
    EntryLineParts(e);
    var line := EntryLine(e);
    var d := line[..DescriptionWidth];
    if |e.description| < DescriptionWidth {
      forall i | |e.description| <= i < DescriptionWidth
        ensures line[i] == ' '
      {
        assert line[i] == d[i];
      }
      assert line[..|e.description|] == d[..|e.description|];
    }
  }

  /** The amount reads back exactly from the columns after the description. */
  lemma EntryAmountReadsBack(e: Entry)
    ensures ParseFixed2(StripLeading(EntryLine(e)[DescriptionWidth..], ' ')) == Some(e.amount)
  {
    EntryLineParts(e);
    StripPadLeft(Fixed2(e.amount), AmountWidth, ' ');
    Fixed2RoundTrip(e.amount);
  }

  /** The last line states the balance, which reads back exactly. */
  lemma TotalLineReadsBack(ledger: seq<Entry>)
    ensures TotalLine(ledger)[..|TotalLabel|] == TotalLabel
    ensures ParseFixed2(TotalLine(ledger)[|TotalLabel|..]) == Some(Balance(ledger))
  {
    assert TotalLine(ledger)[|TotalLabel|..] == Fixed2(Balance(ledger));
    Fixed2RoundTrip(Balance(ledger));
  }
}
