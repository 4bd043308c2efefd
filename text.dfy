/** Fixed-width text: the parts of Python's string formatting that the ledger
    statement and the spend chart use (fill, alignment, truncation, `.2f` of a
    cent amount), written out as functions, with their inverses where the
    output is meant to be read back. */
module Text {

  datatype Option<T> = None | Some(value: T)

  function Max(a: int, b: int): int
  {
    if a >= b then a else b
  }

  function Abs(x: int): nat
  {
    if x < 0 then -x else x
  }

  /** `n` copies of the character `c`. */
  function Repeat(c: char, n: nat): (r: string)
    ensures |r| == n
    ensures forall i :: 0 <= i < n ==> r[i] == c
  {
    if n == 0 then "" else [c] + Repeat(c, n - 1)
  }

  /** Python's `s * n` on a string. */
  function RepeatString(s: string, n: nat): (r: string)
    ensures |r| == |s| * n
  {
    if n == 0 then "" else s + RepeatString(s, n - 1)
  }

  /** Right-justifies `s` in a field of `width` characters filled with `fill`
      (Python's `>` alignment, the default for numbers); a longer `s` is kept whole. */
  function PadLeft(s: string, width: nat, fill: char): (r: string)
    ensures |r| == Max(|s|, width)
    ensures r[|r| - |s|..] == s
    ensures forall i :: 0 <= i < |r| - |s| ==> r[i] == fill
  {
    if |s| >= width then s else Repeat(fill, width - |s|) + s
  }

  /** Left-justifies `s` in a field of `width` characters filled with `fill`
      (Python's `<` alignment, the default for strings); a longer `s` is kept whole. */
  function PadRight(s: string, width: nat, fill: char): (r: string)
    ensures |r| == Max(|s|, width)
    ensures r[..|s|] == s
    ensures forall i :: |s| <= i < |r| ==> r[i] == fill
  {
    if |s| >= width then s else s + Repeat(fill, width - |s|)
  }

  /** Python's `f'{s[:width]:width}'`: exactly `width` characters, the start of
      `s` cut there or filled with spaces. */
  function FitLeft(s: string, width: nat): (r: string)
    ensures |r| == width
    ensures |s| >= width ==> r == s[..width]
    ensures |s| < width ==> r[..|s|] == s && forall i :: |s| <= i < width ==> r[i] == ' '
  {
    PadRight(if |s| <= width then s else s[..width], width, ' ')
  }

  /** Python's `f'{s:{fill}^{width}}'`: `s` centred, with half the fill
      (rounded down) on the left and the rest, at most one more, on the right;
      a longer `s` is kept whole. */
  function Center(s: string, width: nat, fill: char): (r: string)
    ensures |s| >= width ==> r == s
    ensures |s| < width ==> |r| == width
    ensures |s| < width ==>
      var left := (width - |s|) / 2;
      && r[left..left + |s|] == s
      && (forall i :: 0 <= i < left ==> r[i] == fill)
      && (forall i :: left + |s| <= i < width ==> r[i] == fill)
      && (width - |s| - left == left || width - |s| - left == left + 1)
  {
    if |s| >= width then s
    else
      var left := (width - |s|) / 2;
      Repeat(fill, left) + s + Repeat(fill, width - |s| - left)
  }

  /** What Python's `lstrip(c)` leaves: `s` without its leading run of `c`. */
  function StripLeading(s: string, c: char): (r: string)
    ensures |r| <= |s| && r == s[|s| - |r|..]
    ensures r == [] || r[0] != c
  {
    if s != [] && s[0] == c then StripLeading(s[1..], c) else s
  }

  lemma {:induction false} StripPadLeft(s: string, width: nat, fill: char)
    requires s == [] || s[0] != fill
    ensures StripLeading(PadLeft(s, width, fill), fill) == s
  {
    if |s| < width {
      StripRepeat(fill, width - |s|, s);
    }
  }

  lemma {:induction false} StripRepeat(c: char, n: nat, s: string)
    requires s == [] || s[0] != c
    ensures StripLeading(Repeat(c, n) + s, c) == s
  {
    if n > 0 {
      ConsTail(c, Repeat(c, n - 1), s);
      StripRepeat(c, n - 1, s);
    }
  }

  lemma ConsTail(c: char, a: string, b: string)
    ensures ([c] + a + b)[0] == c
    ensures ([c] + a + b)[1..] == a + b
  {
  }

  lemma AbsentFromRepeat(c: char, fill: char, n: nat)
    requires c != fill
    ensures c !in Repeat(fill, n)
  {
    var r := Repeat(fill, n);
    assert forall i :: 0 <= i < |r| ==> r[i] != c;
  }

  /** Filling with another character adds no `c` to a text without one. */
  lemma AbsentAfterPadding(c: char, s: string, width: nat, fill: char)
    requires c != fill && c !in s
    ensures c !in PadLeft(s, width, fill)
    ensures c !in PadRight(s, width, fill)
    ensures c !in FitLeft(s, width) || c == ' '
  {
    if |s| < width {
      AbsentFromRepeat(c, fill, width - |s|);
    }
    var cut := if |s| <= width then s else s[..width];
    if c != ' ' {
      assert c !in cut by {
        forall i | 0 <= i < |cut| ensures cut[i] != c {
          assert cut[i] == s[i];
        }
      }
      if |cut| < width {
        AbsentFromRepeat(c, ' ', width - |cut|);
      }
    }
  }

  // ---------------------------------------------------------------- numerals

  predicate IsDigit(c: char)
  {
    '0' <= c <= '9'
  }

  predicate AllDigits(s: string)
  {
    forall i :: 0 <= i < |s| ==> IsDigit(s[i])
  }

  function DigitChar(d: nat): (c: char)
    requires d < 10
    ensures IsDigit(c)
  {
    ('0' as int + d) as char
  }

  function DigitValue(c: char): (d: nat)
    requires IsDigit(c)
    ensures d < 10 && DigitChar(d) == c
  {
    c as int - '0' as int
  }

  /** The decimal numeral of `n`, without leading zeros (Python's `f'{n}'`). */
  function NatToString(n: nat): (r: string)
    ensures |r| >= 1 && AllDigits(r)
    ensures r[0] == '0' ==> n == 0
  {
    if n < 10 then [DigitChar(n)] else NatToString(n / 10) + [DigitChar(n % 10)]
  }

  /** The value of a string of decimal digits. */
  function ParseNat(s: string): nat
    requires AllDigits(s)
  {
    if s == [] then 0 else ParseNat(s[..|s| - 1]) * 10 + DigitValue(s[|s| - 1])
  }

  lemma {:induction false} ParseNatToString(n: nat)
    ensures ParseNat(NatToString(n)) == n
  {
    if n >= 10 {
      var s := NatToString(n);
      assert s[..|s| - 1] == NatToString(n / 10);
      ParseNatToString(n / 10);
    }
  }

  /** Numbers below 1000 fit the three columns the chart's axis gives them. */
  lemma NatToStringWidth(n: nat)
    requires n < 1000
    ensures |NatToString(n)| <= 3
  {
    if n >= 10 {
      assert n / 10 < 100;
      if n / 10 >= 10 {
        assert |NatToString(n / 10 / 10)| == 1;
      }
    }
  }

  /** Python's `f'{x:.2f}'` for the amount x held as `cents` hundredths: a '-'
      for negatives, then the magnitude. */
  function Fixed2(cents: int): (r: string)
    ensures |r| >= 4 && r[|r| - 3] == '.'
    ensures r[0] != ' '
    ensures r[0] == '-' <==> cents < 0
  {
    (if cents < 0 then "-" else "") + Fixed2Digits(Abs(cents))
  }

  /** The magnitude `m` hundredths as whole units, '.', and exactly two decimals. */
  function Fixed2Digits(m: nat): (r: string)
    ensures |r| >= 4 && r[|r| - 3] == '.'
    ensures IsDigit(r[0])
  {
    NatToString(m / 100) + "." + [DigitChar(m % 100 / 10), DigitChar(m % 10)]
  }

  /** Reads back a number written as by `Fixed2`; None for any other text. */
  function ParseFixed2(s: string): Option<int>
  {
    var negative := |s| > 0 && s[0] == '-';
    var body := if negative then s[1..] else s;
    if |body| < 4 || body[|body| - 3] != '.' || !AllDigits(body[..|body| - 3])
       || !IsDigit(body[|body| - 2]) || !IsDigit(body[|body| - 1])
    then None
    else
      var m := ParseNat(body[..|body| - 3]) * 100
               + DigitValue(body[|body| - 2]) * 10 + DigitValue(body[|body| - 1]);
      Some(if negative then -m else m)
  }

  lemma Fixed2DigitsRoundTrip(m: nat)
    ensures ParseFixed2(Fixed2Digits(m)) == Some(m)
  {
    var body := Fixed2Digits(m);
    var whole := NatToString(m / 100);
    assert body[..|body| - 3] == whole;
    ParseNatToString(m / 100);
    assert m == (m / 100) * 100 + (m % 100 / 10) * 10 + m % 10;
  }

  lemma ParseNegated(body: string)
    requires |body| > 0 && body[0] != '-' && ParseFixed2(body).Some?
    ensures ParseFixed2("-" + body) == Some(-ParseFixed2(body).value)
  {
    assert ("-" + body)[1..] == body;
  }

  /** The two-decimal rendering loses nothing: the cent amount reads back exactly. */
  lemma Fixed2RoundTrip(cents: int)
    ensures ParseFixed2(Fixed2(cents)) == Some(cents)
  {
    var body := Fixed2Digits(Abs(cents));
    Fixed2DigitsRoundTrip(Abs(cents));
    if cents < 0 {
      ParseNegated(body);
    } else {
      assert Fixed2(cents) == body;
    }
  }

  // ------------------------------------------------------------------- lines

  lemma SliceLeft<T>(a: seq<T>, b: seq<T>, lo: nat, hi: nat)
    requires lo <= hi <= |a|
    ensures (a + b)[lo..hi] == a[lo..hi]
  {
  }

  lemma SliceRight<T>(a: seq<T>, b: seq<T>, lo: nat, hi: nat)
    requires lo <= hi <= |b|
    ensures (a + b)[|a| + lo..|a| + hi] == b[lo..hi]
  {
  }

  lemma PrefixSnoc<T>(s: seq<T>, i: nat)
    requires i < |s|
    ensures s[..i + 1] == s[..i] + [s[i]]
  {
  }

  /** The lines with '\n' between them (Python's `'\n'.join(lines)`). */
  function Join(lines: seq<string>): string
  {
    if |lines| == 0 then ""
    else if |lines| == 1 then lines[0]
    else lines[0] + "\n" + Join(lines[1..])
  }

  /** Each line followed by '\n'. */
  function Terminated(lines: seq<string>): string
  {
    if lines == [] then "" else lines[0] + "\n" + Terminated(lines[1..])
  }

  lemma {:induction false} TerminatedSnoc(lines: seq<string>, last: string)
    ensures Terminated(lines + [last]) == Terminated(lines) + last + "\n"
  {
    if lines != [] {
      assert (lines + [last])[1..] == lines[1..] + [last];
      TerminatedSnoc(lines[1..], last);
    }
  }

  lemma {:induction false} JoinConcat(front: seq<string>, back: seq<string>)
    requires |back| >= 1
    ensures Join(front + back) == Terminated(front) + Join(back)
  {
    if front == [] {
      assert front + back == back;
    } else {
      assert (front + back)[0] == front[0];
      assert (front + back)[1..] == front[1..] + back;
      JoinConcat(front[1..], back);
    }
  }

  /** The pieces between the '\n' characters of `s` (Python's `s.split('\n')`). */
  function Split(s: string): (r: seq<string>)
    ensures |r| >= 1
  {
    if s == "" then [""]
    else
      var rest := Split(s[1..]);
      if s[0] == '\n' then [""] + rest else [[s[0]] + rest[0]] + rest[1..]
  }

  lemma {:induction false} SplitLine(s: string)
    requires '\n' !in s
    ensures Split(s) == [s]
  {
    if s != "" {
      SplitLine(s[1..]);
      assert [s[0]] + s[1..] == s;
    }
  }

  lemma {:induction false} SplitAt(a: string, b: string)
    requires '\n' !in a
    ensures Split(a + "\n" + b) == [a] + Split(b)
  {
    if a == "" {
      assert (a + "\n" + b)[1..] == b;
    } else {
      assert (a + "\n" + b)[1..] == a[1..] + "\n" + b;
      SplitAt(a[1..], b);
      assert [a[0]] + a[1..] == a;
    }
  }

  /** Joining lines that hold no '\n' and splitting the result gives the same lines. */
  lemma {:induction false} SplitJoin(lines: seq<string>)
    requires |lines| >= 1
    requires forall i :: 0 <= i < |lines| ==> '\n' !in lines[i]
    ensures Split(Join(lines)) == lines
  {
    if |lines| == 1 {
      SplitLine(lines[0]);
    } else {
      SplitAt(lines[0], Join(lines[1..]));
      SplitJoin(lines[1..]);
    }
  }
}
