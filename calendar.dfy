/** Month names and the "%b %Y" month labels of the visits dashboard. */
module Calendar {
  import opened Frames
  import opened Text
  import opened Order

  datatype Option<T> = None | Some(value: T)

  /** A calendar month, 1 for January. */
  type Month = m: int | 1 <= m <= 12 witness 1

  /** A year of a pandas timestamp: those run from 1677 to 2262, so `%Y`
      always writes four digits. */
  type Year = y: int | 1000 <= y <= 9999 witness 2000

  /** The claims dashboard's `months_order`, which is also what
      `dt.month_name()` returns. */
  const MonthsOrder: seq<string> :=
    ["January", "February", "March", "April", "May", "June", "July",
     "August", "September", "October", "November", "December"]

  /** What `%b` writes for each month. */
  const Abbreviations: seq<string> :=
    ["Jan", "Feb", "Mar", "Apr", "May", "Jun", "Jul", "Aug", "Sep", "Oct", "Nov", "Dec"]

  /** `dt.month_name()`. */
  function MonthName(m: Month): string {
    MonthsOrder[m - 1]
  }

  /** The sort position of a month name under
      `pd.Categorical(categories=months_order, ordered=True)`: its place in the
      calendar, and after December for a name outside it, which becomes NaN
      and is sorted last. */
  function CalendarRank(name: string): (r: nat)
    ensures r <= 12
    ensures r < 12 <==> name in MonthsOrder
    ensures r < 12 ==> MonthsOrder[r] == name
  {
    FirstAt(MonthsOrder, name)
  }

  /** No two months share a name or an abbreviation: the first three
      letters already tell them apart. */
  lemma NamesDistinct()
    ensures forall i, j :: 0 <= i < j < 12 ==> MonthsOrder[i] != MonthsOrder[j]
    ensures forall i, j :: 0 <= i < j < 12 ==> Abbreviations[i] != Abbreviations[j]
  {
    forall i, j | 0 <= i < j < 12 ensures MonthsOrder[i] != MonthsOrder[j] {
      var a, b := MonthsOrder[i], MonthsOrder[j];
      assert a[0] != b[0] || a[1] != b[1] || a[2] != b[2];
    }
    forall i, j | 0 <= i < j < 12 ensures Abbreviations[i] != Abbreviations[j] {
      var a, b := Abbreviations[i], Abbreviations[j];
      assert a[0] != b[0] || a[1] != b[1] || a[2] != b[2];
    }
  }

  /** Calendar order runs January to December. */
  lemma CalendarRankOfMonth(m: Month)
    ensures CalendarRank(MonthName(m)) == m - 1
  {
    NamesDistinct();
  }

  /** `strftime('%b %Y')`: the three-letter abbreviation, one space and the
      year's four digits. */
  function Label(y: Year, m: Month): (l: string)
    ensures |l| == 8 && l[3] == ' '
    ensures l[..3] == Abbreviations[m - 1]
    ensures l[4..] == DecimalNat(y)
  {
    FourDigitYear(y);
    Abbreviations[m - 1] + " " + DecimalNat(y)
  }

  function DigitValue(c: char): nat
    requires '0' <= c <= '9'
  {
    (c as int) - ('0' as int)
  }

  /** Every character is a decimal digit. */
  predicate AllDigits(s: string) {
    forall i :: 0 <= i < |s| ==> '0' <= s[i] <= '9'
  }

  /** The number a string of decimal digits writes. */
  function ParseDigits(s: string): nat
    requires AllDigits(s)
  {
    if s == [] then 0 else 10 * ParseDigits(s[..|s| - 1]) + DigitValue(s[|s| - 1])
  }

  lemma {:induction false} ParseDecimal(n: nat)
    ensures AllDigits(DecimalNat(n))
    ensures ParseDigits(DecimalNat(n)) == n
  {
    var s := DecimalNat(n);
    assert DigitValue(Digit(n % 10)) == n % 10;
    if n >= 10 {
      ParseDecimal(n / 10);
      assert s[..|s| - 1] == DecimalNat(n / 10);
    }
  }

  lemma FourDigitYear(y: Year)
    ensures |DecimalNat(y)| == 4
  {
    var y1, y2, y3 := y / 10, y / 100, y / 1000;
    assert 100 <= y1 < 1000 && 10 <= y2 < 100 && 1 <= y3 < 10;
    assert y1 / 10 == y2 && y2 / 10 == y3;
    assert |DecimalNat(y3)| == 1;
    assert |DecimalNat(y2)| == |DecimalNat(y3)| + 1;
    assert |DecimalNat(y1)| == |DecimalNat(y2)| + 1;
    assert |DecimalNat(y)| == |DecimalNat(y1)| + 1;
  }

  /** The month whose `%b` abbreviation is `abbr`. */
  function MonthOfAbbreviation(abbr: string): (m: Month)
    requires abbr in Abbreviations
    ensures Abbreviations[m - 1] == abbr
  {
    FirstAt(Abbreviations, abbr) + 1
  }

  /** The year and month of a label's two parts, once they are known to be an
      abbreviation and a run of digits. */
  function ParseParts(abbr: string, digits: string): Option<(Year, Month)>
    requires abbr in Abbreviations && AllDigits(digits)
  {
    var m := MonthOfAbbreviation(abbr);
    var y := ParseDigits(digits);
    if y < 1000 || y > 9999 then None
    else
      var year: Year := y;
      Some((year, m))
  }

  /** `pd.to_datetime` of a "%b %Y" label: the month abbreviation, one space and
      a four-digit year. Any other text is None here (pandas would try other
      formats or raise). */
  function ParseLabel(s: string): Option<(Year, Month)> {
    if |s| != 8 || s[3] != ' ' then None
    else
      var abbr, digits := s[..3], s[4..];
      if abbr in Abbreviations && AllDigits(digits) then ParseParts(abbr, digits) else None
  }

  /** Each abbreviation names its own month. */
  lemma AbbreviationsName(m: Month)
    ensures MonthOfAbbreviation(Abbreviations[m - 1]) == m
  {
    NamesDistinct();
  }

  /** Parsing a label gives back the year and month it was written from. */
  lemma LabelRoundTrip(y: Year, m: Month)
    ensures ParseLabel(Label(y, m)) == Some((y, m))
  {
    var l := Label(y, m);
    var abbr, digits := l[..3], l[4..];
    assert abbr == Abbreviations[m - 1] && digits == DecimalNat(y);
    ParseDecimal(y);
    AbbreviationsName(m);
    assert ParseParts(abbr, digits) == Some((y, m));
  }

  /** `pd.to_datetime(label).strftime('%b %Y')`: a label parsed and written
      again. It fails exactly when the text does not parse, and otherwise
      names the same month of the same year. */
  function Reformat(s: string): (r: Option<string>)
    ensures r == None <==> ParseLabel(s) == None
    ensures r != None ==> ParseLabel(r.value) == ParseLabel(s)
  {
    match ParseLabel(s)
    case None => None
    case Some((y, m)) =>
      LabelRoundTrip(y, m);
      Some(Label(y, m))
  }

  /** Writing a parsed label again gives the same label. */
  lemma ReformatLabel(y: Year, m: Month)
    ensures Reformat(Label(y, m)) == Some(Label(y, m))
  {
    LabelRoundTrip(y, m);
  }

  /** Labels sort as strings, not by date: within a year they fall in the
      alphabetical order of the month abbreviations, so "Apr 2024" comes
      before "Jan 2024". */
  lemma LabelsSortAlphabetically(y: Year, m1: Month, m2: Month)
    ensures StrBelow(Label(y, m1), Label(y, m2)) <==> StrBelow(Abbreviations[m1 - 1], Abbreviations[m2 - 1])
  {
    var a, b, rest := Abbreviations[m1 - 1], Abbreviations[m2 - 1], " " + DecimalNat(y);
    assert Label(y, m1) == a + rest && Label(y, m2) == b + rest;
    if m1 == m2 {
      StrBelowIrreflexive(a + rest);
      StrBelowIrreflexive(a);
    } else {
      NamesDistinct();
      assert |a| == 3 == |b| && a != b;
      StrBelowPrefix(a, b, rest, rest);
    }
  }
}
