/**
 * `addLeadingZero` and `formatDate`, which the two code generators carry as
 * identical copies: the timestamp written into the comment at the top of
 * every generated file.
 */
module DateFormat {
  import opened Wrappers

  /** What `addLeadingZero` may be handed: a string, or a number it first converts to text. */
  datatype Scalar = Str(s: string) | Num(n: int)

  predicate IsDigit(c: char)
  {
    '0' <= c <= '9'
  }

  predicate AllDigits(s: string)
  {
    forall k :: 0 <= k < |s| ==> IsDigit(s[k])
  }

  function DigitChar(d: nat): (c: char)
    requires d < 10
    ensures IsDigit(c) && c as int - '0' as int == d
  {
    ('0' as int + d) as char
  }

  /** The decimal text of a natural number, without leading zeros. */
  function NatText(n: nat): (r: string)
    ensures 1 <= |r| && AllDigits(r)
    ensures n < 10 <==> |r| == 1
    ensures n < 100 ==> |r| <= 2
    decreases n
  {
    if n < 10 then [DigitChar(n)] else NatText(n / 10) + [DigitChar(n % 10)]
  }

  /** `'' + n` for an integral number `n`. */
  function DecimalText(n: int): string
  {
    if n < 0 then "-" + NatText(-n) else NatText(n)
  }

  /** `'' + v`: the text `addLeadingZero` starts from. */
  function ScalarText(v: Scalar): string
  {
    match v
    case Str(s) => s
    case Num(n) => DecimalText(n)
  }

  /** The number a string of decimal digits denotes. */
  function DigitsValue(s: string): nat
    requires AllDigits(s)
    decreases |s|
  {
    if |s| == 0 then 0 else DigitsValue(s[..|s| - 1]) * 10 + (s[|s| - 1] as int - '0' as int)
  }

  lemma {:induction false} DigitsValueOfNatText(n: nat)
    ensures DigitsValue(NatText(n)) == n
    decreases n
  {
    if n >= 10 {
      var t := NatText(n);
      assert t[..|t| - 1] == NatText(n / 10);
      DigitsValueOfNatText(n / 10);
    }
  }

  /** `k` zeros, none when `k` is below 1. */
  function Zeros(k: int): (r: string)
    ensures |r| == if k > 0 then k else 0
    ensures forall i :: 0 <= i < |r| ==> r[i] == '0'
  {
    seq(if k > 0 then k else 0, _ => '0')
  }

  /**
   * What the loop of `addLeadingZero` turns the text `s` into: zeros go in
   * front until the text has `minSize` characters.
   */
  function Padded(s: string, minSize: int): (r: string)
    ensures |r| == if |s| < minSize then minSize else |s|
    ensures r[|r| - |s|..] == s
    ensures forall k :: 0 <= k < |r| - |s| ==> r[k] == '0'
    ensures |s| >= minSize ==> r == s
  {
    var zeros := Zeros(minSize - |s|);
    assert (zeros + s)[|zeros|..] == s;
    zeros + s
  }

  /** `addLeadingZero(numberStr, minSize)`. */
  method AddLeadingZero(numberStr: Scalar, minSize: int) returns (r: string)
    ensures r == Padded(ScalarText(numberStr), minSize)
  {
    match numberStr {
      case Str(s) => r := s;
      case Num(n) => r := DecimalText(n);
    }
    ghost var text := r;
    assert r == Zeros(0) + text;
    while |r| < minSize
      invariant |text| <= |r| <= (if |text| < minSize then minSize else |text|)
      invariant r == Zeros(|r| - |text|) + text
      decreases minSize - |r|
    {
      ZerosCons(|r| - |text|, text);
      r := "0" + r;
    }
    assert text == ScalarText(numberStr);
    if |text| < minSize {
      assert |r| - |text| == minSize - |text|;
    } else {
      assert |Zeros(minSize - |text|)| == 0 && |Zeros(|r| - |text|)| == 0;
    }
  }

  /** One more zero in front. */
  lemma ZerosCons(k: nat, s: string)
    ensures "0" + (Zeros(k) + s) == Zeros(k + 1) + s
  {
    assert "0" + Zeros(k) == Zeros(k + 1);
  }

  /** The fields of a JavaScript `Date` that `formatDate` reads; `month` counts from 0 as `getMonth()` does. */
  datatype Date = Date(fullYear: int, month: int, date: int, hours: int, minutes: int)

  /** The ranges a `Date`'s getters return. */
  predicate IsCalendarDate(d: Date)
  {
    0 <= d.month <= 11 && 1 <= d.date <= 31 && 0 <= d.hours <= 23 && 0 <= d.minutes <= 59
  }

  function TwoDigits(n: int): string
  {
    Padded(DecimalText(n), 2)
  }

  /** `formatDate(date)`: `MM/DD/YYYY HH:MM`, the year between the day part and the time part. */
  function FormatDate(d: Date): string
  {
    (TwoDigits(d.month + 1) + "/" + TwoDigits(d.date) + "/")
      + DecimalText(d.fullYear)
      + (" " + TwoDigits(d.hours) + ":" + TwoDigits(d.minutes))
  }

  function DigitValue(c: char): int
  {
    c as int - '0' as int
  }

  /** The number two digit characters denote. */
  function PairValue(c0: char, c1: char): int
  {
    DigitValue(c0) * 10 + DigitValue(c1)
  }

  /** `s` has the shape `DD/DD/D+ DD:DD`, D a decimal digit. */
  predicate IsTimestamp(s: string)
  {
    var n := |s|;
    n >= 12 && s[2] == '/' && s[5] == '/' && s[n - 6] == ' ' && s[n - 3] == ':'
    && IsDigit(s[0]) && IsDigit(s[1]) && IsDigit(s[3]) && IsDigit(s[4])
    && IsDigit(s[n - 5]) && IsDigit(s[n - 4]) && IsDigit(s[n - 2]) && IsDigit(s[n - 1])
    && AllDigits(s[6..n - 6])
  }

  /** Reads a `MM/DD/YYYY HH:MM` timestamp back into the date it was written from. */
  function ParseDate(s: string): Option<Date>
  {
    if IsTimestamp(s) then Some(TimestampFields(s)) else None
  }

  function TimestampFields(s: string): Date
    requires IsTimestamp(s)
  {
    var n := |s|;
    Date(DigitsValue(s[6..n - 6]), PairValue(s[0], s[1]) - 1, PairValue(s[3], s[4]),
         PairValue(s[n - 5], s[n - 4]), PairValue(s[n - 2], s[n - 1]))
  }

  /** A number below 100 is written with exactly two digits. */
  lemma TwoDigitsOf(n: nat)
    requires n < 100
    ensures |TwoDigits(n)| == 2 && AllDigits(TwoDigits(n))
    ensures PairValue(TwoDigits(n)[0], TwoDigits(n)[1]) == n
  {
    if n < 10 {
      assert TwoDigits(n) == Padded([DigitChar(n)], 2) == ['0', DigitChar(n)];
    } else {
      assert NatText(n / 10) == [DigitChar(n / 10)];
      assert TwoDigits(n) == [DigitChar(n / 10), DigitChar(n % 10)];
    }
  }

  lemma MiddleSlice(a: string, b: string, c: string)
    ensures (a + b + c)[|a|..|a + b + c| - |c|] == b
  {
    assert (a + b + c)[|a|..|a| + |b|] == b;
  }

  /** Where the pieces of a `MM/DD/YYYY HH:MM` text sit. */
  lemma TimestampChars(mm: string, dd: string, yyyy: string, hh: string, mi: string)
    requires |mm| == 2 && |dd| == 2 && |yyyy| >= 1 && |hh| == 2 && |mi| == 2
    ensures var s := (mm + "/" + dd + "/") + yyyy + (" " + hh + ":" + mi);
            var n := |s|;
            && n == 12 + |yyyy|
            && s[0] == mm[0] && s[1] == mm[1] && s[2] == '/' && s[3] == dd[0] && s[4] == dd[1] && s[5] == '/'
            && s[n - 6] == ' ' && s[n - 5] == hh[0] && s[n - 4] == hh[1] && s[n - 3] == ':'
            && s[n - 2] == mi[0] && s[n - 1] == mi[1]
            && s[6..n - 6] == yyyy
  {
    var head, tail := mm + "/" + dd + "/", " " + hh + ":" + mi;
    MiddleSlice(head, yyyy, tail);
  }

  /** Parsing reads the five fields of a well-formed `MM/DD/YYYY HH:MM` text. */
  lemma ParseDateFields(mm: string, dd: string, yyyy: string, hh: string, mi: string)
    requires |mm| == 2 && |dd| == 2 && |yyyy| >= 1 && |hh| == 2 && |mi| == 2
    requires AllDigits(mm) && AllDigits(dd) && AllDigits(yyyy) && AllDigits(hh) && AllDigits(mi)
    ensures ParseDate((mm + "/" + dd + "/") + yyyy + (" " + hh + ":" + mi))
      == Some(Date(DigitsValue(yyyy), PairValue(mm[0], mm[1]) - 1, PairValue(dd[0], dd[1]),
                   PairValue(hh[0], hh[1]), PairValue(mi[0], mi[1])))
  {
    TimestampChars(mm, dd, yyyy, hh, mi);
    ParseByChars((mm + "/" + dd + "/") + yyyy + (" " + hh + ":" + mi), mm, dd, yyyy, hh, mi);
  }

  lemma ParseByChars(s: string, mm: string, dd: string, yyyy: string, hh: string, mi: string)
    requires |mm| == 2 && |dd| == 2 && |yyyy| >= 1 && |hh| == 2 && |mi| == 2
    requires AllDigits(mm) && AllDigits(dd) && AllDigits(yyyy) && AllDigits(hh) && AllDigits(mi)
    requires |s| == 12 + |yyyy|
    requires s[0] == mm[0] && s[1] == mm[1] && s[2] == '/' && s[3] == dd[0] && s[4] == dd[1] && s[5] == '/'
    requires s[|s| - 6] == ' ' && s[|s| - 5] == hh[0] && s[|s| - 4] == hh[1] && s[|s| - 3] == ':'
    requires s[|s| - 2] == mi[0] && s[|s| - 1] == mi[1]
    requires s[6..|s| - 6] == yyyy
    ensures ParseDate(s) == Some(Date(DigitsValue(yyyy), PairValue(mm[0], mm[1]) - 1, PairValue(dd[0], dd[1]),
                                      PairValue(hh[0], hh[1]), PairValue(mi[0], mi[1])))
  {
    assert IsDigit(mm[0]) && IsDigit(mm[1]) && IsDigit(dd[0]) && IsDigit(dd[1]);
    assert IsDigit(hh[0]) && IsDigit(hh[1]) && IsDigit(mi[0]) && IsDigit(mi[1]);
    assert IsTimestamp(s);
  }

  /** Every field of the timestamp can be read back: month (counted from 1), day, year, hour and minute. */
  lemma FormatDateRoundTrip(d: Date)
    requires IsCalendarDate(d) && d.fullYear >= 0
    ensures ParseDate(FormatDate(d)) == Some(d)
  {
    FormatDateParts(d);
    ParseFormattedFields(d);
  }

  lemma ParseFormattedFields(d: Date)
    requires IsCalendarDate(d) && d.fullYear >= 0
    ensures ParseDate((TwoDigits(d.month + 1) + "/" + TwoDigits(d.date) + "/") + NatText(d.fullYear)
                      + (" " + TwoDigits(d.hours) + ":" + TwoDigits(d.minutes))) == Some(d)
  {
    TwoDigitsOf(d.month + 1);
    TwoDigitsOf(d.date);
    TwoDigitsOf(d.hours);
    TwoDigitsOf(d.minutes);
    DigitsValueOfNatText(d.fullYear);
    ParseDateFields(TwoDigits(d.month + 1), TwoDigits(d.date), NatText(d.fullYear), TwoDigits(d.hours), TwoDigits(d.minutes));
  }

  lemma FormatDateParts(d: Date)
    requires d.fullYear >= 0
    ensures FormatDate(d) == (TwoDigits(d.month + 1) + "/" + TwoDigits(d.date) + "/") + NatText(d.fullYear)
                           + (" " + TwoDigits(d.hours) + ":" + TwoDigits(d.minutes))
  {
  }

  /** A number below 10 gets one leading zero. */
  lemma TwoDigitsSmall(n: int)
    requires 0 <= n < 10
    ensures TwoDigits(n) == ['0', DigitChar(n)]
  {
    assert DecimalText(n) == [DigitChar(n)];
    assert TwoDigits(n) == Padded(['0', DigitChar(n)], 2);
  }

  /** The month is written counted from 1, and day, hour and minute take two digits each. */
  lemma FormatDateExample()
    ensures FormatDate(Date(2015, 0, 5, 9, 7)) == "01/05/2015 09:07"
  {
    TwoDigitsSmall(1);
    TwoDigitsSmall(5);
    TwoDigitsSmall(9);
    TwoDigitsSmall(7);
    assert DecimalText(2015) == "2015";
    assert TwoDigits(1) + "/" + TwoDigits(5) + "/" == "01/05/";
    assert " " + TwoDigits(9) + ":" + TwoDigits(7) == " 09:07";
    assert "01/05/" + "2015" + " 09:07" == "01/05/2015 09:07";
  }
}
