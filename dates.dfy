/** Calendar dates as Python's `datetime` parses and prints them: the
    `strptime` formats `%m-%d-%Y` and `%m/%d/%Y`, and the `strftime` formats
    `%Y-%m-%d` (the trial-order dates) and `%Y.%m.%d` (the e-filing prefix). */
module Dates {
  import opened Text

  datatype Date = Date(year: int, month: int, day: int)

  predicate IsLeap(y: int) {
    y % 4 == 0 && (y % 100 != 0 || y % 400 == 0)
  }

  function DaysInMonth(y: int, m: int): (n: int)
    requires 1 <= m <= 12
    ensures 28 <= n <= 31
    ensures m == 2 ==> (n == 29 <==> IsLeap(y))
  {
    if m == 2 then (if IsLeap(y) then 29 else 28)
    else if m == 4 || m == 6 || m == 9 || m == 11 then 30
    else 31
  }

  /** What `datetime.date` accepts: year 1 to 9999, a real month and day. */
  predicate IsValid(d: Date) {
    && 1 <= d.year <= 9999
    && 1 <= d.month <= 12
    && 1 <= d.day <= DaysInMonth(d.year, d.month)
  }

  function DigitValue(c: char): (v: nat)
    requires IsDigit(c)
    ensures v <= 9
  {
    c as int - '0' as int
  }

  function DigitChar(v: nat): (c: char)
    requires v <= 9
    ensures IsDigit(c) && DigitValue(c) == v
  {
    ('0' as int + v) as char
  }

  /** The decimal value of a run of one to four digits. */
  function Num(s: string): (n: nat)
    requires 1 <= |s| <= 4 && AllDigits(s)
    ensures n < if |s| == 1 then 10 else if |s| == 2 then 100 else if |s| == 3 then 1000 else 10000
  {
    if |s| == 1 then DigitValue(s[0])
    else 10 * Num(s[..|s| - 1]) + DigitValue(s[|s| - 1])
  }

  /** `%m` and `%d` in `strftime`: two digits, zero-padded. */
  function Pad2(n: nat): (s: string)
    requires n < 100
    ensures |s| == 2 && AllDigits(s) && Num(s) == n
  {
    var s := [DigitChar(n / 10), DigitChar(n % 10)];
    assert s[..1] == [s[0]];
    s
  }

  /** `%Y` in `strftime`: four digits, zero-padded. */
  function Pad4(n: nat): (s: string)
    requires n < 10000
    ensures |s| == 4 && AllDigits(s) && Num(s) == n
  {
    var s := [DigitChar(n / 1000), DigitChar(n / 100 % 10), DigitChar(n / 10 % 10), DigitChar(n % 10)];
    assert s[..3][..2][..1] == [s[0]];
    assert Num(s[..3][..2]) == n / 100;
    assert Num(s[..3]) == n / 10;
    s
  }

  lemma Num2(s: string)
    requires |s| == 2 && AllDigits(s)
    ensures Num(s) == 10 * DigitValue(s[0]) + DigitValue(s[1])
  {
    assert s[..1] == [s[0]];
  }

  lemma Num4(s: string)
    requires |s| == 4 && AllDigits(s)
    ensures Num(s) == 1000 * DigitValue(s[0]) + 100 * DigitValue(s[1]) + 10 * DigitValue(s[2]) + DigitValue(s[3])
  {
    assert s[..3][..2] == s[..2];
    Num2(s[..2]);
  }

  lemma {:induction false} Pad2OfNum(s: string)
    requires |s| == 2 && AllDigits(s)
    ensures Pad2(Num(s)) == s
  {
    assert s[..1] == [s[0]];
  }

  lemma {:induction false} Pad4OfNum(s: string)
    requires |s| == 4 && AllDigits(s)
    ensures Pad4(Num(s)) == s
  {
    Num4Injective(Pad4(Num(s)), s);
  }

  /** Four digits are determined by their value. */
  lemma Num4Injective(p: string, s: string)
    requires |p| == 4 && AllDigits(p) && |s| == 4 && AllDigits(s)
    requires Num(p) == Num(s)
    ensures p == s
  {
    Num4(p);
    Num4(s);
    DigitsEqual(DigitValue(p[0]), DigitValue(p[1]), DigitValue(p[2]), DigitValue(p[3]),
      DigitValue(s[0]), DigitValue(s[1]), DigitValue(s[2]), DigitValue(s[3]));
    assert p[0] == s[0] && p[1] == s[1] && p[2] == s[2] && p[3] == s[3];
  }

  lemma DigitsEqual(a: int, b: int, c: int, d: int, a': int, b': int, c': int, d': int)
    requires 0 <= a <= 9 && 0 <= b <= 9 && 0 <= c <= 9 && 0 <= d <= 9
    requires 0 <= a' <= 9 && 0 <= b' <= 9 && 0 <= c' <= 9 && 0 <= d' <= 9
    requires 1000 * a + 100 * b + 10 * c + d == 1000 * a' + 100 * b' + 10 * c' + d'
    ensures a == a' && b == b' && c == c' && d == d'
  {
    assert a == a';
    assert b == b';
    assert c == c';
  }

  /** `%m` in `strptime`: `1[0-2]|0[1-9]|[1-9]`, a field of one or two
      digits with value 1 to 12. `%d`: `3[01]|[12]\d|0[1-9]|[1-9]| [1-9]`,
      one or two digits with value 1 to 31, or a blank and one digit.
      Because a separator must follow, the length of each field is decided
      by the text, so the regular expression matches in at most one way. */
  function MonthField(s: string): (r: Option<(int, nat)>)
    ensures r.Some? ==> 1 <= r.value.1 <= 2 && r.value.1 <= |s| && 1 <= r.value.0 <= 12
  {
    var e := DigitEnd(s, 0);
    if 1 <= e <= 2 && 1 <= Num(s[..e]) <= 12 then Some((Num(s[..e]), e)) else None
  }

  function DayField(s: string): (r: Option<(int, nat)>)
    ensures r.Some? ==> r.value.1 <= |s| && 1 <= r.value.0 <= 31
  {
    if |s| >= 2 && s[0] == ' ' && '1' <= s[1] <= '9' then Some((DigitValue(s[1]), 2))
    else
      var e := DigitEnd(s, 0);
      if 1 <= e <= 2 && 1 <= Num(s[..e]) <= 31 then Some((Num(s[..e]), e)) else None
  }

  /** `datetime.strptime(s, "%m<sep>%d<sep>%Y")`: the whole string must
      match, and the date must exist; otherwise `ValueError` (here `None`). */
  function Strptime(s: string, sep: char): (r: Option<Date>)
    ensures r.Some? ==> IsValid(r.value)
  {
    match MonthField(s)
    case None => None
    case Some((m, a)) =>
      if a >= |s| || s[a] != sep then None
      else
        var t := s[a + 1..];
        match DayField(t)
        case None => None
        case Some((d, b)) =>
          if b >= |t| || t[b] != sep then None
          else
            var y := t[b + 1..];
            if |y| == 4 && AllDigits(y) && IsValid(Date(Num(y), m, d)) then Some(Date(Num(y), m, d))
            else None
  }

  /** The text `\d{2}-\d{2}-\d{4}` that the trial-order patterns capture. */
  predicate DateShaped(s: string) {
    && |s| == 10
    && IsDigit(s[0]) && IsDigit(s[1]) && s[2] == '-'
    && IsDigit(s[3]) && IsDigit(s[4]) && s[5] == '-'
    && AllDigits(s[6..])
  }

  /** The date that a `DateShaped` text spells, read as month-day-year. */
  function ShapedDate(s: string): Date
    requires DateShaped(s)
  {
    Date(Num(s[6..]), Num(s[..2]), Num(s[3..5]))
  }

  /** `strftime` with `%Y<sep>%m<sep>%d`: `"%Y-%m-%d"` for the trial-order
      dates, `"%Y.%m.%d"` for the e-filing prefix. */
  function DateText(d: Date, sep: char): (s: string)
    requires IsValid(d)
    ensures |s| == 10
  {
    Pad4(d.year) + [sep] + Pad2(d.month) + [sep] + Pad2(d.day)
  }

  /** `convert_date_format` in the regex extractor: `MM-DD-YYYY` becomes
      `YYYY-MM-DD`; text that does not parse is passed through unchanged. */
  function ConvertDateFormat(s: string): (r: string)
  {
    match Strptime(s, '-')
    case Some(d) => DateText(d, '-')
    case None => s
  }

  /** A captured `MM-DD-YYYY` parses exactly when it names a real date. */
  lemma {:induction false} StrptimeShaped(s: string)
    requires DateShaped(s)
    ensures Strptime(s, '-') == if IsValid(ShapedDate(s)) then Some(ShapedDate(s)) else None
  {
    assert DigitEnd(s, 0) == 2 by {
      assert DigitEnd(s, 2) == 2;
      assert DigitEnd(s, 1) == DigitEnd(s, 2);
    }
    var t := s[3..];
    assert DigitEnd(t, 0) == 2 by {
      assert DigitEnd(t, 2) == 2;
      assert DigitEnd(t, 1) == DigitEnd(t, 2);
    }
    assert t[..2] == s[3..5];
    assert t[3..] == s[6..];
  }

  /** A captured `MM-DD-YYYY` that names a real date is re-emitted with the
      same digits as `YYYY-MM-DD`; one that does not is returned unchanged. */
  lemma {:induction false} ConvertShaped(s: string)
    requires DateShaped(s)
    ensures ConvertDateFormat(s) == if IsValid(ShapedDate(s)) then s[6..] + "-" + s[..2] + "-" + s[3..5] else s
  {
    StrptimeShaped(s);
    if IsValid(ShapedDate(s)) {
      Pad4OfNum(s[6..]);
      Pad2OfNum(s[..2]);
      Pad2OfNum(s[3..5]);
    }
  }

  /** Every real date survives the round trip through its zero-padded
      `MM<sep>DD<sep>YYYY` spelling. */
  lemma {:induction false} StrptimeRoundTrip(d: Date, sep: char)
    requires IsValid(d) && !IsDigit(sep) && sep != ' '
    ensures Strptime(Pad2(d.month) + [sep] + Pad2(d.day) + [sep] + Pad4(d.year), sep) == Some(d)
  {
    var s := Pad2(d.month) + [sep] + Pad2(d.day) + [sep] + Pad4(d.year);
    assert DigitEnd(s, 0) == 2 by {
      assert DigitEnd(s, 2) == 2;
      assert DigitEnd(s, 1) == DigitEnd(s, 2);
    }
    assert s[..2] == Pad2(d.month);
    var t := s[3..];
    assert t == Pad2(d.day) + [sep] + Pad4(d.year);
    assert DigitEnd(t, 0) == 2 by {
      assert DigitEnd(t, 2) == 2;
      assert DigitEnd(t, 1) == DigitEnd(t, 2);
    }
    assert t[..2] == Pad2(d.day);
    assert t[3..] == Pad4(d.year);
  }

  /** A month and a day of one or two digits and a four-digit year, joined
      by two separators, parse under `%m<sep>%d<sep>%Y` exactly when both
      separators are `sep` and the fields name a real date, and then give
      that date. */
  lemma {:induction false} StrptimeFields(m: string, d: string, y: string, s1: char, s2: char, sep: char)
    requires 1 <= |m| <= 2 && AllDigits(m) && 1 <= |d| <= 2 && AllDigits(d) && |y| == 4 && AllDigits(y)
    requires !IsDigit(s1) && !IsDigit(s2)
    ensures Strptime(m + [s1] + d + [s2] + y, sep) ==
      if s1 == sep && s2 == sep && IsValid(Date(Num(y), Num(m), Num(d))) then Some(Date(Num(y), Num(m), Num(d))) else None
  {
    var s := m + [s1] + d + [s2] + y;
    assert s[..|m|] == m;
    DigitEndAt(s, 0, |m|);
    var t := s[|m| + 1..];
    assert t == d + [s2] + y;
    assert t[..|d|] == d;
    DigitEndAt(t, 0, |d|);
    assert t[|d| + 1..] == y;
  }

  /** `"09-16-2024"` is stored as `"2024-09-16"`. (The text is a parameter
      so that the verifier reasons about it through the lemmas above rather
      than by unfolding the parser on a literal.) */
  lemma ConvertExampleValid(s: string)
    requires s == "09-16-2024"
    ensures ConvertDateFormat(s) == "2024-09-16"
  {
    ExampleParts(s);
    ConvertShaped(s);
  }

  lemma ExampleParts(s: string)
    requires s == "09-16-2024"
    ensures DateShaped(s) && IsValid(ShapedDate(s))
    ensures s[6..] + "-" + s[..2] + "-" + s[3..5] == "2024-09-16"
  {
    assert DateShaped(s);
    assert s[6..] == "2024" && s[..2] == "09" && s[3..5] == "16";
    Num4(s[6..]);
    Num2(s[..2]);
    Num2(s[3..5]);
    assert ShapedDate(s) == Date(2024, 9, 16);
  }

  /** `"13-45-2024"` does not parse and is passed through, not dropped. */
  lemma ConvertExampleInvalid(s: string)
    requires s == "13-45-2024"
    ensures ConvertDateFormat(s) == s
  {
    assert DateShaped(s);
    assert s[..2] == "13";
    Num2(s[..2]);
    assert ShapedDate(s).month == 13;
    ConvertShaped(s);
  }
}
