/** Parsing of textual shelf-life values with datetime.strptime(s, "%Y-%m-%d").date().

    Python compiles that format to the pattern
      Y: four digits,  m: 1[0-2] | 0[1-9] | [1-9],  d: 3[01] | [12]digit | 0[1-9] | [1-9] | space[1-9]
    separated by '-', and refuses the text when the pattern does not match, when
    characters remain after it, or when the numbers do not form a date (year 0,
    30 February, ...). */
module IsoDate {
  import opened Dates
  import opened Wrappers

  predicate IsDigit(c: char) {
    '0' <= c <= '9'
  }

  predicate IsNonZeroDigit(c: char) {
    '1' <= c <= '9'
  }

  function DigitValue(c: char): (v: int)
    requires IsDigit(c)
    ensures 0 <= v <= 9
  {
    c as int - '0' as int
  }

  function DigitChar(v: int): (c: char)
    requires 0 <= v <= 9
    ensures IsDigit(c) && DigitValue(c) == v
  {
    ('0' as int + v) as char
  }

  /** The two-character alternatives of the month pattern: 1[0-2] and 0[1-9]. */
  predicate IsTwoCharMonth(a: char, b: char) {
    (a == '1' && '0' <= b <= '2') || (a == '0' && IsNonZeroDigit(b))
  }

  /** The text following the second '-' is, in full, one alternative of the day pattern.
      Every two-character alternative is tried before the one-character one, so a
      match that leaves characters over means the text is refused. */
  predicate IsDayText(t: string) {
    (|t| == 1 && IsNonZeroDigit(t[0]))
    || (|t| == 2 && ((t[0] == '3' && '0' <= t[1] <= '1')
                     || ('1' <= t[0] <= '2' && IsDigit(t[1]))
                     || (t[0] == '0' && IsNonZeroDigit(t[1]))
                     || (t[0] == ' ' && IsNonZeroDigit(t[1]))))
  }

  function DayValue(t: string): (v: int)
    requires IsDayText(t)
    ensures 1 <= v <= 31
  {
    if |t| == 1 then DigitValue(t[0])
    else if t[0] == ' ' then DigitValue(t[1])
    else 10 * DigitValue(t[0]) + DigitValue(t[1])
  }

  /** The month field and the text after its closing '-', or None when the month pattern fails. */
  function SplitMonth(rest: string): (r: Option<(int, string)>)
    ensures r.Some? ==> 1 <= r.value.0 <= 12 && |r.value.1| < |rest|
  {
    if |rest| >= 3 && IsTwoCharMonth(rest[0], rest[1]) && rest[2] == '-' then
      Some((10 * DigitValue(rest[0]) + DigitValue(rest[1]), rest[3..]))
    else if |rest| >= 2 && IsNonZeroDigit(rest[0]) && rest[1] == '-' then
      Some((DigitValue(rest[0]), rest[2..]))
    else
      None
  }

  /** strptime(s, "%Y-%m-%d").date(), None where Python raises ValueError. */
  function ParseIsoDate(s: string): (r: Option<Date>)
    ensures r.Some? ==> 1 <= r.value.year <= 9999
    ensures r.Some? ==> 8 <= |s| <= 10 && s[4] == '-'
  {
    if |s| < 5 || !(IsDigit(s[0]) && IsDigit(s[1]) && IsDigit(s[2]) && IsDigit(s[3])) || s[4] != '-' then None
    else
      var year := 1000 * DigitValue(s[0]) + 100 * DigitValue(s[1]) + 10 * DigitValue(s[2]) + DigitValue(s[3]);
      match SplitMonth(s[5..])
      case None => None
      case Some((month, dayText)) =>
        if !IsDayText(dayText) then None
        else
          var day := DayValue(dayText);
          if year < 1 || day > DaysInMonth(year, month) then None
          else
            var d: Date := YMD(year, month, day);
            Some(d)
  }

  function Pad2(n: int): (s: string)
    requires 0 <= n < 100
    ensures |s| == 2 && IsDigit(s[0]) && IsDigit(s[1])
  {
    [DigitChar(n / 10), DigitChar(n % 10)]
  }

  /** The ISO text of a date, as str(date) writes it for years 1..9999. */
  function FormatIsoDate(d: Date): (s: string)
    requires 1 <= d.year <= 9999
    ensures |s| == 10 && s[4] == '-' && s[7] == '-'
  {
    Pad2(d.year / 100) + Pad2(d.year % 100) + "-" + Pad2(d.month) + "-" + Pad2(d.day)
  }

  /** Every date Python can write is read back unchanged. */
  lemma ParseFormatRoundTrip(d: Date)
    requires 1 <= d.year <= 9999
    ensures ParseIsoDate(FormatIsoDate(d)) == Some(d)
  {
    var s := FormatIsoDate(d);
    var rest := s[5..];
    assert rest[2] == '-' && rest[3..] == Pad2(d.day);
    assert IsTwoCharMonth(rest[0], rest[1]);
    assert SplitMonth(rest) == Some((d.month, Pad2(d.day)));
  }

  lemma DigitRoundTrip(c: char)
    requires IsDigit(c)
    ensures DigitChar(DigitValue(c)) == c
  {
  }

  lemma Pad2Digits(a: char, b: char)
    requires IsDigit(a) && IsDigit(b)
    ensures Pad2(10 * DigitValue(a) + DigitValue(b)) == [a, b]
  {
    DigitRoundTrip(a);
    DigitRoundTrip(b);
  }

  /** A ten-character text that parses, and whose day does not start with a space,
      is exactly the canonical text of the parsed date. */
  lemma ParseCanonical(s: string, d: Date)
    requires ParseIsoDate(s) == Some(d)
    requires |s| == 10 && s[8] != ' '
    ensures FormatIsoDate(d) == s
  {
    var rest := s[5..];
    assert IsTwoCharMonth(rest[0], rest[1]) && rest[2] == '-';
    var hi, lo := 10 * DigitValue(s[0]) + DigitValue(s[1]), 10 * DigitValue(s[2]) + DigitValue(s[3]);
    assert d.year == 100 * hi + lo;
    assert d.year / 100 == hi && d.year % 100 == lo;
    assert d.month == 10 * DigitValue(s[5]) + DigitValue(s[6]);
    assert d.day == 10 * DigitValue(s[8]) + DigitValue(s[9]);
    Pad2Digits(s[0], s[1]);
    Pad2Digits(s[2], s[3]);
    Pad2Digits(s[5], s[6]);
    Pad2Digits(s[8], s[9]);
    assert s == [s[0], s[1]] + [s[2], s[3]] + "-" + [s[5], s[6]] + "-" + [s[8], s[9]];
  }

  /** Texts that are not dates are refused, not guessed. */
  lemma RefusesImpossibleDates()
    ensures ParseIsoDate("2023-02-29") == None
    ensures ParseIsoDate("0000-01-01") == None
    ensures ParseIsoDate("2024-13-01") == None
    ensures ParseIsoDate("2024-1-5").Some? && ParseIsoDate("2024-1-5").value == YMD(2024, 1, 5)
  {
    assert SplitMonth("02-29") == Some((2, "29"));
    assert SplitMonth("1-5") == Some((1, "5"));
    assert SplitMonth("13-01") == None;
  }
}
