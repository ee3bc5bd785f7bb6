/**
 * An explicit stand-in for PHP's date_create_from_format and DateTime::format
 * on the two layouts the validator uses, 'Y-m-d' and 'Y-m-d\TH:i:s\Z'.
 *
 * Parsing reads fixed-width decimal fields and the literal separators and
 * yields a calendar value only when every field is in range (month 01-12, a
 * day that exists in that month of the proleptic Gregorian calendar, hour
 * 00-23, minute and second 00-59). PHP would instead roll an out-of-range
 * field over into a neighbouring date; that date formats differently from the
 * input, so in both cases the validator's round trip fails.
 */
module DateFormat {
  import opened Wrappers

  predicate IsDigit(c: char) { '0' <= c <= '9' }

  predicate AllDigits(s: string) { forall i :: 0 <= i < |s| ==> IsDigit(s[i]) }

  function Pow10(w: nat): (r: nat)
    ensures r >= 1
  {
    if w == 0 then 1 else 10 * Pow10(w - 1)
  }

  /** The number a run of decimal digits denotes, most significant digit first. */
  function NumberOf(s: string): (n: nat)
    requires AllDigits(s)
    ensures n < Pow10(|s|)
  {
    if s == [] then 0
    else
      var high := NumberOf(s[..|s| - 1]);
      assert high <= Pow10(|s| - 1) - 1;
      10 * high + (s[|s| - 1] as int - '0' as int)
  }

  /** n written with exactly w decimal digits, padded on the left with zeros. */
  function Pad(n: nat, w: nat): (s: string)
    requires n < Pow10(w)
    ensures |s| == w && AllDigits(s)
  {
    if w == 0 then []
    else Pad(n / 10, w - 1) + [('0' as int + n % 10) as char]
  }

  /** Reading back a padded number gives the number. */
  lemma {:induction false} NumberOfPad(n: nat, w: nat)
    requires n < Pow10(w)
    ensures NumberOf(Pad(n, w)) == n
  {
    if w > 0 {
      var s := Pad(n, w);
      assert s[..w - 1] == Pad(n / 10, w - 1);
      NumberOfPad(n / 10, w - 1);
    }
  }

  /** Padding the number a digit run denotes to the run's width gives the run back. */
  lemma {:induction false} PadNumberOf(s: string)
    requires AllDigits(s)
    ensures Pad(NumberOf(s), |s|) == s
  {
    if s != [] {
      var init := s[..|s| - 1];
      var last := s[|s| - 1] as int - '0' as int;
      var n := NumberOf(s);
      PadNumberOf(init);
      assert n == 10 * NumberOf(init) + last;
      DivMod10(NumberOf(init), last);
      assert Pad(n, |s|) == Pad(n / 10, |s| - 1) + [('0' as int + n % 10) as char];
      assert s == init + [s[|s| - 1]];
    }
  }

  /** The last decimal digit and the rest of 10 * q + r. */
  lemma DivMod10(q: nat, r: nat)
    requires r < 10
    ensures (10 * q + r) / 10 == q && (10 * q + r) % 10 == r
  {
  }

  datatype Date = Date(year: nat, month: nat, day: nat)

  datatype DateTime = DateTime(date: Date, hour: nat, minute: nat, second: nat)

  predicate IsLeapYear(y: nat)
  {
    y % 4 == 0 && (y % 100 != 0 || y % 400 == 0)
  }

  function DaysInMonth(y: nat, m: nat): (r: nat)
    requires 1 <= m <= 12
    ensures 28 <= r <= 31
    ensures r == 29 <==> m == 2 && IsLeapYear(y)
  {
    if m == 2 then (if IsLeapYear(y) then 29 else 28)
    else if m == 4 || m == 6 || m == 9 || m == 11 then 30
    else 31
  }

  /** A date that 'Y-m-d' can write with a four-digit year. */
  predicate ValidDate(d: Date)
  {
    d.year < 10000 && 1 <= d.month <= 12 && 1 <= d.day <= DaysInMonth(d.year, d.month)
  }

  predicate ValidDateTime(t: DateTime)
  {
    ValidDate(t.date) && t.hour < 24 && t.minute < 60 && t.second < 60
  }

  /** DateTime::format('Y-m-d') */
  function FormatDate(d: Date): (s: string)
    requires ValidDate(d)
    ensures |s| == 10 && s[4] == '-' && s[7] == '-'
  {
    Pad(d.year, 4) + "-" + Pad(d.month, 2) + "-" + Pad(d.day, 2)
  }

  /** DateTime::format('Y-m-d\TH:i:s\Z') */
  function FormatDateTime(t: DateTime): (s: string)
    requires ValidDateTime(t)
    ensures |s| == 20 && s[10] == 'T' && s[13] == ':' && s[16] == ':' && s[19] == 'Z'
  {
    FormatDate(t.date) + "T" + Pad(t.hour, 2) + ":" + Pad(t.minute, 2) + ":" + Pad(t.second, 2) + "Z"
  }

  /** A timestamp is written as its date, a 'T', its clock time and a 'Z'. */
  lemma FormatDateTimeParts(d: Date, hour: nat, minute: nat, second: nat)
    requires ValidDateTime(DateTime(d, hour, minute, second))
    ensures FormatDateTime(DateTime(d, hour, minute, second))
            == FormatDate(d) + "T" + (Pad(hour, 2) + ":" + Pad(minute, 2) + ":" + Pad(second, 2)) + "Z"
  {
  }

  /** date_create_from_format('Y-m-d', s), None standing for false or a rolled-over date. */
  function ParseDate(s: string): (r: Option<Date>)
    ensures r.Some? ==> ValidDate(r.value)
  {
    if |s| == 10 && AllDigits(s[..4]) && s[4] == '-' && AllDigits(s[5..7]) && s[7] == '-' && AllDigits(s[8..])
    then
      var d := Date(NumberOf(s[..4]), NumberOf(s[5..7]), NumberOf(s[8..]));
      if ValidDate(d) then Some(d) else None
    else None
  }

  /** date_create_from_format('Y-m-d\TH:i:s\Z', s), read the same way. */
  function ParseDateTime(s: string): (r: Option<DateTime>)
    ensures r.Some? ==> ValidDateTime(r.value)
  {
    if |s| == 20 && s[10] == 'T' && AllDigits(s[11..13]) && s[13] == ':' && AllDigits(s[14..16])
       && s[16] == ':' && AllDigits(s[17..19]) && s[19] == 'Z'
    then
      match ParseDate(s[..10])
      case None => None
      case Some(d) =>
        var t := DateTime(d, NumberOf(s[11..13]), NumberOf(s[14..16]), NumberOf(s[17..19]));
        if ValidDateTime(t) then Some(t) else None
    else None
  }

  /** Every date in range is read back from its own formatting. */
  lemma ParseFormatDate(d: Date)
    requires ValidDate(d)
    ensures ParseDate(FormatDate(d)) == Some(d)
  {
    var s := FormatDate(d);
    assert s[..4] == Pad(d.year, 4);
    assert s[5..7] == Pad(d.month, 2);
    assert s[8..] == Pad(d.day, 2);
    NumberOfPad(d.year, 4);
    NumberOfPad(d.month, 2);
    NumberOfPad(d.day, 2);
  }

  /** Whatever is read formats back to exactly the text it was read from. */
  lemma FormatParseDate(s: string)
    requires ParseDate(s).Some?
    ensures FormatDate(ParseDate(s).value) == s
  {
    var year, month, day := s[..4], s[5..7], s[8..];
    assert ParseDate(s).value == Date(NumberOf(year), NumberOf(month), NumberOf(day));
    PadNumberOf(year);
    PadNumberOf(month);
    PadNumberOf(day);
    assert s == year + s[4..5] + month + s[7..8] + day;
    assert s[4..5] == "-" && s[7..8] == "-";
  }

  lemma ParseFormatDateTime(t: DateTime)
    requires ValidDateTime(t)
    ensures ParseDateTime(FormatDateTime(t)) == Some(t)
  {
    var s := FormatDateTime(t);
    assert s[..10] == FormatDate(t.date);
    ParseFormatDate(t.date);
    assert s[11..13] == Pad(t.hour, 2);
    assert s[14..16] == Pad(t.minute, 2);
    assert s[17..19] == Pad(t.second, 2);
    NumberOfPad(t.hour, 2);
    NumberOfPad(t.minute, 2);
    NumberOfPad(t.second, 2);
  }

  lemma FormatParseDateTime(s: string)
    requires ParseDateTime(s).Some?
    ensures FormatDateTime(ParseDateTime(s).value) == s
  {
    FormatParseDate(s[..10]);
    PadNumberOf(s[11..13]);
    PadNumberOf(s[14..16]);
    PadNumberOf(s[17..19]);
    assert s == s[..10] + "T" + s[11..13] + ":" + s[14..16] + ":" + s[17..19] + "Z";
  }
}
