/**
 * The local clock reading and its `%H:%M` rendering (24-hour, zero-padded),
 * as used in the time announcement. The clock itself is an input.
 */
module Clock {
  import opened Optional

  type Hour = h: int | 0 <= h < 24
  type Minute = m: int | 0 <= m < 60

  datatype LocalTime = LocalTime(hour: Hour, minute: Minute)

  predicate IsDigit(c: char)
  {
    '0' <= c <= '9'
  }

  function DigitChar(d: int): (c: char)
    requires 0 <= d < 10
    ensures IsDigit(c) && c as int - '0' as int == d
  {
    ('0' as int + d) as char
  }

  function DigitValue(c: char): (d: int)
    requires IsDigit(c)
    ensures 0 <= d < 10 && DigitChar(d) == c
  {
    c as int - '0' as int
  }

  /** A number below 100 as exactly two decimal digits, with a leading zero if needed. */
  function TwoDigits(n: int): (s: string)
    requires 0 <= n < 100
    ensures |s| == 2 && IsDigit(s[0]) && IsDigit(s[1])
    ensures DigitValue(s[0]) * 10 + DigitValue(s[1]) == n
  {
    [DigitChar(n / 10), DigitChar(n % 10)]
  }

  /** strftime's `%H:%M`. */
  function FormatHHMM(t: LocalTime): (s: string)
    ensures |s| == 5 && s[2] == ':'
    ensures IsDigit(s[0]) && IsDigit(s[1]) && IsDigit(s[3]) && IsDigit(s[4])
  {
    TwoDigits(t.hour) + ":" + TwoDigits(t.minute)
  }

  /** Reads back an `HH:MM` string; anything else, or an hour or minute out of range, is None. */
  function ParseHHMM(s: string): Option<LocalTime>
  {
    if |s| == 5 && s[2] == ':' && IsDigit(s[0]) && IsDigit(s[1]) && IsDigit(s[3]) && IsDigit(s[4]) then
      var h := DigitValue(s[0]) * 10 + DigitValue(s[1]);
      var m := DigitValue(s[3]) * 10 + DigitValue(s[4]);
      if h < 24 && m < 60 then Some(LocalTime(h, m)) else None
    else None
  }

  /** Every clock reading renders to an `HH:MM` string that reads back as the same time. */
  lemma ParseFormat(t: LocalTime)
    ensures ParseHHMM(FormatHHMM(t)) == Some(t)
  {
    var s := FormatHHMM(t);
    assert s[..2] == TwoDigits(t.hour) && s[3..] == TwoDigits(t.minute);
  }

  /** Every string that reads as a time is exactly the rendering of that time. */
  lemma FormatParse(s: string)
    requires ParseHHMM(s).Some?
    ensures FormatHHMM(ParseHHMM(s).value) == s
  {
    var t := ParseHHMM(s).value;
    var a, b, c, d := DigitValue(s[0]), DigitValue(s[1]), DigitValue(s[3]), DigitValue(s[4]);
    assert (a * 10 + b) / 10 == a && (a * 10 + b) % 10 == b;
    assert (c * 10 + d) / 10 == c && (c * 10 + d) % 10 == d;
    var f := FormatHHMM(t);
    assert f[0] == s[0] && f[1] == s[1] && f[2] == s[2] && f[3] == s[3] && f[4] == s[4];
  }
}
