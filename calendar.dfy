/**
 * Day-precision dates as chrono's `NaiveDate::format` writes them for the
 * request builders: `%d-%m-%Y` for a coin's history, `%Y-%m-%d` for the
 * event date range. Calendar validity is not modelled: a date is any
 * (year, month, day) with a four-digit year, a month 1..12 and a day 1..31.
 */
module Calendar {
  import opened Wrappers
  import opened Render

  datatype Date = Date(year: int, month: int, day: int)

  type CalendarDate = d: Date | 0 <= d.year <= 9999 && 1 <= d.month <= 12 && 1 <= d.day <= 31
    witness Date(1970, 1, 1)

  /** Zero-padded two-digit text (chrono's `%d` and `%m`). */
  function Pad2(n: nat): (s: string)
    requires n < 100
    ensures |s| == 2 && AllDigits(s) && NatOf(s) == n
  {
    var s := [DigitChar(n / 10), DigitChar(n % 10)];
    assert s[..1] == [DigitChar(n / 10)] && s[..1][..0] == [];
    assert NatOf(s[..1]) == n / 10;
    assert NatOf(s) == 10 * (n / 10) + n % 10;
    s
  }

  /** Zero-padded four-digit text (chrono's `%Y` for years 0 to 9999). */
  function Pad4(n: nat): (s: string)
    requires n < 10000
    ensures |s| == 4 && AllDigits(s) && NatOf(s) == n
  {
    var hi, lo := Pad2(n / 100), Pad2(n % 100);
    var s := hi + lo;
    assert s[..3] == hi + [lo[0]] && s[..3][..2] == hi;
    assert lo[..1] == [lo[0]];
    s
  }

  /** Reads `DD-MM-YYYY` back into a date. */
  function DmyOf(s: string): Option<Date>
  {
    if |s| == 10 && s[2] == '-' && s[5] == '-'
       && AllDigits(s[..2]) && AllDigits(s[3..5]) && AllDigits(s[6..])
    then Some(Date(NatOf(s[6..]), NatOf(s[3..5]), NatOf(s[..2])))
    else None
  }

  /** Reads `YYYY-MM-DD` back into a date. */
  function YmdOf(s: string): Option<Date>
  {
    if |s| == 10 && s[4] == '-' && s[7] == '-'
       && AllDigits(s[..4]) && AllDigits(s[5..7]) && AllDigits(s[8..])
    then Some(Date(NatOf(s[..4]), NatOf(s[5..7]), NatOf(s[8..])))
    else None
  }

  /** `date.format("%d-%m-%Y")`: ten characters that read back as the same date. */
  function FormatDmy(d: CalendarDate): (s: string)
    ensures DmyOf(s) == Some(d)
  {
    var dd, mm, yyyy := Pad2(d.day), Pad2(d.month), Pad4(d.year);
    var s := dd + "-" + mm + "-" + yyyy;
    assert s[..2] == dd && s[3..5] == mm && s[6..] == yyyy;
    s
  }

  /** `date.format("%Y-%m-%d")`: ten characters that read back as the same date. */
  function FormatYmd(d: CalendarDate): (s: string)
    ensures YmdOf(s) == Some(d)
  {
    var yyyy, mm, dd := Pad4(d.year), Pad2(d.month), Pad2(d.day);
    var s := yyyy + "-" + mm + "-" + dd;
    assert s[..4] == yyyy && s[5..7] == mm && s[8..] == dd;
    s
  }
}
