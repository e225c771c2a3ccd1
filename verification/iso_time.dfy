/** JavaScript `Date` values as the scanner uses them: an instant read from the
    clock, written into a record, and rendered with `toISOString()` for the alert. */
module IsoTime {
  import opened Text

  /** A `Date`: milliseconds since 1970-01-01T00:00:00.000Z. */
  datatype Instant = Instant(epochMillis: int)

  const MillisPerDay: int := 86400000

  datatype CivilDate = CivilDate(year: int, month: int, day: int)

  /** The proleptic Gregorian date of a count of days since 1970-01-01;
      `/` is floor division here because every divisor is positive. */
  function CivilFromDays(days: int): CivilDate
  {
    var z := days + 719468;
    var era := z / 146097;
    var dayOfEra := z - era * 146097;
    var yearOfEra := (dayOfEra - dayOfEra / 1460 + dayOfEra / 36524 - dayOfEra / 146096) / 365;
    var dayOfYear := dayOfEra - (365 * yearOfEra + yearOfEra / 4 - yearOfEra / 100);
    var shiftedMonth := (5 * dayOfYear + 2) / 153;
    var day := dayOfYear - (153 * shiftedMonth + 2) / 5 + 1;
    var month := if shiftedMonth < 10 then shiftedMonth + 3 else shiftedMonth - 9;
    var year := yearOfEra + era * 400;
    CivilDate(if month <= 2 then year + 1 else year, month, day)
  }

  /** The last `width` decimal digits of `n`, zero-padded. */
  function Digits(n: int, width: nat): (r: string)
    ensures |r| == width
    decreases width
  {
    if width == 0 then "" else Digits(n / 10, width - 1) + [DigitChar(n % 10)]
  }

  /** Four digits for years 0 to 9999, otherwise a sign and six digits. */
  function YearText(year: int): (r: string)
    ensures |r| == 4 || |r| == 7
  {
    if 0 <= year <= 9999 then Digits(year, 4)
    else if year < 0 then "-" + Digits(-year, 6)
    else "+" + Digits(year, 6)
  }

  function DateText(d: CivilDate): (r: string)
    ensures |r| == 10 || |r| == 13
  {
    YearText(d.year) + "-" + Digits(d.month, 2) + "-" + Digits(d.day, 2)
  }

  /** HH:mm:ss.sss of a millisecond offset within a day. */
  function TimeText(ms: int): (r: string)
    ensures |r| == 12
  {
    Digits(ms / 3600000, 2) + ":" + Digits(ms / 60000 % 60, 2) + ":"
      + Digits(ms / 1000 % 60, 2) + "." + Digits(ms % 1000, 3)
  }

  /** `toISOString()`: YYYY-MM-DDTHH:mm:ss.sssZ, always in UTC. */
  function ToIsoString(t: Instant): (r: string)
    ensures |r| == 24 || |r| == 27
    ensures |r| == 24 ==> r[10] == 'T'
    ensures |r| == 27 ==> r[13] == 'T'
    ensures r[|r| - 1] == 'Z'
  {
    Stamp(DateText(CivilFromDays(t.epochMillis / MillisPerDay)), TimeText(t.epochMillis % MillisPerDay))
  }

  /** A date and a time of day joined as `<date>T<time>Z`. */
  function Stamp(date: string, time: string): (r: string)
    requires |date| == 10 || |date| == 13
    requires |time| == 12
    ensures |r| == |date| + 14
    ensures r[|date|] == 'T' && r[|r| - 1] == 'Z'
  {
    date + "T" + time + "Z"
  }

  lemma CivilEpoch()
    ensures CivilFromDays(0) == CivilDate(1970, 1, 1)
  {
    assert 719468 / 146097 == 4;
    assert 135080 / 1460 == 92 && 135080 / 36524 == 3 && 135080 / 146096 == 0;
    assert 134991 / 365 == 369;
    assert 369 / 4 == 92 && 369 / 100 == 3;
    assert 1532 / 153 == 10 && 1532 / 5 == 306;
  }

  lemma EpochDateText()
    ensures DateText(CivilDate(1970, 1, 1)) == "1970-01-01"
  {
    assert Digits(1970, 4) == "1970";
    assert Digits(1, 2) == "01";
  }

  lemma MidnightText()
    ensures TimeText(0) == "00:00:00.000"
  {
    assert Digits(0, 2) == "00";
    assert Digits(0, 3) == "000";
  }

  /** The epoch itself renders as the familiar string. */
  lemma EpochRendering()
    ensures ToIsoString(Instant(0)) == "1970-01-01T00:00:00.000Z"
  {
    CivilEpoch();
    EpochDateText();
    MidnightText();
  }
}
