/**
  Calendar dates and the two `strftime` layouts the service writes:
  `%d/%m/%Y` for a receipt's `date` property and `%Y-%m-%d` for the backfill payload.
  Parsing free-form dates (dateutil) is not modelled; the readers below accept only
  the exact layouts and serve as the inverses the formatters are checked against.
 */
module Dates {
  import opened Wrappers
  import opened Text

  datatype Date = Date(year: nat, month: nat, day: nat) {
    /** A date Python's `datetime` can hold. */
    predicate Valid() {
      1 <= year <= 9999 && 1 <= month <= 12 && 1 <= day <= 31
    }
  }

  /** `d.strftime("%d/%m/%Y")`. */
  function FormatDayFirst(d: Date): (s: string)
    ensures |s| == 10 && s[2] == '/' && s[5] == '/'
  {
    Digits(d.day, 2) + "/" + Digits(d.month, 2) + "/" + Digits(d.year, 4)
  }

  /** `d.strftime("%Y-%m-%d")`. */
  function FormatIso(d: Date): (s: string)
    ensures |s| == 10 && s[4] == '-' && s[7] == '-'
  {
    Digits(d.year, 4) + "-" + Digits(d.month, 2) + "-" + Digits(d.day, 2)
  }

  predicate AllDigits(s: string) {
    forall i :: 0 <= i < |s| ==> IsDigit(s[i])
  }

  /** Reads the `%d/%m/%Y` layout back. */
  function ReadDayFirst(s: string): Option<Date> {
    if |s| == 10 && s[2] == '/' && s[5] == '/'
       && AllDigits(s[..2]) && AllDigits(s[3..5]) && AllDigits(s[6..])
    then Some(Date(DigitsValue(s[6..]), DigitsValue(s[3..5]), DigitsValue(s[..2])))
    else None
  }

  /** Reads the `%Y-%m-%d` layout back. */
  function ReadIso(s: string): Option<Date> {
    if |s| == 10 && s[4] == '-' && s[7] == '-'
       && AllDigits(s[..4]) && AllDigits(s[5..7]) && AllDigits(s[8..])
    then Some(Date(DigitsValue(s[..4]), DigitsValue(s[5..7]), DigitsValue(s[8..])))
    else None
  }

  /** The day-first text of a valid date reads back as that date. */
  lemma DayFirstRoundTrip(d: Date)
    requires d.Valid()
    ensures ReadDayFirst(FormatDayFirst(d)) == Some(d)
  {
    var s := FormatDayFirst(d);
    assert s[..2] == Digits(d.day, 2);
    assert s[3..5] == Digits(d.month, 2);
    assert s[6..] == Digits(d.year, 4);
    DigitsRoundTrip(d.day, 2);
    DigitsRoundTrip(d.month, 2);
    DigitsRoundTrip(d.year, 4);
  }

  /** The ISO text of a valid date reads back as that date. */
  lemma IsoRoundTrip(d: Date)
    requires d.Valid()
    ensures ReadIso(FormatIso(d)) == Some(d)
  {
    var s := FormatIso(d);
    assert s[..4] == Digits(d.year, 4);
    assert s[5..7] == Digits(d.month, 2);
    assert s[8..] == Digits(d.day, 2);
    DigitsRoundTrip(d.year, 4);
    DigitsRoundTrip(d.month, 2);
    DigitsRoundTrip(d.day, 2);
  }
}
