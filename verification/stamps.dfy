/**
 * Wall-clock readings and the digit stamps built from them. The source reads
 * `datetime.now()` for reservation ids, message ids and `sent_at`; here the
 * reading is a value handed in by the caller.
 */
module Stamps {
  import opened Text

  datatype ClockReading = ClockReading(
    year: int, month: int, day: int,
    hour: int, minute: int, second: int, microsecond: int)

  /** The field ranges of a `datetime`, restricted to four-digit years. */
  predicate WellFormedReading(c: ClockReading) {
    && 1000 <= c.year <= 9999
    && 1 <= c.month <= 12
    && 1 <= c.day <= 31
    && 0 <= c.hour <= 23
    && 0 <= c.minute <= 59
    && 0 <= c.second <= 59
    && 0 <= c.microsecond <= 999999
  }

  type Clock = c: ClockReading | WellFormedReading(c)
    witness ClockReading(2025, 1, 1, 0, 0, 0, 0)

  /** `strftime('%Y%m%d%H%M%S')`: fourteen characters. */
  function DateTimeDigits(c: Clock): (s: string)
    ensures |s| == 14
  {
    FixedDigits(c.year, 4) + FixedDigits(c.month, 2) + FixedDigits(c.day, 2)
      + FixedDigits(c.hour, 2) + FixedDigits(c.minute, 2) + FixedDigits(c.second, 2)
  }

  /** Where the date fields sit in the stamp. */
  lemma DateFieldsInPlace(c: Clock)
    ensures var s := DateTimeDigits(c);
      s[..4] == FixedDigits(c.year, 4) && s[4..6] == FixedDigits(c.month, 2) && s[6..8] == FixedDigits(c.day, 2)
  {
    var y, mo, d := FixedDigits(c.year, 4), FixedDigits(c.month, 2), FixedDigits(c.day, 2);
    var rest := FixedDigits(c.hour, 2) + FixedDigits(c.minute, 2) + FixedDigits(c.second, 2);
    var s := DateTimeDigits(c);
    assert s == y + mo + d + rest;
  }

  /** Where the time fields sit in the stamp. */
  lemma TimeFieldsInPlace(c: Clock)
    ensures var s := DateTimeDigits(c);
      s[8..10] == FixedDigits(c.hour, 2) && s[10..12] == FixedDigits(c.minute, 2) && s[12..14] == FixedDigits(c.second, 2)
  {
    var date := FixedDigits(c.year, 4) + FixedDigits(c.month, 2) + FixedDigits(c.day, 2);
    var h, mi, se := FixedDigits(c.hour, 2), FixedDigits(c.minute, 2), FixedDigits(c.second, 2);
    var s := DateTimeDigits(c);
    assert |date| == 8;
    assert s == date + h + mi + se;
  }

  /** The stamp is all digits, and every field of the clock reads back from its place in it. */
  lemma DateTimeDigitsReadBack(c: Clock)
    ensures var s := DateTimeDigits(c);
      && IsDigits(s)
      && ReadNat(s[..4]) == c.year && ReadNat(s[4..6]) == c.month
      && ReadNat(s[6..8]) == c.day && ReadNat(s[8..10]) == c.hour
      && ReadNat(s[10..12]) == c.minute && ReadNat(s[12..14]) == c.second
  {
    assert Pow10(2) == 100 && Pow10(4) == 10000;
    var y, mo, d := FixedDigits(c.year, 4), FixedDigits(c.month, 2), FixedDigits(c.day, 2);
    var h, mi, se := FixedDigits(c.hour, 2), FixedDigits(c.minute, 2), FixedDigits(c.second, 2);
    ReadFixedDigits(c.year, 4);
    ReadFixedDigits(c.month, 2);
    ReadFixedDigits(c.day, 2);
    ReadFixedDigits(c.hour, 2);
    ReadFixedDigits(c.minute, 2);
    ReadFixedDigits(c.second, 2);
    DigitsConcat(y, mo);
    DigitsConcat(y + mo, d);
    DigitsConcat(y + mo + d, h);
    DigitsConcat(y + mo + d + h, mi);
    DigitsConcat(y + mo + d + h + mi, se);
    DateFieldsInPlace(c);
    TimeFieldsInPlace(c);
  }

  /** `strftime('%Y%m%d%H%M%S%f')`: the fourteen date-time digits then six microsecond digits. */
  function MicroStampDigits(c: Clock): (s: string)
    ensures |s| == 20 && s[..14] == DateTimeDigits(c)
  {
    var s := DateTimeDigits(c) + FixedDigits(c.microsecond, 6);
    assert s[..14] == DateTimeDigits(c);
    s
  }

  lemma MicroStampReadBack(c: Clock)
    ensures IsDigits(MicroStampDigits(c)) && ReadNat(MicroStampDigits(c)[14..]) == c.microsecond
  {
    assert Pow10(6) == 1000000;
    var s := MicroStampDigits(c);
    DateTimeDigitsReadBack(c);
    ReadFixedDigits(c.microsecond, 6);
    DigitsConcat(DateTimeDigits(c), FixedDigits(c.microsecond, 6));
    assert s[14..] == FixedDigits(c.microsecond, 6);
  }
}
