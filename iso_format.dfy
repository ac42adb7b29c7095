/** `date.isoformat()` and `datetime.isoformat()` for naive values, the text
    the export writes for date and date-time columns. */
module IsoFormat {
  import PyStr

  /** The year range of Python's `datetime` module. */
  const MinYear: int := 1
  const MaxYear: int := 9999

  datatype Date = Date(year: int, month: int, day: int)

  predicate IsLeap(year: int) {
    year % 4 == 0 && (year % 100 != 0 || year % 400 == 0)
  }

  function DaysInMonth(year: int, month: int): int
    requires 1 <= month <= 12
  {
    if month == 2 then (if IsLeap(year) then 29 else 28)
    else if month in {4, 6, 9, 11} then 30
    else 31
  }

  /** The dates a `date` object can hold. */
  predicate DateValid(d: Date) {
    && MinYear <= d.year <= MaxYear
    && 1 <= d.month <= 12
    && 1 <= d.day <= DaysInMonth(d.year, d.month)
  }

  type ValidDate = d: Date | DateValid(d) witness Date(1, 1, 1)

  datatype Time = Time(hour: int, minute: int, second: int, microsecond: int)

  predicate TimeValid(t: Time) {
    && 0 <= t.hour < 24
    && 0 <= t.minute < 60
    && 0 <= t.second < 60
    && 0 <= t.microsecond < 1000000
  }

  /** A naive `datetime`: a date and a time of day, no time zone. */
  datatype DateTime = DateTime(date: Date, time: Time)

  type ValidDateTime = dt: DateTime | DateValid(dt.date) && TimeValid(dt.time)
    witness DateTime(Date(1, 1, 1), Time(0, 0, 0, 0))

  function Pow10(w: nat): (p: nat)
    ensures p >= 1
  {
    if w == 0 then 1 else 10 * Pow10(w - 1)
  }

  /** Every character is a decimal digit. */
  predicate AllDigits(s: string) {
    forall i :: 0 <= i < |s| ==> '0' <= s[i] <= '9'
  }

  /** `'%0*d' % (w, n)`: `n` in exactly `w` decimal digits, zero padded. */
  function Digits(n: nat, w: nat): (s: string)
    requires n < Pow10(w)
    ensures |s| == w
    ensures AllDigits(s)
  {
    if w == 0 then "" else Digits(n / 10, w - 1) + [PyStr.DigitChar(n % 10)]
  }

  /** The number a string of decimal digits denotes, read position by
      position. */
  function DigitsValue(s: string): int
  {
    if s == [] then 0
    else 10 * DigitsValue(s[..|s| - 1]) + (s[|s| - 1] as int - '0' as int)
  }

  /** Reading the padded digits back gives the number. */
  lemma {:induction false} DigitsRoundTrip(n: nat, w: nat)
    requires n < Pow10(w)
    ensures DigitsValue(Digits(n, w)) == n
  {
    if w > 0 {
      var s := Digits(n, w);
      assert s[..|s| - 1] == Digits(n / 10, w - 1);
      DigitsRoundTrip(n / 10, w - 1);
    }
  }

  /** Digit strings of one width are told apart by the number they denote. */
  lemma {:induction false} DigitsValueInjective(s: string, t: string)
    requires |s| == |t| && AllDigits(s) && AllDigits(t)
    requires DigitsValue(s) == DigitsValue(t)
    ensures s == t
  {
    if s != [] {
      var n := |s| - 1;
      assert AllDigits(s[..n]) && AllDigits(t[..n]);
      DigitsValueInjective(s[..n], t[..n]);
      assert s == s[..n] + [s[n]] && t == t[..n] + [t[n]];
    }
  }

  /** Text laid out as "YYYY-MM-DD": ten characters, '-' at 4 and 7, digits
      elsewhere. */
  predicate IsoDateShaped(s: string) {
    && |s| == 10 && s[4] == '-' && s[7] == '-'
    && AllDigits(s[0..4]) && AllDigits(s[5..7]) && AllDigits(s[8..10])
  }

  /** `date.isoformat()`: "YYYY-MM-DD". */
  function IsoDate(d: ValidDate): (s: string)
    ensures IsoDateShaped(s)
    ensures forall i :: 0 <= i < 10 && i != 4 && i != 7 ==> '0' <= s[i] <= '9'
  {
    var y, m, dd := Digits(d.year, 4), Digits(d.month, 2), Digits(d.day, 2);
    var s := y + "-" + m + "-" + dd;
    assert s[0..4] == y && s[5..7] == m && s[8..10] == dd;
    s
  }

  /** The fields written in "YYYY-MM-DD" text. */
  function DateOfIso(s: string): Date
    requires |s| >= 10
  {
    Date(DigitsValue(s[0..4]), DigitsValue(s[5..7]), DigitsValue(s[8..10]))
  }

  /** The ISO text of a date determines the date: reading it back gives the
      year, month and day. */
  lemma IsoDateRoundTrip(d: ValidDate)
    ensures DateOfIso(IsoDate(d)) == d
  {
    var s := IsoDate(d);
    assert s[0..4] == Digits(d.year, 4);
    assert s[5..7] == Digits(d.month, 2);
    assert s[8..10] == Digits(d.day, 2);
    DigitsRoundTrip(d.year, 4);
    DigitsRoundTrip(d.month, 2);
    DigitsRoundTrip(d.day, 2);
  }

  /** The only "YYYY-MM-DD" text that reads back as a date is that date's
      ISO text. */
  lemma IsoDateDetermined(s: string, d: ValidDate)
    requires IsoDateShaped(s) && DateOfIso(s) == d
    ensures s == IsoDate(d)
  {
    var t := IsoDate(d);
    IsoDateRoundTrip(d);
    DigitsValueInjective(s[0..4], t[0..4]);
    DigitsValueInjective(s[5..7], t[5..7]);
    DigitsValueInjective(s[8..10], t[8..10]);
    assert s == s[0..4] + "-" + s[5..7] + "-" + s[8..10];
    assert t == t[0..4] + "-" + t[5..7] + "-" + t[8..10];
  }

  /** The fractional part: nothing for whole seconds, else "." and six
      digits. */
  function Fraction(microsecond: nat): (f: string)
    requires microsecond < 1000000
    ensures |f| == 0 <==> microsecond == 0
    ensures |f| == 0 || |f| == 7
  {
    if microsecond == 0 then "" else "." + Digits(microsecond, 6)
  }

  /** Text laid out as "HH:MM:SS" or "HH:MM:SS.ffffff". */
  predicate ClockShaped(s: string) {
    && (|s| == 8 || |s| == 15) && s[2] == ':' && s[5] == ':'
    && AllDigits(s[0..2]) && AllDigits(s[3..5]) && AllDigits(s[6..8])
    && (|s| == 15 ==> s[8] == '.' && AllDigits(s[9..15]))
  }

  /** `time.isoformat()`: "HH:MM:SS", then the fraction when there is one. */
  function ClockText(t: Time): (s: string)
    requires TimeValid(t)
    ensures ClockShaped(s)
    ensures |s| == 15 <==> t.microsecond != 0
  {
    var a, b, c := Digits(t.hour, 2), Digits(t.minute, 2), Digits(t.second, 2);
    var frac := Fraction(t.microsecond);
    ClockLayout(a, b, c, frac);
    assert |frac| == 7 ==> (a + ":" + b + ":" + c + frac)[9..15] == frac[1..];
    a + ":" + b + ":" + c + frac
  }

  /** `datetime.isoformat()` of a naive value: "YYYY-MM-DDTHH:MM:SS", followed
      by ".ffffff" only when the microseconds are not zero. */
  function IsoDateTime(dt: ValidDateTime): (s: string)
    ensures |s| == 19 || |s| == 26
    ensures |s| == 26 <==> dt.time.microsecond != 0
    ensures s[..10] == IsoDate(dt.date) && s[10] == 'T'
    ensures s[11..] == ClockText(dt.time)
  {
    DateTimeLayout(IsoDate(dt.date), ClockText(dt.time));
    IsoDate(dt.date) + "T" + ClockText(dt.time)
  }

  /** The fields written in "HH:MM:SS" or "HH:MM:SS.ffffff" text. */
  function TimeOfIso(s: string): Time
    requires |s| == 8 || |s| == 15
  {
    Time(DigitsValue(s[0..2]), DigitsValue(s[3..5]), DigitsValue(s[6..8]),
         if |s| == 15 then DigitsValue(s[9..15]) else 0)
  }

  /** The fields written in ISO date-time text, microseconds 0 when absent. */
  function DateTimeOfIso(s: string): DateTime
    requires |s| == 19 || |s| == 26
  {
    DateTime(DateOfIso(s[..10]), TimeOfIso(s[11..]))
  }

  /** Where the fields of "AA:BB:CC<fraction>" sit. */
  lemma ClockLayout(a: string, b: string, c: string, frac: string)
    requires |a| == 2 && |b| == 2 && |c| == 2 && (|frac| == 0 || |frac| == 7)
    ensures var s := a + ":" + b + ":" + c + frac;
      && s[0..2] == a && s[3..5] == b && s[6..8] == c && s[8..] == frac
  {
  }

  /** The ISO text of a time of day determines it. */
  lemma ClockRoundTrip(t: Time)
    requires TimeValid(t)
    ensures TimeOfIso(ClockText(t)) == t
  {
    var a, b, c := Digits(t.hour, 2), Digits(t.minute, 2), Digits(t.second, 2);
    var frac := Fraction(t.microsecond);
    var s := ClockText(t);
    assert s == a + ":" + b + ":" + c + frac;
    ClockLayout(a, b, c, frac);
    DigitsRoundTrip(t.hour, 2);
    DigitsRoundTrip(t.minute, 2);
    DigitsRoundTrip(t.second, 2);
    var micro := if |s| == 15 then DigitsValue(s[9..15]) else 0;
    if t.microsecond != 0 {
      assert s[9..15] == s[8..][1..] == Digits(t.microsecond, 6);
      DigitsRoundTrip(t.microsecond, 6);
    }
    assert TimeOfIso(s) == Time(DigitsValue(a), DigitsValue(b), DigitsValue(c), micro);
  }

  /** Clock-shaped text is its fields joined by the separators. */
  lemma ClockJoin(s: string)
    requires ClockShaped(s)
    ensures |s| == 8 ==> s == s[0..2] + ":" + s[3..5] + ":" + s[6..8]
    ensures |s| == 15 ==> s == s[0..2] + ":" + s[3..5] + ":" + s[6..8] + "." + s[9..15]
  {
  }

  /** Where the halves of "<date>T<time>" sit. */
  lemma DateTimeLayout(date: string, clock: string)
    requires |date| == 10
    ensures (date + "T" + clock)[..10] == date && (date + "T" + clock)[11..] == clock
  {
  }

  /** The only "HH:MM:SS[.ffffff]" text that reads back as a time of day is
      that time's ISO text. */
  lemma ClockDetermined(s: string, t: Time)
    requires TimeValid(t) && ClockShaped(s) && TimeOfIso(s) == t
    requires |s| == 15 <==> t.microsecond != 0
    ensures s == ClockText(t)
  {
    var c := ClockText(t);
    ClockRoundTrip(t);
    DigitsValueInjective(s[0..2], c[0..2]);
    DigitsValueInjective(s[3..5], c[3..5]);
    DigitsValueInjective(s[6..8], c[6..8]);
    if |s| == 15 {
      DigitsValueInjective(s[9..15], c[9..15]);
    }
    ClockJoin(s);
    ClockJoin(c);
  }

  /** The ISO text of a date-time determines it. */
  lemma IsoDateTimeRoundTrip(dt: ValidDateTime)
    ensures DateTimeOfIso(IsoDateTime(dt)) == dt
  {
    DateTimeLayout(IsoDate(dt.date), ClockText(dt.time));
    IsoDateRoundTrip(dt.date);
    ClockRoundTrip(dt.time);
  }

  /** The only ISO-shaped date-time text that reads back as a date-time is
      that date-time's ISO text. */
  lemma IsoDateTimeDetermined(s: string, dt: ValidDateTime)
    requires |s| == 19 || |s| == 26
    requires IsoDateShaped(s[..10]) && s[10] == 'T' && ClockShaped(s[11..])
    requires |s| == 26 <==> dt.time.microsecond != 0
    requires DateTimeOfIso(s) == dt
    ensures s == IsoDateTime(dt)
  {
    IsoDateDetermined(s[..10], dt.date);
    ClockDetermined(s[11..], dt.time);
    assert s == s[..10] + "T" + s[11..];
    var t := IsoDateTime(dt);
    assert t == t[..10] + "T" + t[11..];
  }
}
