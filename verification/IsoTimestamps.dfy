/**
  The ISO text of a UTC timestamp. Its string order is the order in time, although the
  fraction of a second is left out when it is zero.
 */
module IsoTimestamps {

  /** A UTC `datetime`, in the proleptic Gregorian calendar. */
  datatype DateTime = DateTime(year: nat, month: nat, day: nat, hour: nat, minute: nat, second: nat, micros: nat)

  // ---------- The calendar ----------

  predicate IsLeap(year: nat) {
    year % 4 == 0 && (year % 100 != 0 || year % 400 == 0)
  }

  function DaysInMonth(year: nat, month: nat): nat {
    if month == 2 then (if IsLeap(year) then 29 else 28)
    else if month in {4, 6, 9, 11} then 30
    else 31
  }

  predicate IsDateTime(t: DateTime) {
    && 1 <= t.year <= 9999 && 1 <= t.month <= 12 && 1 <= t.day <= DaysInMonth(t.year, t.month)
    && t.hour < 24 && t.minute < 60 && t.second < 60 && t.micros < 1000000
  }

  /** The days before the first of January of a year. */
  function DaysBeforeYear(year: nat): nat
    requires year > 0
  {
    var y := year - 1;
    365 * y + y / 4 - y / 100 + y / 400
  }

  function DaysBeforeMonth(year: nat, month: nat): nat {
    if month <= 1 then 0 else DaysBeforeMonth(year, month - 1) + DaysInMonth(year, month - 1)
  }

  function Ordinal(t: DateTime): nat
    requires IsDateTime(t)
  {
    DaysBeforeYear(t.year) + DaysBeforeMonth(t.year, t.month) + t.day
  }

  /** Microseconds since the start of year 1. */
  function Instant(t: DateTime): nat
    requires IsDateTime(t)
  {
    (((Ordinal(t) * 24 + t.hour) * 60 + t.minute) * 60 + t.second) * 1000000 + t.micros
  }

  lemma MonthsFitYear(year: nat)
    ensures DaysBeforeMonth(year, 13) == if IsLeap(year) then 366 else 365
  {
    var february := DaysInMonth(year, 2);
    var months := [0, 31, 31 + february, 62 + february, 92 + february, 123 + february, 153 + february, 184 + february,
                   215 + february, 245 + february, 276 + february, 306 + february, 337 + february];
    var m := 1;
    while m < 13
      invariant 1 <= m <= 13 && DaysBeforeMonth(year, m) == months[m - 1]
    {
      m := m + 1;
    }
  }

  lemma {:induction false} MonthsGrow(year: nat, a: nat, b: nat)
    requires 1 <= a < b
    ensures DaysBeforeMonth(year, a) + DaysInMonth(year, a) <= DaysBeforeMonth(year, b)
    decreases b
  {
    if a + 1 < b {
      MonthsGrow(year, a, b - 1);
    }
  }

  lemma Multiples(year: nat)
    requires year > 0
    ensures year / 4 == (year - 1) / 4 + if year % 4 == 0 then 1 else 0
    ensures year / 100 == (year - 1) / 100 + if year % 100 == 0 then 1 else 0
    ensures year / 400 == (year - 1) / 400 + if year % 400 == 0 then 1 else 0
  {
  }

  lemma MultiplesNest(year: nat)
    ensures year % 400 == 0 ==> year % 100 == 0
    ensures year % 100 == 0 ==> year % 4 == 0
  {
    assert year == 400 * (year / 400) + year % 400 && 400 * (year / 400) == 100 * (4 * (year / 400));
    assert year == 100 * (year / 100) + year % 100 && 100 * (year / 100) == 4 * (25 * (year / 100));
  }

  lemma NextYear(year: nat)
    requires year > 0
    ensures DaysBeforeYear(year + 1) == DaysBeforeYear(year) + if IsLeap(year) then 366 else 365
  {
    Multiples(year);
    MultiplesNest(year);
  }

  lemma {:induction false} YearsGrow(a: nat, b: nat)
    requires 1 <= a < b
    ensures DaysBeforeYear(a) + DaysBeforeMonth(a, 13) <= DaysBeforeYear(b)
    decreases b
  {
    if a + 1 < b {
      YearsGrow(a, b - 1);
      NextYear(b - 1);
    } else {
      NextYear(a);
      MonthsFitYear(a);
    }
  }

  /** An earlier calendar day has a smaller number. */
  lemma OrdinalGrows(a: DateTime, b: DateTime)
    requires IsDateTime(a) && IsDateTime(b)
    requires a.year < b.year || (a.year == b.year && (a.month < b.month || (a.month == b.month && a.day < b.day)))
    ensures Ordinal(a) < Ordinal(b)
  {
    if a.year < b.year {
      YearsGrow(a.year, b.year);
      MonthsGrow(a.year, a.month, 13);
    } else if a.month < b.month {
      MonthsGrow(a.year, a.month, b.month);
    }
  }

  // ---------- String order ----------

  /** The order of Python strings: by code point, a proper prefix first. */
  predicate TextLess(a: string, b: string) {
    if b == "" then false
    else if a == "" then true
    else a[0] < b[0] || (a[0] == b[0] && TextLess(a[1..], b[1..]))
  }

  lemma {:induction false} TextIrreflexive(a: string)
    ensures !TextLess(a, a)
  {
    if a != "" {
      TextIrreflexive(a[1..]);
    }
  }

  lemma {:induction false} TextTransitive(a: string, b: string, c: string)
    requires TextLess(a, b) && TextLess(b, c)
    ensures TextLess(a, c)
  {
    if a != "" && a[0] == b[0] == c[0] {
      TextTransitive(a[1..], b[1..], c[1..]);
    }
  }

  lemma {:induction false} TextTotal(a: string, b: string)
    ensures a == b || TextLess(a, b) || TextLess(b, a)
  {
    if a != "" && b != "" && a[0] == b[0] {
      TextTotal(a[1..], b[1..]);
      assert a == [a[0]] + a[1..] && b == [b[0]] + b[1..];
    }
  }

  lemma {:induction false} TextOfParts(a: string, b: string, x: string, y: string)
    requires |a| == |b|
    ensures TextLess(a + x, b + y) <==> TextLess(a, b) || (a == b && TextLess(x, y))
  {
    if a == "" {
      assert a + x == x && b + y == y;
    } else {
      assert (a + x)[1..] == a[1..] + x && (b + y)[1..] == b[1..] + y;
      TextOfParts(a[1..], b[1..], x, y);
      assert a == [a[0]] + a[1..] && b == [b[0]] + b[1..];
    }
  }

  // ---------- Fixed-width numbers ----------

  function Digit(n: nat): (c: char)
    requires n < 10
    ensures c as int == 48 + n
  {
    (48 + n) as char
  }

  function Power(w: nat): (p: nat)
    ensures p > 0
  {
    if w == 0 then 1 else 10 * Power(w - 1)
  }

  function Digits(n: nat, w: nat): (r: string)
    ensures |r| == w
  {
    if w == 0 then "" else Digits(n / 10, w - 1) + [Digit(n % 10)]
  }

  lemma {:induction false} DigitsOrder(a: nat, b: nat, w: nat)
    requires a < Power(w) && b < Power(w)
    ensures TextLess(Digits(a, w), Digits(b, w)) <==> a < b
    ensures Digits(a, w) == Digits(b, w) <==> a == b
  {
    if w > 0 {
      DigitsOrder(a / 10, b / 10, w - 1);
      var x, y := Digits(a / 10, w - 1), Digits(b / 10, w - 1);
      TextOfParts(x, y, [Digit(a % 10)], [Digit(b % 10)]);
      assert TextLess([Digit(a % 10)], [Digit(b % 10)]) <==> a % 10 < b % 10;
      assert Digits(a, w)[..w - 1] == x && Digits(b, w)[..w - 1] == y;
      assert Digits(a, w)[w - 1] == Digit(a % 10) && Digits(b, w)[w - 1] == Digit(b % 10);
    }
  }

  // ---------- The ISO text ----------

  /** A number of fixed width and the separator after it. */
  datatype Field = Field(value: nat, width: nat, separator: string)

  function Render(fields: seq<Field>): string {
    if fields == [] then ""
    else Digits(fields[0].value, fields[0].width) + (fields[0].separator + Render(fields[1..]))
  }

  /** The fraction, present only when it is not zero, and the offset. */
  function Suffix(micros: nat): string {
    if micros == 0 then "+00:00" else "." + (Digits(micros, 6) + "+00:00")
  }

  function FieldsOf(t: DateTime): seq<Field> {
    [Field(t.year, 4, "-"), Field(t.month, 2, "-"), Field(t.day, 2, "T"),
     Field(t.hour, 2, ":"), Field(t.minute, 2, ":"), Field(t.second, 2, "")]
  }

  /** `isoformat` of a UTC `datetime`. */
  function IsoText(t: DateTime): string {
    Render(FieldsOf(t)) + Suffix(t.micros)
  }

  predicate SameShape(a: seq<Field>, b: seq<Field>) {
    && |a| == |b|
    && forall i :: 0 <= i < |a| ==>
         a[i].width == b[i].width && a[i].separator == b[i].separator &&
         a[i].value < Power(a[i].width) && b[i].value < Power(a[i].width)
  }

  predicate FieldsLess(a: seq<Field>, b: seq<Field>)
    requires |a| == |b|
  {
    a != [] && (a[0].value < b[0].value || (a[0].value == b[0].value && FieldsLess(a[1..], b[1..])))
  }

  predicate FieldsEqual(a: seq<Field>, b: seq<Field>)
    requires |a| == |b|
  {
    forall i :: 0 <= i < |a| ==> a[i].value == b[i].value
  }

  lemma {:induction false} RenderOrder(a: seq<Field>, b: seq<Field>, x: string, y: string)
    requires SameShape(a, b)
    ensures TextLess(Render(a) + x, Render(b) + y) <==> FieldsLess(a, b) || (FieldsEqual(a, b) && TextLess(x, y))
  {
    if a == [] {
      assert Render(a) + x == x && Render(b) + y == y;
    } else {
      var p, q, sep := Digits(a[0].value, a[0].width), Digits(b[0].value, b[0].width), a[0].separator;
      var u, v := Render(a[1..]) + x, Render(b[1..]) + y;
      RenderOrder(a[1..], b[1..], x, y);
      DigitsOrder(a[0].value, b[0].value, a[0].width);
      assert Render(a) + x == p + (sep + u) && Render(b) + y == q + (sep + v);
      TextOfParts(p, q, sep + u, sep + v);
      TextOfParts(sep, sep, u, v);
      TextIrreflexive(sep);
      EqualFromHead(a, b);
    }
  }

  lemma EqualFromHead(a: seq<Field>, b: seq<Field>)
    requires |a| == |b| > 0
    ensures FieldsEqual(a, b) <==> a[0].value == b[0].value && FieldsEqual(a[1..], b[1..])
  {
    assert forall i :: 1 <= i < |a| ==> a[i] == a[1..][i - 1] && b[i] == b[1..][i - 1];
    assert forall i :: 0 <= i < |a| - 1 ==> a[1..][i] == a[i + 1] && b[1..][i] == b[i + 1];
  }

  lemma SuffixOrder(a: nat, b: nat)
    requires a < 1000000 && b < 1000000
    ensures TextLess(Suffix(a), Suffix(b)) <==> a < b
  {
    TextIrreflexive("+00:00");
    assert Power(6) == 1000000 by { assert Power(3) == 1000; }
    if a > 0 && b > 0 {
      DigitsOrder(a, b, 6);
      TextOfParts(".", ".", Digits(a, 6) + "+00:00", Digits(b, 6) + "+00:00");
      TextOfParts(Digits(a, 6), Digits(b, 6), "+00:00", "+00:00");
      TextIrreflexive(".");
    }
  }

  lemma FieldOrder(a: DateTime, b: DateTime)
    ensures FieldsLess(FieldsOf(a), FieldsOf(b)) <==>
            a.year < b.year || (a.year == b.year && (
            a.month < b.month || (a.month == b.month && (
            a.day < b.day || (a.day == b.day && (
            a.hour < b.hour || (a.hour == b.hour && (
            a.minute < b.minute || (a.minute == b.minute && a.second < b.second)))))))))
  {
    var x, y := FieldsOf(a), FieldsOf(b);
    forall i | 0 <= i < 6
      ensures FieldsLess(x[i..], y[i..]) <==>
              x[i].value < y[i].value || (x[i].value == y[i].value && FieldsLess(x[i + 1..], y[i + 1..]))
    {
      assert x[i..][1..] == x[i + 1..] && y[i..][1..] == y[i + 1..];
    }
    assert x[0..] == x && y[0..] == y && x[6..] == y[6..] == [];
    assert x[0 + 1..] == x[1..] && x[1 + 1..] == x[2..] && x[2 + 1..] == x[3..] && x[3 + 1..] == x[4..] && x[4 + 1..] == x[5..];
  }

  lemma SameFields(a: DateTime, b: DateTime)
    ensures FieldsEqual(FieldsOf(a), FieldsOf(b)) <==> a == b.(micros := a.micros)
  {
    var x, y := FieldsOf(a), FieldsOf(b);
    if FieldsEqual(x, y) {
      assert x[0].value == y[0].value && x[1].value == y[1].value && x[2].value == y[2].value;
      assert x[3].value == y[3].value && x[4].value == y[4].value && x[5].value == y[5].value;
    }
  }

  /** The fields of a day, most significant first. */
  predicate ClockLess(a: DateTime, b: DateTime) {
    FieldsLess(FieldsOf(a), FieldsOf(b)) || (FieldsEqual(FieldsOf(a), FieldsOf(b)) && a.micros < b.micros)
  }

  lemma ClockIsInstant(a: DateTime, b: DateTime)
    requires IsDateTime(a) && IsDateTime(b) && ClockLess(a, b)
    ensures Instant(a) < Instant(b)
  {
    FieldOrder(a, b);
    SameFields(a, b);
    if a.year != b.year || a.month != b.month || a.day != b.day {
      OrdinalGrows(a, b);
    }
  }

  lemma ClockTotal(a: DateTime, b: DateTime)
    ensures a == b || ClockLess(a, b) || ClockLess(b, a)
  {
    FieldOrder(a, b);
    FieldOrder(b, a);
    SameFields(a, b);
  }

  /** For all UTC timestamps, the order of the texts is the order in time. */
  lemma IsoOrderIsTimeOrder(a: DateTime, b: DateTime)
    requires IsDateTime(a) && IsDateTime(b)
    ensures TextLess(IsoText(a), IsoText(b)) <==> Instant(a) < Instant(b)
    ensures IsoText(a) == IsoText(b) <==> a == b
  {
    IsoOrderIsClockOrder(a, b);
    IsoOrderIsClockOrder(b, a);
    ClockTotal(a, b);
    TextIrreflexive(IsoText(a));
    if ClockLess(a, b) {
      ClockIsInstant(a, b);
    }
    if ClockLess(b, a) {
      ClockIsInstant(b, a);
    }
  }

  lemma IsoOrderIsClockOrder(a: DateTime, b: DateTime)
    requires IsDateTime(a) && IsDateTime(b)
    ensures TextLess(IsoText(a), IsoText(b)) <==> ClockLess(a, b)
  {
    assert Power(2) == 100 && Power(4) == 10000 by { assert Power(1) == 10; }
    assert SameShape(FieldsOf(a), FieldsOf(b));
    RenderOrder(FieldsOf(a), FieldsOf(b), Suffix(a.micros), Suffix(b.micros));
    SuffixOrder(a.micros, b.micros);
  }
}
