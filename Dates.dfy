/** Calendar dates as `datetime.strptime(text, '%d.%m.%Y')` reads them, and the ordering of
    `datetime` values that the departure-date step compares. */
module Dates {
  import opened Wrappers
  import opened PyText

  datatype Date = Date(year: int, month: int, day: int)

  /** `datetime.now()`: the local date and the time elapsed since that date's midnight, in
      whatever unit the clock has (a positive value means "after midnight"). */
  datatype Clock = Clock(date: Date, sinceMidnight: nat)

  /** Gregorian leap years. */
  predicate IsLeapYear(year: int)
  {
    year % 4 == 0 && (year % 100 != 0 || year % 400 == 0)
  }

  function DaysInMonth(year: int, month: int): (n: int)
    requires 1 <= month <= 12
    ensures 28 <= n <= 31
    ensures n == 29 <==> month == 2 && IsLeapYear(year)
  {
    if month == 2 then (if IsLeapYear(year) then 29 else 28)
    else if month == 4 || month == 6 || month == 9 || month == 11 then 30
    else 31
  }

  /** The dates `datetime` can represent: years 1 to 9999, a real month, a day inside it. */
  predicate ValidDate(d: Date)
  {
    1 <= d.year <= 9999 && 1 <= d.month <= 12 && 1 <= d.day <= DaysInMonth(d.year, d.month)
  }

  /** `datetime.strptime(s, '%d.%m.%Y')` for ASCII digits: a day of one or two digits, a dot, a
      month of one or two digits, a dot and a year of exactly four digits, nothing before or
      after, naming a date that exists (otherwise `ValueError`, here None). */
  function ParseDate(s: string): (r: Option<Date>)
    ensures r.Some? ==> ValidDate(r.value)
  {
    var parts := Split(s, '.');
    if |parts| == 3 && 1 <= |parts[0]| <= 2 && 1 <= |parts[1]| <= 2 && |parts[2]| == 4
       && AllDigits(parts[0]) && AllDigits(parts[1]) && AllDigits(parts[2]) then
      var d := Date(DigitsValue(parts[2]), DigitsValue(parts[1]), DigitsValue(parts[0]));
      if ValidDate(d) then Some(d) else None
    else None
  }

  /** Text that parses as a date is at most ten characters long (`dd.mm.yyyy`). */
  lemma ParsedDateLength(s: string)
    requires ParseDate(s).Some?
    ensures 8 <= |s| <= 10
  {
    var parts := Split(s, '.');
    JoinSplit(s, '.');
    assert parts[1..][1..] == [parts[2]];
    assert Join(parts[1..], '.') == parts[1] + ['.'] + parts[2];
    assert s == parts[0] + ['.'] + (parts[1] + ['.'] + parts[2]);
  }

  function Pad2(n: nat): string
  {
    if n < 10 then "0" + ShowNat(n) else ShowNat(n)
  }

  function Pad4(n: nat): string
  {
    if n < 10 then "000" + ShowNat(n)
    else if n < 100 then "00" + ShowNat(n)
    else if n < 1000 then "0" + ShowNat(n)
    else ShowNat(n)
  }

  /** `date.strftime('%d.%m.%Y')`. */
  function FormatDate(d: Date): string
    requires ValidDate(d)
  {
    Pad2(d.day) + "." + Pad2(d.month) + "." + Pad4(d.year)
  }

  lemma Pad2Digits(n: nat)
    requires n < 100
    ensures var p := Pad2(n); |p| == 2 && AllDigits(p) && DigitsValue(p) == n && '.' !in p
  {
    var s := ShowNat(n);
    ShowNatLength(n, 2, Pow10(2));
    if n < 10 {
      DigitsValueLeadingZero(s);
    } else {
      ShowNatFloor(n, 10);
    }
    var p := Pad2(n);
    assert forall i :: 0 <= i < |p| ==> IsDigit(p[i]);
  }

  lemma Pad4Digits(n: nat)
    requires n < 10000
    ensures var p := Pad4(n); |p| == 4 && AllDigits(p) && DigitsValue(p) == n && '.' !in p
  {
    if n < 10 {
      Pad4Units(n);
    } else if n < 100 {
      Pad4Tens(n);
    } else if n < 1000 {
      Pad4Hundreds(n);
    } else {
      Pad4Thousands(n);
    }
  }

  lemma Pad4Units(n: nat)
    requires n < 10
    ensures var p := Pad4(n); |p| == 4 && AllDigits(p) && DigitsValue(p) == n && '.' !in p
  {
    var s := ShowNat(n);
    ShowNatLength(n, 4, Pow10(4));
    DigitsValueLeadingZero(s);
    DigitsValueLeadingZero("0" + s);
    DigitsValueLeadingZero("00" + s);
    assert "0" + ("0" + ("0" + s)) == "000" + s;
    assert "0" + ("0" + s) == "00" + s;
    var p := Pad4(n);
    assert forall i :: 0 <= i < |p| ==> IsDigit(p[i]);
  }

  lemma Pad4Tens(n: nat)
    requires 10 <= n < 100
    ensures var p := Pad4(n); |p| == 4 && AllDigits(p) && DigitsValue(p) == n && '.' !in p
  {
    var s := ShowNat(n);
    ShowNatLength(n, 2, Pow10(2));
    ShowNatFloor(n, 10);
    DigitsValueLeadingZero(s);
    DigitsValueLeadingZero("0" + s);
    assert "0" + ("0" + s) == "00" + s;
    var p := Pad4(n);
    assert forall i :: 0 <= i < |p| ==> IsDigit(p[i]);
  }

  lemma Pad4Hundreds(n: nat)
    requires 100 <= n < 1000
    ensures var p := Pad4(n); |p| == 4 && AllDigits(p) && DigitsValue(p) == n && '.' !in p
  {
    var s := ShowNat(n);
    ShowNatLength(n, 3, Pow10(3));
    ShowNatFloor(n, 100);
    DigitsValueLeadingZero(s);
    var p := Pad4(n);
    assert forall i :: 0 <= i < |p| ==> IsDigit(p[i]);
  }

  lemma Pad4Thousands(n: nat)
    requires 1000 <= n < 10000
    ensures var p := Pad4(n); |p| == 4 && AllDigits(p) && DigitsValue(p) == n && '.' !in p
  {
    ShowNatLength(n, 4, Pow10(4));
    ShowNatFloor(n, 1000);
    var p := Pad4(n);
    assert forall i :: 0 <= i < |p| ==> IsDigit(p[i]);
  }

  /** A number of at least 10^k has more than k digits. */
  lemma {:induction false} ShowNatFloor(n: nat, floor: nat)
    requires floor == 10 || floor == 100 || floor == 1000
    requires n >= floor
    ensures |ShowNat(n)| >= (if floor == 10 then 2 else if floor == 100 then 3 else 4)
  {
    if floor > 10 {
      ShowNatFloor(n / 10, floor / 10);
    }
  }

  /** Parsing day, month and year written with two, two and four digits gives that date when
      it exists and fails otherwise. */
  lemma ParsePadded(year: nat, month: nat, day: nat)
    requires day < 100 && month < 100 && year < 10000
    ensures var d := Date(year, month, day);
      ParseDate(Pad2(day) + "." + Pad2(month) + "." + Pad4(year)) == if ValidDate(d) then Some(d) else None
  {
    var a, b, c := Pad2(day), Pad2(month), Pad4(year);
    Pad2Digits(day);
    Pad2Digits(month);
    Pad4Digits(year);
    SplitCons(a, '.', b + "." + c);
    SplitCons(b, '.', c);
    SplitNone(c, '.');
    assert a + "." + b + "." + c == a + ['.'] + (b + ['.'] + c);
    assert Split(a + "." + b + "." + c, '.') == [a, b, c];
  }

  /** Formatting a valid date as `dd.mm.yyyy` and parsing it back gives the same date. */
  lemma FormatParse(d: Date)
    requires ValidDate(d)
    ensures ParseDate(FormatDate(d)) == Some(d)
  {
    ParsePadded(d.year, d.month, d.day);
  }

  /** Dates in calendar order. */
  predicate DateBefore(a: Date, b: Date)
  {
    a.year < b.year || (a.year == b.year && (a.month < b.month || (a.month == b.month && a.day < b.day)))
  }

  /** `datetime` ordering: by date, then by time of day. */
  predicate ClockBefore(a: Clock, b: Clock)
  {
    DateBefore(a.date, b.date) || (a.date == b.date && a.sinceMidnight < b.sinceMidnight)
  }

  /** The `datetime` that `strptime` returns for a date: its midnight. */
  function Midnight(d: Date): Clock
  {
    Clock(d, 0)
  }
}
