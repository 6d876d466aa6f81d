/** The input checks of the survey steps in `handlers/survey.py`: what each step accepts and the
    value it stores. A rejected input gives the step's error reply and changes nothing. */
module Validators {
  import opened Wrappers
  import opened PyText
  import opened Dates
  import opened Settings

  /** `int(text.strip())` followed by an inclusive range check; both a `ValueError` and a value
      outside the range give None (the handlers answer the same error text for both). */
  function ParseInRange(text: string, lo: int, hi: int): (r: Option<int>)
    ensures r.Some? ==> lo <= r.value <= hi && PyInt(text) == r
    ensures r.None? <==> PyInt(text).None? || !(lo <= PyInt(text).value <= hi)
  {
    StripIdempotent(text);
    match PyInt(Strip(text))
    case None => None
    case Some(n) => if lo <= n <= hi then Some(n) else None
  }

  /** The decimal text of any integer is accepted exactly when the integer is in range, and the
      stored value is that integer. */
  lemma ShowInRange(n: int, lo: int, hi: int)
    ensures ParseInRange(Show(n), lo, hi) == if lo <= n <= hi then Some(n) else None
  {
    ParseShow(n);
  }

  /** Surrounding white space does not change the verdict: any white-space prefix and suffix,
      such as a leading space and a trailing newline. */
  lemma PaddedInRange(p: string, text: string, q: string, lo: int, hi: int)
    requires AllSpace(p) && AllSpace(q)
    ensures ParseInRange(p + text + q, lo, hi) == ParseInRange(text, lo, hi)
  {
    StripPaddedBy(p, text, q);
  }

  /** Nights: 3 to 21 inclusive. */
  function ParseNights(text: string): Option<int>
  {
    ParseInRange(text, 3, 21)
  }

  /** Adults: 1 to `MAX_TRAVELERS` inclusive. */
  function ParseAdults(limits: Limits, text: string): Option<int>
  {
    ParseInRange(text, MinTravelers, limits.maxTravelers)
  }

  /** Children: 0 to 10 inclusive. */
  function ParseChildren(text: string): Option<int>
  {
    ParseInRange(text, 0, 10)
  }

  /** The boundaries of the nights, adults and children ranges, one inside and one outside. */
  lemma RangeBoundaries()
    ensures ParseNights("2") == None && ParseNights("3") == Some(3)
    ensures ParseNights("21") == Some(21) && ParseNights("22") == None
    ensures ParseAdults(DefaultLimits, "0") == None && ParseAdults(DefaultLimits, "1") == Some(1)
    ensures ParseAdults(DefaultLimits, "20") == Some(20) && ParseAdults(DefaultLimits, "21") == None
    ensures ParseChildren("0") == Some(0) && ParseChildren("10") == Some(10)
    ensures ParseChildren("11") == None && ParseChildren("-1") == None
  {
    assert Show(2) == "2" && Show(3) == "3" && Show(0) == "0" && Show(1) == "1";
    assert Show(21) == "21" && Show(22) == "22" && Show(20) == "20";
    assert Show(10) == "10" && Show(11) == "11" && Show(-1) == "-1";
    ShowInRange(2, 3, 21);
    ShowInRange(3, 3, 21);
    ShowInRange(21, 3, 21);
    ShowInRange(22, 3, 21);
    ShowInRange(0, 1, 20);
    ShowInRange(1, 1, 20);
    ShowInRange(20, 1, 20);
    ShowInRange(21, 1, 20);
    ShowInRange(0, 0, 10);
    ShowInRange(10, 0, 10);
    ShowInRange(11, 0, 10);
    ShowInRange(-1, 0, 10);
  }

  /** Text made only of white space, or holding a decimal point, is rejected by every range. */
  lemma NonNumbersRejected(text: string, lo: int, hi: int)
    requires (forall i :: 0 <= i < |text| ==> IsSpace(text[i])) || '.' in text
    ensures ParseInRange(text, lo, hi) == None
  {
    if '.' in text {
      var k :| 0 <= k < |text| && text[k] == '.';
      var j := StripKeepsInner(text, k);
      DecimalPointRejected(Strip(text), j);
    } else {
      assert |StripLeft(text)| == 0;
    }
  }

  /** A character that is not white space survives stripping. */
  lemma StripKeepsInner(text: string, k: nat) returns (j: nat)
    requires k < |text| && !IsSpace(text[k])
    ensures j < |Strip(text)| && Strip(text)[j] == text[k]
  {
    var l := StripLeft(text);
    var off := |text| - |l|;
    assert k >= off;
    j := k - off;
    assert l[j] == text[k];
    assert Strip(text) == StripRight(l);
  }

  lemma DecimalPointRejected(s: string, j: nat)
    requires j < |s| && s[j] == '.'
    ensures ParseDecimal(s) == None
  {
    assert !IsDigit(s[j]);
    if s[0] == '+' || s[0] == '-' {
      assert j >= 1 && s[1..][j - 1] == s[j];
    }
  }

  const Rouble: char := '₽'

  /** `text.strip().replace(' ', '').replace('₽', '')`. */
  function NormaliseBudget(text: string): (r: string)
    ensures ' ' !in r && Rouble !in r
    ensures forall c :: c in r ==> c in text
  {
    var s := Strip(text);
    assert forall c :: c in s ==> c in text by {
      assert s == StripRight(StripLeft(text));
    }
    RemoveAll(RemoveAll(s, ' '), Rouble)
  }

  /** The budget: the normalised text as an integer of at least `MIN_BUDGET`. */
  function ParseBudget(limits: Limits, text: string): (r: Option<int>)
    ensures r.Some? ==> r.value >= limits.minBudget && PyInt(NormaliseBudget(text)) == r
    ensures r.None? <==> PyInt(NormaliseBudget(text)).None? || PyInt(NormaliseBudget(text)).value < limits.minBudget
  {
    match PyInt(NormaliseBudget(text))
    case None => None
    case Some(n) => if n < limits.minBudget then None else Some(n)
  }

  lemma {:induction false} RemoveAllConcat(a: string, b: string, c: char)
    ensures RemoveAll(a + b, c) == RemoveAll(a, c) + RemoveAll(b, c)
  {
    if a == [] {
      assert a + b == b;
    } else {
      assert (a + b)[0] == a[0] && (a + b)[1..] == a[1..] + b;
      RemoveAllConcat(a[1..], b, c);
    }
  }

  /** The decimal text of an integer holds only digits and possibly a leading minus sign. */
  lemma ShowChars(n: int)
    ensures ' ' !in Show(n) && Rouble !in Show(n) && NoSpace(Show(n))
  {
    var m: nat := if n < 0 then -n else n;
    var d := ShowNat(m);
    assert forall i :: 0 <= i < |d| ==> IsDigit(d[i]);
    assert ' ' !in d && Rouble !in d;
    ShowNoSpace(n);
  }

  /** Stripping leaves text alone that neither starts nor ends with white space. */
  lemma StripKeeps(x: string)
    requires x != [] && !IsSpace(x[0]) && !IsSpace(x[|x| - 1])
    ensures Strip(x) == x
  {
    assert StripLeft(x) == x;
  }

  /** `c` removed from the one-character text `[c]` leaves nothing. */
  lemma RemoveSame(c: char)
    ensures RemoveAll([c], c) == []
  {
    assert [c][1..] == [];
  }

  /** `c` removed from the one-character text `[d]`, another character, leaves it. */
  lemma RemoveOther(d: char, c: char)
    requires d != c
    ensures RemoveAll([d], c) == [d]
  {
    assert [d][1..] == [];
  }

  /** Removing `c` from two parts without it joined by `d` keeps the parts. */
  lemma RemoveAround(a: string, b: string, c: char, d: char)
    requires c !in a && c !in b
    ensures RemoveAll(a + [d] + b, c) == a + RemoveAll([d], c) + b
  {
    RemoveAllConcat(a + [d], b, c);
    RemoveAllConcat(a, [d], c);
  }

  /** A part of a budget text that holds neither a space nor the rouble sign. */
  predicate NoSeparator(a: string)
  {
    ' ' !in a && Rouble !in a
  }

  /** Two parts joined by one character neither start nor end with white space when the parts
      do not. */
  lemma StripJoined(a: string, b: string, c: char)
    requires a != [] && b != [] && !IsSpace(a[0]) && !IsSpace(b[|b| - 1])
    ensures Strip(a + [c] + b) == a + [c] + b
  {
    var x := a + [c] + b;
    assert x[0] == a[0] && x[|x| - 1] == b[|b| - 1];
    StripKeeps(x);
  }

  /** Removing the spaces drops a space between two parts and nothing else. */
  lemma SpaceSeparatorRemoved(a: string, b: string)
    requires NoSeparator(a) && NoSeparator(b)
    ensures RemoveAll(a + [' '] + b, ' ') == a + b
  {
    RemoveAround(a, b, ' ', ' ');
    RemoveSame(' ');
    assert a + [] + b == a + b;
  }

  /** Removing the spaces keeps a rouble sign between two parts. */
  lemma RoubleSeparatorKept(a: string, b: string)
    requires NoSeparator(a) && NoSeparator(b)
    ensures RemoveAll(a + [Rouble] + b, ' ') == a + [Rouble] + b
  {
    RemoveAround(a, b, ' ', Rouble);
    RemoveOther(Rouble, ' ');
  }

  /** Removing the rouble signs drops a rouble sign between two parts and nothing else. */
  lemma RoubleSeparatorRemoved(a: string, b: string)
    requires NoSeparator(a) && NoSeparator(b)
    ensures RemoveAll(a + [Rouble] + b, Rouble) == a + b
  {
    RemoveAround(a, b, Rouble, Rouble);
    RemoveSame(Rouble);
    assert a + [] + b == a + b;
  }

  /** Two parts joined by a space normalise to the parts joined. */
  lemma NormaliseSpaceSeparated(a: string, b: string)
    requires a != [] && b != [] && !IsSpace(a[0]) && !IsSpace(b[|b| - 1])
    requires NoSeparator(a) && NoSeparator(b)
    ensures NormaliseBudget(a + [' '] + b) == a + b
  {
    StripJoined(a, b, ' ');
    SpaceSeparatorRemoved(a, b);
    assert Rouble !in a + b;
  }

  /** Two parts joined by the rouble sign normalise to the parts joined. */
  lemma NormaliseRoubleSeparated(a: string, b: string)
    requires a != [] && b != [] && !IsSpace(a[0]) && !IsSpace(b[|b| - 1])
    requires NoSeparator(a) && NoSeparator(b)
    ensures NormaliseBudget(a + [Rouble] + b) == a + b
  {
    StripJoined(a, b, Rouble);
    RoubleSeparatorKept(a, b);
    RoubleSeparatorRemoved(a, b);
  }

  /** Two parts without separators, joined directly, are their own normal form. */
  lemma NormaliseJoined(a: string, b: string)
    requires a != [] && b != [] && !IsSpace(a[0]) && !IsSpace(b[|b| - 1])
    requires NoSeparator(a) && NoSeparator(b)
    ensures NormaliseBudget(a + b) == a + b
  {
    assert (a + b)[0] == a[0] && (a + b)[|a + b| - 1] == b[|b| - 1];
    StripKeeps(a + b);
    assert ' ' !in a + b && Rouble !in a + b;
  }

  /** A space or a rouble sign between two parts of the text is dropped, whatever the parts hold
      besides: "10 000" and "10₽000" both read as "10000". */
  lemma SeparatorIgnored(limits: Limits, a: string, b: string, c: char)
    requires c == ' ' || c == Rouble
    requires a != [] && b != [] && !IsSpace(a[0]) && !IsSpace(b[|b| - 1])
    requires NoSeparator(a) && NoSeparator(b)
    ensures NormaliseBudget(a + [c] + b) == a + b
    ensures ParseBudget(limits, a + [c] + b) == ParseBudget(limits, a + b)
  {
    NormaliseJoined(a, b);
    if c == ' ' {
      NormaliseSpaceSeparated(a, b);
    } else {
      NormaliseRoubleSeparated(a, b);
    }
  }

  /** The decimal text of an integer, bare or followed by a space and the rouble sign, normalises
      to itself. */
  lemma NormalShow(n: int)
    ensures NormaliseBudget(Show(n)) == Show(n)
    ensures NormaliseBudget(Show(n) + " " + [Rouble]) == Show(n)
  {
    var s := Show(n);
    ShowChars(n);
    StripNoSpace(s);
    var x := s + (" " + [Rouble]);
    StripKeeps(x);
    RemoveAllConcat(s, " " + [Rouble], ' ');
    assert RemoveAll(" " + [Rouble], ' ') == [Rouble];
    RemoveAllConcat(s, [Rouble], Rouble);
    assert RemoveAll([Rouble], Rouble) == [];
    assert s + " " + [Rouble] == x;
  }

  /** Any decimal amount, bare or followed by a space and the rouble sign, reads as that amount. */
  lemma BudgetWithCurrency(limits: Limits, n: int)
    ensures ParseBudget(limits, Show(n) + " " + [Rouble]) == if n >= limits.minBudget then Some(n) else None
    ensures ParseBudget(limits, Show(n)) == if n >= limits.minBudget then Some(n) else None
  {
    NormalShow(n);
    ParseShow(n);
  }

  /** The example budget text normalises to its digits. */
  lemma NormaliseExample()
    ensures NormaliseBudget("10 000" + [Rouble]) == "10000"
  {
    StripKeeps("10 000" + [Rouble]);
    SpacesRemovedExample();
    RoubleRemovedExample();
  }

  lemma SpacesRemovedExample()
    ensures RemoveAll("10 000" + [Rouble], ' ') == "10000" + [Rouble]
  {
    var rest := "000" + [Rouble];
    assert "10 000" + [Rouble] == "10" + [' '] + rest;
    RemoveAround("10", rest, ' ', ' ');
    RemoveSame(' ');
    assert "10" + [] + rest == "10000" + [Rouble];
  }

  lemma RoubleRemovedExample()
    ensures RemoveAll("10000" + [Rouble], Rouble) == "10000"
  {
    RemoveAllConcat("10000", [Rouble], Rouble);
    assert RemoveAll([Rouble], Rouble) == [];
  }

  /** Thousands may be separated by spaces: "10 000₽" is 10000, "9999" is below the minimum. */
  lemma BudgetExamples()
    ensures ParseBudget(DefaultLimits, "10 000" + [Rouble]) == Some(10000)
    ensures ParseBudget(DefaultLimits, "9999") == None
    ensures ParseBudget(DefaultLimits, "10000") == Some(10000)
  {
    assert Show(10000) == "10000";
    assert Show(9999) == "9999";
    BudgetWithCurrency(DefaultLimits, 10000);
    BudgetWithCurrency(DefaultLimits, 9999);
    NormaliseExample();
    NormalShow(10000);
  }

  /** The outcome of the departure-date step. */
  datatype DateCheck = DateAccepted(stored: string, date: Date) | DateInvalid | DatePast

  /** `strptime(text.strip(), '%d.%m.%Y')`, then `date_obj < datetime.now()` rejects the date as
      past; otherwise the stripped text is what gets stored. */
  function CheckDate(text: string, now: Clock): (r: DateCheck)
    ensures r.DateInvalid? <==> ParseDate(Strip(text)).None?
    ensures r.DateAccepted? ==> r.stored == Strip(text) && ParseDate(r.stored) == Some(r.date)
  {
    var s := Strip(text);
    match ParseDate(s)
    case None => DateInvalid
    case Some(d) => if ClockBefore(Midnight(d), now) then DatePast else DateAccepted(s, d)
  }

  /** A date is accepted exactly when it is a later day than today, or today while the clock
      stands exactly at midnight: the parsed midnight is compared with the full current time. */
  lemma DateAcceptance(text: string, now: Clock)
    requires ParseDate(Strip(text)).Some?
    ensures var d := ParseDate(Strip(text)).value;
      CheckDate(text, now).DateAccepted?
      <==> (DateBefore(now.date, d) || (d == now.date && now.sinceMidnight == 0))
  {
  }

  lemma FormatNoSpace(d: Date)
    requires ValidDate(d)
    ensures NoSpace(FormatDate(d)) && Strip(FormatDate(d)) == FormatDate(d)
  {
    PaddedNoSpace(d.year, d.month, d.day);
  }

  lemma PaddedNoSpace(year: nat, month: nat, day: nat)
    requires day < 100 && month < 100 && year < 10000
    ensures var f := Pad2(day) + "." + Pad2(month) + "." + Pad4(year);
      NoSpace(f) && Strip(f) == f
  {
    Pad2Digits(day);
    Pad2Digits(month);
    Pad4Digits(year);
    var a, b, c := Pad2(day), Pad2(month), Pad4(year);
    var f := a + "." + b + "." + c;
    assert f == a + "." + b + "." + c;
    forall i | 0 <= i < |f| ensures !IsSpace(f[i]) {
      if i < 2 { assert f[i] == a[i]; }
      else if 3 <= i < 5 { assert f[i] == b[i - 3]; }
      else if 6 <= i { assert f[i] == c[i - 6]; }
    }
    StripNoSpace(f);
  }

  /** Any day after today is accepted when written `dd.mm.yyyy`, and its text is stored. */
  lemma FutureDateAccepted(d: Date, now: Clock)
    requires ValidDate(d) && DateBefore(now.date, d)
    ensures CheckDate(FormatDate(d), now) == DateAccepted(FormatDate(d), d)
  {
    FormatNoSpace(d);
    FormatParse(d);
  }

  /** Today's date is refused as past at any moment after midnight. */
  lemma TodayRejected(now: Clock)
    requires ValidDate(now.date) && now.sinceMidnight > 0
    ensures CheckDate(FormatDate(now.date), now) == DatePast
  {
    FormatNoSpace(now.date);
    FormatParse(now.date);
  }

  /** Days before today are refused as past. */
  lemma PastDateRejected(d: Date, now: Clock)
    requires ValidDate(d) && DateBefore(d, now.date)
    ensures CheckDate(FormatDate(d), now) == DatePast
  {
    FormatNoSpace(d);
    FormatParse(d);
  }

  /** A day number beyond the length of its month is refused as invalid, not as past. */
  lemma NonexistentDateRejected(year: nat, month: nat, day: nat, now: Clock)
    requires 1 <= year <= 9999 && 1 <= month <= 12 && DaysInMonth(year, month) < day < 100
    ensures CheckDate(Pad2(day) + "." + Pad2(month) + "." + Pad4(year), now) == DateInvalid
  {
    var f := Pad2(day) + "." + Pad2(month) + "." + Pad4(year);
    PaddedNoSpace(year, month, day);
    ParsePadded(year, month, day);
  }

  /** February 29 is accepted in a leap year and refused in others; April has no 31st. */
  lemma CalendarExamples(now: Clock)
    ensures CheckDate(Pad2(29) + "." + Pad2(2) + "." + Pad4(2023), now) == DateInvalid
    ensures CheckDate(Pad2(31) + "." + Pad2(4) + "." + Pad4(2030), now) == DateInvalid
    ensures ParseDate(Pad2(29) + "." + Pad2(2) + "." + Pad4(2024)) == Some(Date(2024, 2, 29))
  {
    NonexistentDateRejected(2023, 2, 29, now);
    NonexistentDateRejected(2030, 4, 31, now);
    ParsePadded(2024, 2, 29);
  }
}
