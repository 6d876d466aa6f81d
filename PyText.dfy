/** The few pieces of Python's string and integer semantics the bot relies on: `str.strip()`,
    `str.split()`, `str.split(sep)`, `str.startswith`, `str.replace(old, new[, 1])`, `int(text)`
    for ASCII decimals with an optional sign, and `str(n)`. */
module PyText {
  import opened Wrappers

  /** The Python scalars the bot stores and formats: text or an integer. */
  datatype Scalar = Str(s: string) | Int(i: int)

  /** Python's `str.isspace()` for one character: the set that `strip()` and `split()` use. */
  predicate IsSpace(c: char)
  {
    c == ' ' || ('\t' <= c <= '\r') || ('\U{1c}' <= c <= '\U{1f}') || c == '\U{85}' || c == '\U{a0}'
    || c == '\U{1680}' || ('\U{2000}' <= c <= '\U{200a}') || c == '\U{2028}' || c == '\U{2029}'
    || c == '\U{202f}' || c == '\U{205f}' || c == '\U{3000}'
  }

  predicate NoSpace(s: string)
  {
    forall i :: 0 <= i < |s| ==> !IsSpace(s[i])
  }

  /** `s.lstrip()`: the longest suffix of `s` that does not start with white space. */
  function StripLeft(s: string): (r: string)
    ensures |r| <= |s| && r == s[|s| - |r|..]
    ensures r == [] || !IsSpace(r[0])
    ensures forall k :: 0 <= k < |s| - |r| ==> IsSpace(s[k])
  {
    if |s| > 0 && IsSpace(s[0]) then StripLeft(s[1..]) else s
  }

  /** `s.rstrip()`: the longest prefix of `s` that does not end with white space. */
  function StripRight(s: string): (r: string)
    ensures |r| <= |s| && r == s[..|r|]
    ensures r == [] || !IsSpace(r[|r| - 1])
    ensures forall k :: |r| <= k < |s| ==> IsSpace(s[k])
  {
    if |s| > 0 && IsSpace(s[|s| - 1]) then StripRight(s[..|s| - 1]) else s
  }

  /** `r` is the slice of `s` at `i` with only white space before and after it. */
  predicate CutFrom(s: string, r: string, i: int)
  {
    && 0 <= i <= |s| - |r| && r == s[i..i + |r|]
    && (forall k :: 0 <= k < i ==> IsSpace(s[k]))
    && (forall k :: i + |r| <= k < |s| ==> IsSpace(s[k]))
  }

  /** `s.strip()`: white space cut from both ends, so the result neither starts nor ends with it. */
  function Strip(s: string): (r: string)
    ensures |r| <= |s|
    ensures r == [] || (!IsSpace(r[0]) && !IsSpace(r[|r| - 1]))
  {
    var l := StripLeft(s);
    var r := StripRight(l);
    assert r != [] ==> r[0] == l[0];
    r
  }

  /** `strip()` cuts white space from both ends and nothing else: the result is a slice of the
      text with only white space before and after it. */
  lemma StripSlice(s: string)
    ensures exists i :: CutFrom(s, Strip(s), i)
  {
    var l := StripLeft(s);
    var r := StripRight(l);
    var i := |s| - |l|;
    SliceOfSuffix(s, l, r, i);
    SpaceAfterSlice(s, l, r, i);
    assert Strip(s) == r;
    assert CutFrom(s, r, i);
  }

  /** A slice of a suffix is a slice of the text. */
  lemma SliceOfSuffix(s: string, l: string, r: string, i: int)
    requires 0 <= i <= |s| && l == s[i..] && |r| <= |l| && r == l[..|r|]
    ensures r == s[i..i + |r|]
  {
  }

  /** What `rstrip()` cut from a suffix is white space of the text. */
  lemma SpaceAfterSlice(s: string, l: string, r: string, i: int)
    requires 0 <= i <= |s| && l == s[i..] && r == StripRight(l)
    ensures forall k :: i + |r| <= k < |s| ==> IsSpace(s[k])
  {
    forall k | i + |r| <= k < |s| ensures IsSpace(s[k]) {
      assert s[k] == l[k - i];
    }
  }

  /** Text made of white space only. */
  predicate AllSpace(s: string)
  {
    forall i :: 0 <= i < |s| ==> IsSpace(s[i])
  }

  /** White space stays white space when a character is dropped from either end. */
  lemma AllSpaceEnds(p: string)
    requires AllSpace(p) && p != []
    ensures IsSpace(p[0]) && IsSpace(p[|p| - 1])
    ensures AllSpace(p[1..]) && AllSpace(p[..|p| - 1])
  {
    assert forall i :: 0 <= i < |p| - 1 ==> p[1..][i] == p[i + 1] && p[..|p| - 1][i] == p[i];
  }

  /** `lstrip()` removes a white-space prefix along with the rest of the leading white space. */
  lemma {:induction false} StripLeftPrefix(p: string, x: string)
    requires AllSpace(p)
    ensures StripLeft(p + x) == StripLeft(x)
  {
    if p == [] {
      assert p + x == x;
    } else {
      var s := p + x;
      AllSpaceEnds(p);
      assert s[0] == p[0];
      assert s[1..] == p[1..] + x;
      assert StripLeft(s) == StripLeft(p[1..] + x);
      StripLeftPrefix(p[1..], x);
    }
  }

  /** `rstrip()` removes a white-space suffix along with the rest of the trailing white space. */
  lemma {:induction false} StripRightSuffix(y: string, q: string)
    requires AllSpace(q)
    ensures StripRight(y + q) == StripRight(y)
    decreases |q|
  {
    if q == [] {
      assert y + q == y;
    } else {
      var s := y + q;
      var q' := q[..|q| - 1];
      AllSpaceEnds(q);
      assert s[|s| - 1] == q[|q| - 1];
      assert s[..|s| - 1] == y + q';
      assert StripRight(s) == StripRight(y + q');
      StripRightSuffix(y, q');
    }
  }

  /** A white-space suffix survives `lstrip()` unless the text before it is all white space. */
  lemma {:induction false} StripLeftSuffix(t: string, q: string)
    requires AllSpace(q)
    ensures StripLeft(t + q) == if StripLeft(t) == [] then StripLeft(q) else StripLeft(t) + q
  {
    if t == [] {
      assert t + q == q;
    } else if IsSpace(t[0]) {
      assert (t + q)[0] == t[0] && (t + q)[1..] == t[1..] + q;
      StripLeftSuffix(t[1..], q);
    } else {
      assert (t + q)[0] == t[0];
    }
  }

  /** A white-space text strips to nothing. */
  lemma StripLeftAllSpace(q: string)
    requires AllSpace(q)
    ensures StripLeft(q) == []
  {
  }

  /** `strip()` ignores any white space put around the text. */
  lemma StripPaddedBy(p: string, text: string, q: string)
    requires AllSpace(p) && AllSpace(q)
    ensures Strip(p + text + q) == Strip(text)
  {
    assert p + text + q == p + (text + q);
    StripLeftPrefix(p, text + q);
    StripLeftSuffix(text, q);
    StripLeftAllSpace(q);
    if StripLeft(text) != [] {
      StripRightSuffix(StripLeft(text), q);
    }
  }

  /** Stripping twice is stripping once (handlers strip, then `int()` strips again). */
  lemma StripIdempotent(s: string)
    ensures Strip(Strip(s)) == Strip(s)
  {
    var r := Strip(s);
    assert StripLeft(r) == r;
  }

  lemma StripNoSpace(s: string)
    requires NoSpace(s)
    ensures Strip(s) == s
  {
    assert StripLeft(s) == s;
  }

  predicate StartsWith(s: string, prefix: string)
  {
    |prefix| <= |s| && s[..|prefix|] == prefix
  }

  /** `p` occurs in `s` at index `j`. */
  predicate OccursAt(s: string, p: string, j: nat)
  {
    j + |p| <= |s| && s[j..j + |p|] == p
  }

  lemma OccursAtTail(s: string, p: string, j: nat)
    requires |s| > 0
    ensures OccursAt(s, p, j + 1) <==> OccursAt(s[1..], p, j)
  {
    if j + 1 + |p| <= |s| {
      assert s[j + 1..j + 1 + |p|] == s[1..][j..j + |p|];
    }
  }

  /** Index of the first occurrence of `p` in `s` (`s.find(p)`, with None for -1). */
  function Find(s: string, p: string): (r: Option<nat>)
    ensures r.Some? ==> OccursAt(s, p, r.value)
    ensures r.Some? ==> forall j: nat :: j < r.value ==> !OccursAt(s, p, j)
    ensures r.None? ==> forall j: nat :: !OccursAt(s, p, j)
  {
    if |s| < |p| then None
    else if s[..|p|] == p then Some(0)
    else
      var tail := Find(s[1..], p);
      forall j: nat | j >= 1
        ensures OccursAt(s, p, j) <==> OccursAt(s[1..], p, j - 1)
      {
        OccursAtTail(s, p, j - 1);
      }
      match tail
      case Some(i) => Some(i + 1)
      case None => None
  }

  /** `s.replace(target, replacement, 1)`: the first occurrence of `target` replaced, the rest untouched. */
  function ReplaceFirst(s: string, target: string, replacement: string): string
  {
    match Find(s, target)
    case Some(i) => s[..i] + replacement + s[i + |target|..]
    case None => s
  }

  /** When `s` starts with `target`, replacing its first occurrence rewrites only that prefix. */
  lemma ReplaceFirstAtPrefix(s: string, target: string, replacement: string)
    requires StartsWith(s, target)
    ensures ReplaceFirst(s, target, replacement) == replacement + s[|target|..]
  {
    assert Find(s, target) == Some(0);
  }

  /** `s.replace(c, '')`: every occurrence of `c` removed, everything else kept in order. */
  function RemoveAll(s: string, c: char): (r: string)
    ensures c !in r
    ensures |r| <= |s|
    ensures c !in s ==> r == s
    ensures forall x :: x in r ==> x in s
  {
    if s == [] then []
    else if s[0] == c then RemoveAll(s[1..], c)
    else [s[0]] + RemoveAll(s[1..], c)
  }

  predicate IsDigit(c: char)
  {
    '0' <= c <= '9'
  }

  predicate AllDigits(s: string)
  {
    forall i :: 0 <= i < |s| ==> IsDigit(s[i])
  }

  function DigitChar(d: nat): (c: char)
    requires d < 10
    ensures IsDigit(c) && c as int - '0' as int == d
  {
    ('0' as int + d) as char
  }

  /** The value of a string of decimal digits, most significant first. */
  function DigitsValue(s: string): nat
    requires AllDigits(s)
  {
    if s == [] then 0 else DigitsValue(s[..|s| - 1]) * 10 + (s[|s| - 1] as int - '0' as int)
  }

  /** `int(s)` on text that has already been stripped: an optional `+` or `-` followed by one or
      more ASCII digits (leading zeros allowed); anything else raises `ValueError` (None). */
  function ParseDecimal(s: string): Option<int>
  {
    if |s| > 0 && (s[0] == '+' || s[0] == '-') then
      if |s| > 1 && AllDigits(s[1..]) then
        var magnitude: int := DigitsValue(s[1..]);
        Some(if s[0] == '-' then -magnitude else magnitude)
      else None
    else if s != [] && AllDigits(s) then Some(DigitsValue(s))
    else None
  }

  /** Python's `int(s)`, which ignores surrounding white space itself. */
  function PyInt(s: string): Option<int>
  {
    ParseDecimal(Strip(s))
  }

  /** `str(n)` for a natural number: decimal digits without leading zeros. */
  function ShowNat(n: nat): (r: string)
    ensures r != [] && AllDigits(r) && DigitsValue(r) == n
    ensures r[0] == '0' ==> n == 0
  {
    if n < 10 then [DigitChar(n)]
    else
      var r := ShowNat(n / 10) + [DigitChar(n % 10)];
      assert r[..|r| - 1] == ShowNat(n / 10);
      r
  }

  /** `str(n)`. */
  function Show(n: int): string
  {
    if n < 0 then "-" + ShowNat(-n) else ShowNat(n)
  }

  lemma ShowNoSpace(n: int)
    ensures NoSpace(Show(n)) && Show(n) != []
  {
    var s := ShowNat(if n < 0 then -n else n);
    assert forall i :: 0 <= i < |s| ==> IsDigit(s[i]);
  }

  /** `int(str(n)) == n` for every integer. */
  lemma {:induction false} ParseShow(n: int)
    ensures ParseDecimal(Show(n)) == Some(n)
    ensures PyInt(Show(n)) == Some(n)
  {
    if n < 0 {
      var s := Show(n);
      assert s[1..] == ShowNat(-n);
    }
    ShowNoSpace(n);
    StripNoSpace(Show(n));
  }

  /** Length of the run of non-space characters at the start of `s`. */
  function WordLength(s: string): (n: nat)
    ensures n <= |s|
    ensures forall k :: 0 <= k < n ==> !IsSpace(s[k])
    ensures n < |s| ==> IsSpace(s[n])
  {
    if s == [] || IsSpace(s[0]) then 0 else 1 + WordLength(s[1..])
  }

  /** `s.split()`: the maximal runs of non-space characters, in order. */
  function Words(s: string): (ws: seq<string>)
    ensures forall i :: 0 <= i < |ws| ==> ws[i] != [] && NoSpace(ws[i])
    decreases |s|
  {
    if s == [] then []
    else if IsSpace(s[0]) then Words(s[1..])
    else
      var n := WordLength(s);
      [s[..n]] + Words(s[n..])
  }

  /** A word followed by white space (or by nothing) is split off as the first token. */
  lemma WordsCons(w: string, rest: string)
    requires w != [] && NoSpace(w)
    requires rest == [] || IsSpace(rest[0])
    ensures Words(w + rest) == [w] + Words(rest)
  {
    var s := w + rest;
    WordLengthOfWord(w, rest);
    assert s[..|w|] == w && s[|w|..] == rest;
  }

  lemma {:induction false} WordLengthOfWord(w: string, rest: string)
    requires NoSpace(w)
    requires rest == [] || IsSpace(rest[0])
    ensures WordLength(w + rest) == |w|
  {
    if w != [] {
      assert (w + rest)[1..] == w[1..] + rest;
      WordLengthOfWord(w[1..], rest);
    }
  }

  /** `s.split(sep)` for a single separator character. */
  function Split(s: string, sep: char): (parts: seq<string>)
    ensures |parts| >= 1
    ensures forall i :: 0 <= i < |parts| ==> sep !in parts[i]
  {
    if s == [] then [""]
    else
      var rest := Split(s[1..], sep);
      if s[0] == sep then [""] + rest else [[s[0]] + rest[0]] + rest[1..]
  }

  /** A separator-free piece followed by the separator is split off as the first part. */
  lemma {:induction false} SplitCons(a: string, sep: char, b: string)
    requires sep !in a
    ensures Split(a + [sep] + b, sep) == [a] + Split(b, sep)
  {
    if a != [] {
      assert (a + [sep] + b)[1..] == a[1..] + [sep] + b;
      SplitCons(a[1..], sep, b);
      assert [a[0]] + a[1..] == a;
    } else {
      assert (a + [sep] + b)[1..] == b;
    }
  }

  /** A separator-free string is a single part. */
  lemma {:induction false} SplitNone(a: string, sep: char)
    requires sep !in a
    ensures Split(a, sep) == [a]
  {
    if a != [] {
      SplitNone(a[1..], sep);
      assert [a[0]] + a[1..] == a;
    }
  }

  /** `sep.join(parts)`. */
  function Join(parts: seq<string>, sep: char): string
    requires |parts| >= 1
  {
    if |parts| == 1 then parts[0] else parts[0] + [sep] + Join(parts[1..], sep)
  }

  /** Splitting on a character loses nothing: joining the parts back gives the input. */
  lemma {:induction false} JoinSplit(s: string, sep: char)
    ensures Join(Split(s, sep), sep) == s
  {
    if s != [] {
      JoinSplit(s[1..], sep);
      var rest := Split(s[1..], sep);
      if s[0] == sep {
        assert ([""] + rest)[1..] == rest;
      } else if |rest| == 1 {
      } else {
        assert rest == [rest[0]] + rest[1..];
        assert Join(rest, sep) == rest[0] + [sep] + Join(rest[1..], sep);
        assert ([[s[0]] + rest[0]] + rest[1..])[1..] == rest[1..];
      }
    }
  }

  /** Leading zeros do not change the value of a digit string. */
  lemma {:induction false} DigitsValueLeadingZero(x: string)
    requires AllDigits(x)
    ensures AllDigits("0" + x) && DigitsValue("0" + x) == DigitsValue(x)
  {
    if x != [] {
      var y := "0" + x;
      assert y[..|y| - 1] == "0" + x[..|x| - 1];
      DigitsValueLeadingZero(x[..|x| - 1]);
    }
  }

  /** A number below 10^k has at most k digits. */
  lemma {:induction false} ShowNatLength(n: nat, k: nat, bound: nat)
    requires k >= 1 && bound == Pow10(k) && n < bound
    ensures |ShowNat(n)| <= k
  {
    if n >= 10 {
      ShowNatLength(n / 10, k - 1, Pow10(k - 1));
    }
  }

  function Pow10(k: nat): nat
  {
    if k == 0 then 1 else 10 * Pow10(k - 1)
  }
}
