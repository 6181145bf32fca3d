/** ASCII text helpers: the string operations the screens apply to names and
    URLs (`toLowerCase`, `replace(/\s/g, …)`, `split('/').pop()`,
    `startsWith`, `includes`) and decimal rendering of numbers. */
module Text {

  /** A character matched by the `\s` regular-expression class (ASCII part). */
  predicate IsSpace(c: char) {
    c == ' ' || c == '\t' || c == '\n' || c == '\r' || c as int == 11 || c as int == 12
  }

  predicate IsUpper(c: char) { 'A' <= c <= 'Z' }

  predicate IsLower(c: char) { 'a' <= c <= 'z' }

  predicate IsDigit(c: char) { '0' <= c <= '9' }

  function ToLower(c: char): char {
    if IsUpper(c) then (c as int + 32) as char else c
  }

  function ToUpper(c: char): char {
    if IsLower(c) then (c as int - 32) as char else c
  }

  /** `s.toLowerCase()` */
  function LowerAll(s: string): (r: string)
    ensures |r| == |s|
    ensures forall i :: 0 <= i < |s| ==> r[i] == ToLower(s[i])
  {
    seq(|s|, i requires 0 <= i < |s| => ToLower(s[i]))
  }

  /** `s.replace(/\s/g, with)`: every whitespace character becomes `with`. */
  function ReplaceSpaces(s: string, with: char): (r: string)
    ensures |r| == |s|
    ensures forall i :: 0 <= i < |s| ==> r[i] == if IsSpace(s[i]) then with else s[i]
  {
    seq(|s|, i requires 0 <= i < |s| => if IsSpace(s[i]) then with else s[i])
  }

  /** `s.replace(/\s+/g, "")`: every whitespace character is dropped, the
      others keep their order. */
  function RemoveSpaces(s: string): (r: string)
    ensures |r| <= |s|
    ensures forall i :: 0 <= i < |r| ==> !IsSpace(r[i])
    ensures forall c :: c in r <==> c in s && !IsSpace(c)
  {
    if |s| == 0 then []
    else (if IsSpace(s[0]) then [] else [s[0]]) + RemoveSpaces(s[1..])
  }

  /** Number of non-whitespace characters of `s`. */
  function CountNonSpace(s: string): nat {
    if |s| == 0 then 0 else (if IsSpace(s[0]) then 0 else 1) + CountNonSpace(s[1..])
  }

  predicate StartsWith(s: string, prefix: string) {
    |prefix| <= |s| && s[..|prefix|] == prefix
  }

  predicate EndsWith(s: string, suffix: string) {
    |suffix| <= |s| && s[|s| - |suffix|..] == suffix
  }

  /** `part` occurs in `s` starting at index `i`. */
  predicate OccursAt(s: string, part: string, i: int) {
    0 <= i <= |s| - |part| && s[i..i + |part|] == part
  }

  /** `s.includes(part)` */
  predicate Contains(s: string, part: string) {
    exists i :: 0 <= i <= |s| && OccursAt(s, part, i)
  }

  /** `s.split(sep).pop()`: the longest suffix of `s` free of `sep`. */
  function LastSegment(s: string, sep: char): (r: string)
    ensures sep !in r
    ensures EndsWith(s, r)
    ensures |r| < |s| ==> s[|s| - |r| - 1] == sep
  {
    if |s| == 0 || s[|s| - 1] == sep then []
    else LastSegment(s[..|s| - 1], sep) + [s[|s| - 1]]
  }

  /** Index of the first `c` in `s`, or `|s|` when there is none. */
  function IndexOf(s: string, c: char): (k: nat)
    ensures k <= |s|
    ensures k < |s| ==> s[k] == c
    ensures forall i :: 0 <= i < k ==> s[i] != c
  {
    if |s| == 0 then 0
    else if s[0] == c then 0
    else 1 + IndexOf(s[1..], c)
  }

  function DigitChar(d: nat): (c: char)
    requires d < 10
    ensures IsDigit(c)
  {
    ('0' as int + d) as char
  }

  function DigitValue(c: char): nat
    requires IsDigit(c)
  {
    c as int - '0' as int
  }

  predicate AllDigits(s: string) {
    forall i :: 0 <= i < |s| ==> IsDigit(s[i])
  }

  /** Decimal rendering of a non-negative integer, as a template literal prints it. */
  function NatToString(n: nat): (s: string)
    ensures 1 <= |s|
    ensures AllDigits(s)
    ensures |s| == 1 <==> n < 10
  {
    if n < 10 then [DigitChar(n)]
    else NatToString(n / 10) + [DigitChar(n % 10)]
  }

  /** Decimal rendering of any integer: a leading '-' for negative values. */
  function IntToString(i: int): string {
    if i < 0 then "-" + NatToString(-i) else NatToString(i)
  }

  /** The number a string of decimal digits denotes. */
  function DigitsValue(s: string): nat
    requires AllDigits(s)
  {
    if |s| == 0 then 0
    else DigitsValue(s[..|s| - 1]) * 10 + DigitValue(s[|s| - 1])
  }

  /** Reading back a rendered number gives the number. */
  lemma {:induction false} DigitsRoundTrip(n: nat)
    ensures DigitsValue(NatToString(n)) == n
  {
    if n >= 10 {
      var s := NatToString(n);
      assert s[..|s| - 1] == NatToString(n / 10);
      DigitsRoundTrip(n / 10);
    }
  }

  lemma ToLowerKeepsSpace(c: char)
    ensures IsSpace(ToLower(c)) == IsSpace(c)
    ensures !IsUpper(ToLower(c))
  {
  }

  /** Dropping whitespace keeps exactly the non-whitespace characters. */
  lemma {:induction false} RemoveSpacesLength(s: string)
    ensures |RemoveSpaces(s)| == CountNonSpace(s)
  {
    if |s| > 0 {
      RemoveSpacesLength(s[1..]);
    }
  }

  /** A string without whitespace is left as it is. */
  lemma {:induction false} RemoveSpacesNoSpace(s: string)
    requires forall i :: 0 <= i < |s| ==> !IsSpace(s[i])
    ensures RemoveSpaces(s) == s
  {
    if |s| > 0 {
      RemoveSpacesNoSpace(s[1..]);
    }
  }

  /** Lower-casing does not move whitespace. */
  lemma {:induction false} LowerAllCountNonSpace(s: string)
    ensures CountNonSpace(LowerAll(s)) == CountNonSpace(s)
  {
    if |s| > 0 {
      ToLowerKeepsSpace(s[0]);
      assert LowerAll(s)[1..] == LowerAll(s[1..]);
      LowerAllCountNonSpace(s[1..]);
    }
  }

  lemma LowerAllAppend(a: string, b: string)
    ensures LowerAll(a + b) == LowerAll(a) + LowerAll(b)
  {
  }

  /** Lower-casing and dropping whitespace can be done in either order. */
  lemma {:induction false} RemoveSpacesLowerAll(s: string)
    ensures RemoveSpaces(LowerAll(s)) == LowerAll(RemoveSpaces(s))
  {
    if |s| > 0 {
      var low := LowerAll(s);
      var tail := RemoveSpaces(s[1..]);
      ToLowerKeepsSpace(s[0]);
      assert low[0] == ToLower(s[0]);
      assert low[1..] == LowerAll(s[1..]);
      RemoveSpacesLowerAll(s[1..]);
      if IsSpace(s[0]) {
        assert RemoveSpaces(s) == tail;
        assert RemoveSpaces(low) == RemoveSpaces(low[1..]);
      } else {
        assert RemoveSpaces(s) == [s[0]] + tail;
        assert RemoveSpaces(low) == [low[0]] + RemoveSpaces(low[1..]);
        LowerAllAppend([s[0]], tail);
      }
    }
  }

  /** A leading zero does not change the value of a digit string. */
  lemma {:induction false} LeadingZero(b: string)
    requires AllDigits(b)
    ensures AllDigits("0" + b) && DigitsValue("0" + b) == DigitsValue(b)
  {
    if |b| > 0 {
      var z := "0" + b;
      assert z[..|z| - 1] == "0" + b[..|b| - 1];
      LeadingZero(b[..|b| - 1]);
    }
  }

  /** A string free of the separator is its own last segment. */
  lemma {:induction false} LastSegmentWhole(s: string, sep: char)
    requires sep !in s
    ensures LastSegment(s, sep) == s
  {
    if |s| > 0 {
      LastSegmentWhole(s[..|s| - 1], sep);
    }
  }

  /** What comes before a separator does not affect the last segment. */
  lemma {:induction false} LastSegmentAfterSep(a: string, b: string, sep: char)
    ensures LastSegment(a + [sep] + b, sep) == LastSegment(b, sep)
  {
    if |b| > 0 && b[|b| - 1] != sep {
      var s := a + [sep] + b;
      assert s[..|s| - 1] == a + [sep] + b[..|b| - 1];
      LastSegmentAfterSep(a, b[..|b| - 1], sep);
    }
  }
}
