/** The string operations the pizza classes rely on: ASCII case folding
    (`String.toLowerCase`, `String.equalsIgnoreCase`), decimal rendering of
    an `int` (string concatenation) and of a price (`DecimalFormat("0.00")`). */
module Text {

  /** ASCII lower case of one character; every other character is kept. */
  function LowerChar(ch: char): char {
    if 'A' <= ch <= 'Z' then (ch as int + 32) as char else ch
  }

  /** No ASCII upper-case letter occurs in `s`. */
  predicate IsLower(s: string) {
    forall i :: 0 <= i < |s| ==> !('A' <= s[i] <= 'Z')
  }

  /** `s.toLowerCase()`, restricted to ASCII letters. */
  function Lower(s: string): (r: string)
    ensures |r| == |s|
    ensures forall i :: 0 <= i < |s| ==> r[i] == LowerChar(s[i])
    ensures IsLower(r)
  {
    if s == [] then [] else [LowerChar(s[0])] + Lower(s[1..])
  }

  /** `a.equalsIgnoreCase(b)`: same length, and the characters agree
      position by position once case is ignored. */
  predicate EqualsIgnoreCase(a: string, b: string): (r: bool)
    ensures a == b ==> r
  {
    |a| == |b| && forall i :: 0 <= i < |a| ==> LowerChar(a[i]) == LowerChar(b[i])
  }

  /** Ignoring case is the same as comparing the lower-case forms. */
  lemma EqualsIgnoreCaseIffLower(a: string, b: string)
    ensures EqualsIgnoreCase(a, b) <==> Lower(a) == Lower(b)
  {
  }

  /** Lower-casing a string that is already lower case changes nothing. */
  lemma LowerOfLower(s: string)
    requires IsLower(s)
    ensures Lower(s) == s
  {
  }

  /** For a lower-case word `w`, `s.equalsIgnoreCase(w)` holds exactly when
      `s.toLowerCase()` is `w`. */
  lemma EqualsIgnoreCaseWord(s: string, w: string)
    requires IsLower(w)
    ensures EqualsIgnoreCase(s, w) <==> Lower(s) == w
  {
  }

  predicate IsDigit(ch: char) { '0' <= ch <= '9' }

  function Digit(d: nat): (ch: char)
    requires d < 10
  {
    ('0' as int + d) as char
  }

  function DigitValue(ch: char): nat {
    if IsDigit(ch) then ch as int - '0' as int else 0
  }

  /** The number a string of decimal digits denotes. */
  function ParseNat(s: string): nat {
    if s == [] then 0 else ParseNat(s[..|s| - 1]) * 10 + DigitValue(s[|s| - 1])
  }

  /** `d` is how Java writes the non-negative number `n`: decimal digits
      only, no leading zero, reading back as `n`. */
  predicate IsDecimalOf(d: string, n: nat) {
    && 1 <= |d|
    && (forall i :: 0 <= i < |d| ==> IsDigit(d[i]))
    && (|d| > 1 ==> d[0] != '0')
    && ParseNat(d) == n
  }

  /** The decimal form Java gives a non-negative `int` in a string
      concatenation. */
  function Show(n: nat): (s: string)
    ensures IsDecimalOf(s, n)
    ensures |s| == 1 <==> n < 10
    ensures 10 <= n < 100 ==> |s| == 2
    ensures 100 <= n < 1000 ==> |s| == 3
  {
    if n < 10 then [Digit(n)] else Show(n / 10) + [Digit(n % 10)]
  }

  /** Two decimal digits read back as the number they denote. */
  lemma ParseTwoDigits(tens: nat, units: nat)
    requires tens < 10 && units < 10
    ensures ParseNat([Digit(tens), Digit(units)]) == 10 * tens + units
  {
    var digits := [Digit(tens), Digit(units)];
    assert digits[..1] == [Digit(tens)] && [Digit(tens)][..0] == [];
    assert ParseNat([Digit(tens)]) == DigitValue(Digit(tens)) == tens;
    assert ParseNat(digits) == ParseNat(digits[..1]) * 10 + DigitValue(digits[1]);
  }

  /** A number of cents is its whole dollars, its tens of cents and its
      units of cents. */
  lemma SplitCents(cents: nat)
    ensures cents == cents / 100 * 100 + 10 * (cents % 100 / 10) + cents % 100 % 10
  {
    var rest := cents % 100;
    assert cents == cents / 100 * 100 + rest;
    assert rest == rest / 10 * 10 + rest % 10;
  }

  /** `new DecimalFormat("0.00").format(cents / 100.0)`: the whole dollars,
      a point and exactly two digits of cents. Reading the two parts back
      gives the amount. */
  function FormatCents(cents: nat): (s: string)
    ensures |s| >= 4 && s[|s| - 3] == '.'
    ensures forall i :: 0 <= i < |s| && i != |s| - 3 ==> IsDigit(s[i])
    ensures ParseNat(s[..|s| - 3]) * 100 + ParseNat(s[|s| - 2..]) == cents
    ensures IsDecimalOf(s[..|s| - 3], cents / 100) && ParseNat(s[|s| - 2..]) == cents % 100
    ensures |s| > 4 ==> s[0] != '0'
  {
    var dollars := Show(cents / 100);
    var twoDigits := [Digit(cents % 100 / 10), Digit(cents % 100 % 10)];
    var s := dollars + "." + twoDigits;
    ParseTwoDigits(cents % 100 / 10, cents % 100 % 10);
    SplitCents(cents);
    assert s[..|s| - 3] == dollars;
    assert s[|s| - 2..] == twoDigits;
    assert forall i :: 0 <= i < |s| && i != |s| - 3 ==> s[i] == if i < |dollars| then dollars[i] else twoDigits[i - |dollars| - 1];
    s
  }
}
