/**
 * The string operations the scraper applies to user input and page text:
 * `str.lower` on state names and `str.isnumeric` / `int` on menu choices.
 * Only ASCII letters and digits are modelled.
 */
module Text {

  /** Lower-case one character (ASCII letters only). */
  function LowerChar(c: char): (d: char)
    ensures 'A' <= c <= 'Z' ==> d as int == c as int + 32
    ensures !('A' <= c <= 'Z') ==> d == c
    ensures !('A' <= d <= 'Z')
  {
    if 'A' <= c <= 'Z' then (c as int + 32) as char else c
  }

  /** `s.lower()`: every character lower-cased, in place. */
  function Lower(s: string): (r: string)
    ensures |r| == |s|
    ensures forall i :: 0 <= i < |s| ==> r[i] == LowerChar(s[i])
    ensures forall i :: 0 <= i < |r| ==> !('A' <= r[i] <= 'Z')
  {
    seq(|s|, i requires 0 <= i < |s| => LowerChar(s[i]))
  }

  predicate IsDigit(c: char) {
    '0' <= c <= '9'
  }

  predicate AllDigits(s: string) {
    forall i :: 0 <= i < |s| ==> IsDigit(s[i])
  }

  /** `s.isnumeric()`: non-empty and made of digits only. */
  function IsNumeric(s: string): (b: bool)
    ensures b ==> |s| > 0 && IsDigit(s[0]) && s != "exit" && s != "back"
  {
    |s| > 0 && AllDigits(s)
  }

  /** `int(s)` for a string of decimal digits (leading zeros allowed). */
  function ParseNat(s: string): (n: nat)
    requires AllDigits(s)
    ensures |s| == 1 ==> n == s[0] as int - '0' as int
    ensures |s| > 0 && s[0] == '0' ==> n == ParseNat(s[1..])
  {
    if |s| == 0 then 0
    else
      assert |s| >= 2 ==> s[..|s| - 1][1..] == s[1..][..|s| - 2];
      ParseNat(s[..|s| - 1]) * 10 + (s[|s| - 1] as int - '0' as int)
  }

  /** `str(n)`: the decimal digits of `n`, without leading zeros. */
  function DecimalString(n: nat): (s: string)
    ensures IsNumeric(s)
    ensures n < 10 <==> |s| == 1
  {
    if n < 10 then [('0' as int + n) as char]
    else DecimalString(n / 10) + [('0' as int + n % 10) as char]
  }

  /** `int(str(n)) == n`. */
  lemma {:induction false} ParseDecimal(n: nat)
    ensures ParseNat(DecimalString(n)) == n
  {
    if n >= 10 {
      var s := DecimalString(n);
      var prefix := DecimalString(n / 10);
      assert s[..|s| - 1] == prefix;
      ParseDecimal(n / 10);
    }
  }
}
