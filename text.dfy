/** Text helpers: the decimal rendering that Python f-strings use for
    `{len(x)}` and `{n}`, and a reader that takes such a number back out of
    a sentence. */
module Text {

  predicate IsDigit(c: char) {
    '0' <= c <= '9'
  }

  predicate AllDigits(s: string) {
    forall i | 0 <= i < |s| :: IsDigit(s[i])
  }

  function Digit(d: nat): (c: char)
    requires d < 10
    ensures IsDigit(c) && c as int - '0' as int == d
  {
    (d + '0' as int) as char
  }

  function DigitValue(c: char): nat {
    if IsDigit(c) then c as int - '0' as int else 0
  }

  /** Decimal digits of `n`, most significant first, no leading zeros. */
  function NatToString(n: nat): (s: string)
    ensures 0 < |s| && AllDigits(s)
    ensures n < 10 <==> |s| == 1
    decreases n
  {
    if n < 10 then [Digit(n)] else NatToString(n / 10) + [Digit(n % 10)]
  }

  /** The value of a string of decimal digits, read left to right. */
  function ParseNat(s: string): nat {
    if |s| == 0 then 0 else ParseNat(s[..|s| - 1]) * 10 + DigitValue(s[|s| - 1])
  }

  lemma {:induction false} ParseNatToString(n: nat)
    ensures ParseNat(NatToString(n)) == n
  {
    if n >= 10 {
      var s := NatToString(n);
      assert s[..|s| - 1] == NatToString(n / 10);
      ParseNatToString(n / 10);
    }
  }

  /** The longest run of digits that ends `s`. */
  function TrailingDigits(s: string): (d: string)
    ensures |d| <= |s| && d == s[|s| - |d|..] && AllDigits(d)
    ensures |d| < |s| ==> !IsDigit(s[|s| - |d| - 1])
  {
    if |s| == 0 || !IsDigit(s[|s| - 1]) then []
    else TrailingDigits(s[..|s| - 1]) + [s[|s| - 1]]
  }

  lemma {:induction false} TrailingDigitsAfter(x: string, d: string)
    requires 0 < |x| && !IsDigit(x[|x| - 1]) && AllDigits(d)
    ensures TrailingDigits(x + d) == d
  {
    if |d| > 0 {
      var s := x + d;
      assert s[..|s| - 1] == x + d[..|d| - 1];
      TrailingDigitsAfter(x, d[..|d| - 1]);
      assert d == d[..|d| - 1] + [d[|d| - 1]];
    } else {
      assert x + d == x;
    }
  }

  /** The number written just before `suffix` at the end of `text`: how a
      reader of a sentence such as "... contains 7 records." finds the 7. */
  function ReadNumberBefore(text: string, suffix: string): nat {
    if |suffix| <= |text| then ParseNat(TrailingDigits(text[..|text| - |suffix|])) else 0
  }

  lemma ReadNumberBack(prefix: string, n: nat, suffix: string)
    requires 0 < |prefix| && !IsDigit(prefix[|prefix| - 1])
    ensures ReadNumberBefore(prefix + NatToString(n) + suffix, suffix) == n
  {
    var text := prefix + NatToString(n) + suffix;
    assert text[..|text| - |suffix|] == prefix + NatToString(n);
    TrailingDigitsAfter(prefix, NatToString(n));
    ParseNatToString(n);
  }
}
