/** The few pieces of Java's arithmetic and string conversion that the
    launcher's decisions depend on: truncating `/` and `%`, the `int` and
    `long` ranges, and `Long.toString` with a decimal parser as its partner. */
module JavaLang {

  /** Values of a Java `int`. */
  type Int32 = x: int | -0x8000_0000 <= x < 0x8000_0000

  /** Values of a Java `long`. */
  type Int64 = x: int | -0x8000_0000_0000_0000 <= x < 0x8000_0000_0000_0000

  /** Java's `a / b`: the quotient is truncated toward zero. */
  function JavaDiv(a: int, b: int): (q: int)
    requires b > 0
    ensures a >= 0 ==> q == a / b
    ensures a < 0 ==> q * b - b < a <= q * b
  {
    if a >= 0 then a / b else -((-a) / b)
  }

  /** Java's `a % b`: the remainder takes the sign of `a`. */
  function JavaRem(a: int, b: int): (r: int)
    requires b > 0
    ensures a >= 0 ==> r == a % b
    ensures a < 0 ==> -b < r <= 0
    ensures JavaDiv(a, b) * b + r == a
  {
    if a >= 0 then a % b else -((-a) % b)
  }

  /** Java's `a % 8` and Dafny's Euclidean `%` agree on divisibility by 8. */
  lemma RemZeroIffDivisibleBy8(a: int)
    ensures JavaRem(a, 8) == 0 <==> a % 8 == 0
  {
    if a < 0 {
      var n := -a;
      var q, r := n / 8, n % 8;
      assert n == 8 * q + r && 0 <= r < 8;
      if r == 0 {
        assert a == 8 * (-q);
      } else {
        assert a == 8 * (-q - 1) + (8 - r);
        assert a % 8 == 8 - r;
      }
    }
  }

  predicate IsDigit(c: char) {
    '0' <= c <= '9'
  }

  predicate AllDigits(s: string) {
    forall i :: 0 <= i < |s| ==> IsDigit(s[i])
  }

  function DigitChar(d: nat): (c: char)
    requires d < 10
    ensures IsDigit(c)
  {
    ['0', '1', '2', '3', '4', '5', '6', '7', '8', '9'][d]
  }

  function DigitValue(c: char): (d: nat)
    requires IsDigit(c)
    ensures d < 10
    ensures DigitChar(d) == c
  {
    (c as int - '0' as int) as nat
  }

  /** The decimal digits of `n`, most significant first, without leading zeros. */
  function Digits(n: nat): (s: string)
    ensures |s| >= 1 && AllDigits(s)
    ensures |s| > 1 ==> s[0] != '0'
    decreases n
  {
    if n < 10 then [DigitChar(n)] else Digits(n / 10) + [DigitChar(n % 10)]
  }

  /** Java's `Long.toString(n)` (and the decimal form string concatenation uses). */
  function LongToString(n: int): string {
    if n < 0 then "-" + Digits(-n) else Digits(n)
  }

  /** The value of a string of decimal digits: the reference reading of `Digits`. */
  function ParseDigits(s: string): nat
    requires AllDigits(s)
  {
    if |s| == 0 then 0 else ParseDigits(s[..|s| - 1]) * 10 + DigitValue(s[|s| - 1])
  }

  /** The value of an optionally signed decimal string. */
  function ParseLong(s: string): int
    requires |s| >= 1
    requires s[0] == '-' ==> AllDigits(s[1..])
    requires s[0] != '-' ==> AllDigits(s)
  {
    if s[0] == '-' then -(ParseDigits(s[1..]) as int) else ParseDigits(s)
  }

  /** Reading the digits of `n` back gives `n`. */
  lemma {:induction false} DigitsRoundTrip(n: nat)
    ensures ParseDigits(Digits(n)) == n
    decreases n
  {
    if n >= 10 {
      var s := Digits(n);
      DigitsRoundTrip(n / 10);
      assert s[..|s| - 1] == Digits(n / 10);
      assert s[|s| - 1] == DigitChar(n % 10);
    }
  }

  /** `Long.toString` is inverted by decimal parsing, so it is injective. */
  lemma LongToStringRoundTrip(n: int)
    ensures var s := LongToString(n);
      |s| >= 1 &&
      (s[0] == '-' ==> AllDigits(s[1..])) &&
      (s[0] != '-' ==> AllDigits(s)) &&
      ParseLong(s) == n
  {
    var s := LongToString(n);
    if n < 0 {
      var d := Digits(-n);
      assert s == "-" + d;
      assert s[0] == '-' && s[1..] == d;
      DigitsRoundTrip(-n);
      assert ParseLong(s) == -(ParseDigits(d) as int);
    } else {
      var d := Digits(n);
      assert s == d;
      assert IsDigit(d[0]);
      DigitsRoundTrip(n);
      assert ParseLong(s) == ParseDigits(d);
    }
  }

  lemma LongToStringInjective(a: int, b: int)
    ensures LongToString(a) == LongToString(b) <==> a == b
  {
    if LongToString(a) == LongToString(b) {
      LongToStringRoundTrip(a);
      LongToStringRoundTrip(b);
    }
  }
}
