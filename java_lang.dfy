/** The small part of Java's semantics the model depends on: 32-bit `int`
    arithmetic, `null` references and `Integer.toString`. */
module JavaLang {

  const INT_MIN: int := -0x8000_0000
  const INT_MAX: int := 0x7fff_ffff

  /** Java's `int`: a two's-complement 32-bit integer. */
  type int32 = x: int | -0x8000_0000 <= x < 0x8000_0000

  /** A Java reference that may be `null`. */
  datatype Option<+T> = None | Some(value: T) {
    /** `value`, or `default` when the reference is `null`. */
    function GetOr(default: T): T {
      match this
      case Some(v) => v
      case None => default
    }
  }

  /** The result of a Java `int` operation whose exact value is `x`: it
      wraps around modulo 2^32. */
  function Wrap(x: int): (r: int32)
    ensures INT_MIN <= x <= INT_MAX ==> r == x
    ensures (x - r) % 0x1_0000_0000 == 0
  {
    var m := (x + 0x8000_0000) % 0x1_0000_0000;
    assert x - (m - 0x8000_0000) == 0x1_0000_0000 * ((x + 0x8000_0000) / 0x1_0000_0000);
    m - 0x8000_0000
  }

  /** Java's `/` on `int` for a positive divisor: it truncates toward zero. */
  function Div(n: int32, d: int32): (q: int32)
    requires d > 0
    ensures 0 <= n ==> 0 <= q * d <= n < q * d + d
    ensures n < 0 ==> q * d - d < n <= q * d <= 0
  {
    var m: int := n;
    if m >= 0 then
      DivBound(m, d);
      m / d
    else
      DivBound(-m, d);
      -((-m) / d)
  }

  /** The floor quotient of a natural number never exceeds it. */
  lemma DivBound(n: nat, d: int)
    requires d > 0
    ensures 0 <= n / d <= n
    ensures 0 <= (n / d) * d <= n < (n / d) * d + d
  {
    var q, r := n / d, n % d;
    assert n == q * d + r && 0 <= r < d;
    MulMono(q, 1, d);
  }

  lemma MulMono(a: nat, b: int, c: int)
    requires 0 < b <= c
    ensures a * b <= a * c
  {}

  function Digit(k: nat): (c: char)
    requires k < 10
    ensures '0' <= c <= '9' && c as int - '0' as int == k
  {
    ('0' as int + k) as char
  }

  predicate IsDigits(s: string) {
    forall i :: 0 <= i < |s| ==> '0' <= s[i] <= '9'
  }

  /** The decimal digits of `n`, most significant first, without leading zeros. */
  function Digits(n: nat): (s: string)
    ensures 0 < |s| && IsDigits(s)
    ensures |s| > 1 ==> s[0] != '0'
    decreases n
  {
    if n < 10 then [Digit(n)] else Digits(n / 10) + [Digit(n % 10)]
  }

  /** `Integer.toString(n)`: an optional minus sign followed by the digits. */
  function ToString(n: int): (s: string)
    ensures 0 < |s|
    ensures n < 0 <==> s[0] == '-'
  {
    if n < 0 then "-" + Digits(-n) else Digits(n)
  }

  /** The number a string of decimal digits denotes. */
  function DigitsValue(s: string): nat
    requires IsDigits(s)
  {
    if s == [] then 0 else DigitsValue(s[..|s| - 1]) * 10 + (s[|s| - 1] as int - '0' as int)
  }

  /** The decimal reader that partners `ToString`: an optional minus sign
      followed by at least one digit, read as an unbounded integer. */
  function ParseInt(s: string): Option<int> {
    if 0 < |s| && s[0] == '-' then
      if 1 < |s| && IsDigits(s[1..]) then Some(0 - DigitsValue(s[1..]) as int) else None
    else if 0 < |s| && IsDigits(s) then Some(DigitsValue(s))
    else None
  }

  lemma {:induction false} DigitsValueOfDigits(n: nat)
    ensures DigitsValue(Digits(n)) == n
    decreases n
  {
    var s := Digits(n);
    if n >= 10 {
      DigitsValueOfDigits(n / 10);
      assert s[..|s| - 1] == Digits(n / 10);
    }
  }

  /** `Integer.toString` loses nothing: parsing its output gives the number back. */
  lemma {:induction false} ParseToString(n: int)
    ensures ParseInt(ToString(n)) == Some(n)
  {
    if n < 0 {
      DigitsValueOfDigits(-n);
      assert ToString(n)[1..] == Digits(-n);
    } else {
      DigitsValueOfDigits(n);
    }
  }
}
