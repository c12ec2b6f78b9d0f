/**
 * The slice of JavaScript's runtime semantics that the cycle tracker relies on:
 * numbers that are integers or NaN, the truncating remainder operator `%`,
 * `String(n)`, `String.prototype.padStart` and the ASCII part of `toUpperCase`.
 */
module Js {

  datatype Option<+T> = None | Some(value: T)

  /** A JavaScript number restricted to the values this program produces: an integer or NaN. */
  datatype Num = Int(n: int) | NaN

  function Abs(x: int): nat { if x < 0 then -x else x }

  /**
   * JavaScript's `a % b` for integers and a non-zero divisor: the remainder of
   * the division truncated toward zero, so it takes the sign of the dividend
   * (Dafny's own `%` is Euclidean and never negative).
   */
  function TruncRem(a: int, b: int): (r: int)
    requires b != 0
    ensures a >= 0 ==> 0 <= r < Abs(b)
    ensures a < 0 ==> 0 <= -r < Abs(b)
  {
    var m: int := NatRem(Abs(a), Abs(b));
    if a >= 0 then m else -m
  }

  /** The remainder of a natural number by a positive one, counted down by repeated subtraction. */
  function NatRem(a: nat, b: nat): (r: nat)
    requires b > 0
    ensures r < b
    decreases a
  {
    if a < b then a else NatRem(a - b, b)
  }

  /** How many times a positive `b` fits into a natural number, counted down like `NatRem`. */
  function NatQuot(a: nat, b: nat): nat
    requires b > 0
    decreases a
  {
    if a < b then 0 else 1 + NatQuot(a - b, b)
  }

  /** Counting down divides: `a == NatQuot(a, b) * b + NatRem(a, b)`. */
  lemma {:induction false} NatDivision(a: nat, b: nat)
    requires b > 0
    ensures a == NatQuot(a, b) * b + NatRem(a, b)
  {
    if a >= b {
      NatDivision(a - b, b);
      assert (1 + NatQuot(a - b, b)) * b == b + NatQuot(a - b, b) * b;
    }
  }

  /** The quotient of `a / b` truncated toward zero, `Math.trunc(a / b)`. */
  function TruncQuot(a: int, b: int): int
    requires b != 0
  {
    var q: int := NatQuot(Abs(a), Abs(b));
    if (a >= 0) == (b > 0) then q else -q
  }

  /** `TruncRem` is the remainder of the truncated division: `a == trunc(a / b) * b + a % b`. */
  lemma TruncDivision(a: int, b: int)
    requires b != 0
    ensures a == TruncQuot(a, b) * b + TruncRem(a, b)
  {
    NatDivision(Abs(a), Abs(b));
    var q, m := NatQuot(Abs(a), Abs(b)), NatRem(Abs(a), Abs(b));
    assert Abs(a) == q * Abs(b) + m;
    if b > 0 {
      assert Abs(b) == b;
    } else {
      assert Abs(b) == -b;
      assert q * Abs(b) == (-q) * b;
    }
  }

  /** `a % b` on numbers: NaN when either side is NaN or the divisor is zero. */
  function Rem(a: Num, b: Num): (r: Num)
    ensures r.Int? <==> a.Int? && b.Int? && b.n != 0
  {
    if a.Int? && b.Int? && b.n != 0 then Int(TruncRem(a.n, b.n)) else NaN
  }

  /** `a + k` for an integer literal `k`: NaN stays NaN. */
  function AddInt(a: Num, k: int): (r: Num)
    ensures r.Int? <==> a.Int?
    ensures a.Int? ==> r.n == a.n + k
  {
    match a
    case Int(n) => Int(n + k)
    case NaN => NaN
  }

  predicate IsDigit(c: char) { '0' <= c <= '9' }

  predicate AllDigits(s: string) { forall i | 0 <= i < |s| :: IsDigit(s[i]) }

  function DigitChar(d: int): (c: char)
    requires 0 <= d < 10
    ensures IsDigit(c) && c as int - '0' as int == d
  {
    ('0' as int + d) as char
  }

  function DigitValue(c: char): (d: nat)
    requires IsDigit(c)
    ensures d < 10
  {
    c as int - '0' as int
  }

  /** The decimal numeral of a natural number, without leading zeros. */
  function NatDigits(n: nat): (s: string)
    ensures |s| >= 1 && AllDigits(s)
    ensures s[0] == '0' <==> n == 0
    ensures n < 10 <==> |s| == 1
  {
    if n < 10 then [DigitChar(n)] else NatDigits(n / 10) + [DigitChar(n % 10)]
  }

  /** The value of a string of decimal digits; the reading direction of `NatDigits`. */
  function ParseDigits(s: string): nat
    requires AllDigits(s)
  {
    if s == [] then 0 else ParseDigits(s[..|s| - 1]) * 10 + DigitValue(s[|s| - 1])
  }

  lemma {:induction false} ParseNatDigits(n: nat)
    ensures ParseDigits(NatDigits(n)) == n
  {
    if n >= 10 {
      var s := NatDigits(n);
      assert s[..|s| - 1] == NatDigits(n / 10);
      ParseNatDigits(n / 10);
    }
  }

  /** `String(i)` for an integer. */
  function IntToString(i: int): (s: string)
    ensures |s| >= 1
    ensures i >= 0 ==> s == NatDigits(i)
    ensures i < 0 ==> s[0] == '-' && s[1..] == NatDigits(-i)
  {
    if i < 0 then "-" + NatDigits(-i) else NatDigits(i)
  }

  /** `String(x)` for a number. */
  function NumToString(x: Num): string
  {
    match x
    case Int(i) => IntToString(i)
    case NaN => "NaN"
  }

  /**
   * `String(x)` is `"NaN"` only for NaN, and otherwise a numeral, with a minus
   * sign exactly for negatives, that reads back to the number.
   */
  lemma NumToStringReadsBack(x: Num)
    ensures x.NaN? <==> NumToString(x) == "NaN"
    ensures x.Int? && x.n >= 0 ==> AllDigits(NumToString(x)) && ParseDigits(NumToString(x)) == x.n
    ensures x.Int? && x.n < 0 ==>
      var s := NumToString(x);
      |s| >= 2 && s[0] == '-' && AllDigits(s[1..]) && ParseDigits(s[1..]) == -x.n
  {
    if x.Int? {
      ParseNatDigits(if x.n < 0 then -x.n else x.n);
      assert NumToString(x)[0] != 'N';
    }
  }

  /** `s.padStart(len, [fill])`: prepends `fill` until `s` is at least `len` long. */
  function PadStart(s: string, len: int, fill: char): string
    decreases len - |s|
  {
    if |s| >= len then s else PadStart([fill] + s, len, fill)
  }

  /** Padding reaches `len` characters (or keeps a longer `s`), ends in `s` and is `fill` before it. */
  lemma {:induction false} PadStartShape(s: string, len: int, fill: char)
    decreases len - |s|
    ensures var r := PadStart(s, len, fill);
      && |r| == (if |s| >= len then |s| else len)
      && r[|r| - |s|..] == s
      && forall i | 0 <= i < |r| - |s| :: r[i] == fill
  {
    if |s| < len {
      PadStartShape([fill] + s, len, fill);
      var r := PadStart(s, len, fill);
      assert r[|r| - |s| - 1..] == [fill] + s;
      assert r[|r| - |s|..] == ([fill] + s)[1..];
    }
  }

  function UpperChar(c: char): char
  {
    if 'a' <= c <= 'z' then (c as int - 'a' as int + 'A' as int) as char else c
  }

  /** `s.toUpperCase()` for ASCII text. */
  function ToUpperAscii(s: string): (r: string)
    ensures |r| == |s|
    ensures forall i | 0 <= i < |s| :: r[i] == UpperChar(s[i])
  {
    seq(|s|, i requires 0 <= i < |s| => UpperChar(s[i]))
  }
}
