/** Java's 32-bit `int`, as far as the shared counter of ExamRepository needs it:
    the post-increment `seq++` wraps from MAX to MIN, and `%` truncates toward zero. */
module JavaInt {

  const MIN: int := -0x8000_0000
  const MAX: int := 0x7fff_ffff

  type Int32 = x: int | MIN <= x <= MAX

  /** The number of distinct 32-bit values. */
  const Modulus: int := 0x1_0000_0000

  /** `x++` on a Java `int`: two's-complement addition of one, the value in range that
      is congruent to `x + 1` modulo 2^32. */
  function Inc(x: Int32): (r: Int32)
    ensures (r - (x + 1)) % Modulus == 0
  {
    if x == MAX then MIN else x + 1
  }

  /** `Inc` is the only increment that two's-complement arithmetic allows: any `int`
      congruent to `x + 1` modulo 2^32 is `Inc(x)`. */
  lemma IncIsTwosComplement(x: Int32, y: Int32)
    ensures (y - (x + 1)) % Modulus == 0 <==> y == Inc(x)
  {
  }

  /** Java's remainder: the sign of the result follows the dividend. */
  function Rem(a: int, b: int): (r: int)
    requires b > 0
    ensures a >= 0 ==> 0 <= r < b
    ensures a < 0 ==> -b < r <= 0
    ensures (a - r) % b == 0
  {
    TruncatedRem(a, b);
    if a >= 0 then a % b else -((-a) % b)
  }

  /** Java's `a % 5 == 0` is exactly divisibility by 5, whatever the sign of `a`. */
  lemma RemFiveZeroIsDivisibility(a: int)
    ensures Rem(a, 5) == 0 <==> a % 5 == 0
  {
    if a < 0 {
      var q := (-a) / 5;
      assert -a == 5 * q + (-a) % 5;
    }
  }

  /** What truncating division leaves off `a` is a multiple of `b`, on either side of 0. */
  lemma {:induction false} TruncatedRem(a: int, b: int)
    requires b > 0
    ensures a >= 0 ==> (a - a % b) % b == 0
    ensures a < 0 ==> (a + (-a) % b) % b == 0
  {
    if a >= 0 {
      ModUnique(a - a % b, b, a / b, 0);
    } else {
      var n := -a;
      assert n == b * (n / b) + n % b;
      assert a + n % b == b * (-(n / b));
      ModUnique(a + n % b, b, -(n / b), 0);
    }
  }

  /** Euclidean division is unique: a quotient and remainder in `[0, b)` that rebuild
      `x` are the ones `/` and `%` give. */
  lemma {:induction false} ModUnique(x: int, b: int, q: int, r: int)
    requires b > 0 && 0 <= r < b && x == b * q + r
    ensures x % b == r
  {
    var q', r' := x / b, x % b;
    assert x == b * q' + r';
    assert b * (q - q') == r' - r;
    SmallMultiple(b, q - q');
  }

  lemma SmallMultiple(b: int, k: int)
    requires b > 0
    ensures -b < b * k < b ==> k == 0
  {
  }
}
