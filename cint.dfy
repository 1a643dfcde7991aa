/**
 * C++ integer division and remainder. C++ truncates the quotient toward zero
 * and gives the remainder the sign of the dividend, while Dafny's `/` and `%`
 * are Euclidean; the allocators divide by `maxMigrationsRatio` and the
 * generator reduces `rand()` with `%`, so both are written out here.
 */
module CInt {

  function Abs(x: int): (r: nat)
    ensures r == x || r == -x
  {
    if x < 0 then -x else x
  }

  /** `a / b` as C++ computes it: |a| / |b|, negated when the signs differ (rounding toward zero). */
  function CDiv(a: int, b: int): (q: int)
    requires b != 0
    ensures (a >= 0) == (b > 0) ==> q == Abs(a) / Abs(b)
    ensures (a >= 0) != (b > 0) ==> q == -(Abs(a) / Abs(b))
  {
    if (a >= 0) == (b > 0) then Abs(a) / Abs(b) else -(Abs(a) / Abs(b))
  }

  /** `a % b` as C++ computes it: the remainder keeps the sign of the dividend. */
  function CMod(a: int, b: int): (r: int)
    requires b != 0
    ensures a >= 0 ==> 0 <= r < Abs(b)
    ensures a < 0 ==> -(Abs(b) as int) < r <= 0
  {
    var m: int := Abs(b);
    if a >= 0 then a % m else -((-a) % m)
  }

  /** The identity C++ guarantees between the two: (a / b) * b + a % b == a. */
  lemma {:induction false} DivModIdentity(a: int, b: int)
    requires b != 0
    ensures CDiv(a, b) * b + CMod(a, b) == a
  {
    var n: int, m: int := Abs(a), Abs(b);
    var d := n / m;
    assert n == d * m + n % m;
    if a >= 0 && b > 0 {
    } else if a >= 0 {
      assert CDiv(a, b) * b == d * m;
    } else if b > 0 {
      assert CDiv(a, b) * b == -(d * m);
    } else {
      assert CDiv(a, b) * b == -(d * m);
    }
  }

  /** On non-negative operands C++ and Dafny agree. */
  lemma NonNegativeAgree(a: int, b: int)
    requires a >= 0 && b > 0
    ensures CDiv(a, b) == a / b && CMod(a, b) == a % b
  {
  }
}
