/** The integer square root of `Hash.sol` (`_sqrt`): Newton's iteration downwards from (x + 1) / 2. */
module SquareRoot {
  import opened Words

  ghost predicate IsFloorRoot(x: nat, r: nat) {
    r * r <= x < (r + 1) * (r + 1)
  }

  lemma FloorRootUnique(x: nat, r: nat, q: nat)
    requires IsFloorRoot(x, r) && IsFloorRoot(x, q)
    ensures r == q
  {
    if r < q {
      SquareMonotone(r + 1, q);
    } else if q < r {
      SquareMonotone(q + 1, r);
    }
  }

  /** The floor square root of x; it exists for every x. */
  function FloorRoot(x: nat): (r: nat)
    ensures IsFloorRoot(x, r)
  {
    if x == 0 then 0
    else
      var r := FloorRoot(x - 1);
      if (r + 1) * (r + 1) <= x then r + 1 else r
  }

  function Newton(x: nat, y: nat): nat
    requires y > 0
  {
    (x / y + y) / 2
  }

  /** A Newton step from any y never falls below the root. */
  lemma NewtonAboveRoot(x: nat, y: nat)
    requires y > 0
    ensures x < (Newton(x, y) + 1) * (Newton(x, y) + 1)
  {
    var q, z := x / y, Newton(x, y);
    QuotientBound(x, y, q);
    assert 2 * (z + 1) >= q + 1 + y;
    MeanInequality(q + 1, y, z + 1);
  }

  lemma QuotientBound(x: nat, y: nat, q: nat)
    requires y > 0 && q == x / y
    ensures q * y <= x < (q + 1) * y
  {
    assert x == y * q + x % y;
  }

  lemma MeanInequality(a: nat, b: nat, m: nat)
    requires 2 * m >= a + b
    ensures m * m >= a * b
  {
    var s := a + b;
    SquareMonotone(s, 2 * m);
    assert s * s - 4 * (a * b) == (a - b) * (a - b);
    SquareNonNegative(a - b);
    assert (2 * m) * (2 * m) == 4 * (m * m);
  }

  lemma SquareMonotone(a: nat, b: nat)
    requires a <= b
    ensures a * a <= b * b
  {
  }

  lemma SquareNonNegative(a: int)
    ensures a * a >= 0
  {
  }

  /** Once the step does not decrease y, y is at most the root. */
  lemma NewtonFixed(x: nat, y: nat)
    requires y > 0 && Newton(x, y) >= y
    ensures y * y <= x
  {
    var q := x / y;
    QuotientBound(x, y, q);
    assert q >= y;
    assert y * y <= q * y;
  }

  /** _sqrt; `overflow` is the revert of the checked addition x + 1, which only 2^256 - 1 causes. */
  method Sqrt(x: nat) returns (overflow: bool, root: nat)
    requires x < TWO256
    ensures overflow <==> x == TWO256 - 1
    ensures !overflow ==> root == FloorRoot(x)
  {
    overflow := false;
    if x == 0 { return false, 0; }
    if x + 1 >= TWO256 { return true, 0; }
    var z := (x + 1) / 2;
    var y := x;
    NewtonAboveRoot(x, x);
    assert x < (x + 1) * (x + 1);
    while z < y
      invariant 0 < y <= x && z == Newton(x, y)
      invariant x < (y + 1) * (y + 1)
      decreases y
    {
      NewtonAboveRoot(x, y);
      PositiveStep(x, y);
      y := z;
      NoOverflow(x, z);
      assert x / z + z < TWO256;
      z := (x / z + z) / 2;
    }
    NewtonFixed(x, y);
    FloorRootUnique(x, y, FloorRoot(x));
    root := y;
  }

  lemma PositiveStep(x: nat, y: nat)
    requires 0 < y <= x
    ensures Newton(x, y) > 0
  {
    QuotientBound(x, y, x / y);
  }

  lemma {:induction false} SumBelowProduct(a: nat, b: nat)
    requires a > 0 && b > 0
    ensures a + b <= a * b + 1
  {
    if a > 1 {
      SumBelowProduct(a - 1, b);
      assert a * b == (a - 1) * b + b;
    }
  }

  lemma NoOverflow(x: nat, z: nat)
    requires 0 < z <= x
    ensures x / z + z <= x + 1
  {
    QuotientBound(x, z, x / z);
    SumBelowProduct(x / z, z);
  }
}
