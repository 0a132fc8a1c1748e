/** Rounding to a number of decimals, ties to even, as the program's `round` does (on exact reals). */
module Rounding {
  function HalfEven(x: real): int {
    var below := x.Floor;
    var rest := x - below as real;
    if rest < 0.5 then below
    else if 0.5 < rest then below + 1
    else if below % 2 == 0 then below else below + 1
  }

  function Round4(x: real): real { HalfEven(x * 10000.0) as real / 10000.0 }

  function Round6(x: real): real { HalfEven(x * 1000000.0) as real / 1000000.0 }

  /** `HalfEven(x)` is the integer nearest to x, and of two nearest ones the even one. */
  lemma HalfEvenIsNearest(x: real, n: int)
    ensures HalfEven(x) == n <==>
            || -0.5 < x - n as real < 0.5
            || ((x - n as real == 0.5 || x - n as real == -0.5) && n % 2 == 0)
  {
    var below := x.Floor;
    assert below as real <= x < below as real + 1.0;
    if HalfEven(x) != n {
      assert n <= below - 1 || n == below || n == below + 1 || below + 2 <= n;
    }
  }

  lemma HalfEvenMonotone(x: real, y: real)
    requires x <= y
    ensures HalfEven(x) <= HalfEven(y)
  {
    HalfEvenIsNearest(x, HalfEven(x));
    HalfEvenIsNearest(y, HalfEven(y));
  }

  lemma HalfEvenOdd(x: real)
    ensures HalfEven(-x) == -HalfEven(x)
  {
    HalfEvenIsNearest(x, HalfEven(x));
    HalfEvenIsNearest(-x, -HalfEven(x));
  }

  lemma Round4Monotone(x: real, y: real)
    requires x <= y
    ensures Round4(x) <= Round4(y)
  {
    HalfEvenMonotone(x * 10000.0, y * 10000.0);
  }

  predicate FourPlaces(x: real) {
    (x * 10000.0).Floor as real == x * 10000.0
  }

  lemma Round4Places(x: real)
    ensures FourPlaces(Round4(x))
  {
    var n := HalfEven(x * 10000.0);
    assert Round4(x) * 10000.0 == n as real;
    assert (n as real).Floor == n;
  }

  /** Rounding to four places moves a value by at most half a unit of the fourth place. */
  lemma Round4Close(x: real)
    ensures -0.00005 <= Round4(x) - x <= 0.00005
    ensures Round4(0.0) == 0.0 && Round4(1.0) == 1.0
  {
    HalfEvenIsNearest(x * 10000.0, HalfEven(x * 10000.0));
  }

  /** Rounding to six places moves a value by at most half a unit of the sixth place. */
  lemma Round6Close(x: real)
    ensures -0.0000005 <= Round6(x) - x <= 0.0000005
  {
    HalfEvenIsNearest(x * 1000000.0, HalfEven(x * 1000000.0));
  }

  lemma Round6Odd(x: real)
    ensures Round6(-x) == -Round6(x)
  {
    HalfEvenOdd(x * 1000000.0);
    assert -x * 1000000.0 == -(x * 1000000.0);
  }
}
