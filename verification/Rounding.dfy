/** Python's `round`: to the nearest integer, ties to the even one. */
module Rounding {

  function HalfEven(x: real): int {
    var below := x.Floor;
    var rest := x - below as real;
    if rest < 0.5 || (rest == 0.5 && below % 2 == 0) then below else below + 1
  }

  /** The nearest integer, and the even one of two equally near: no other integer will do. */
  lemma NearestTiesToEven(x: real, n: int)
    ensures n == HalfEven(x) <==>
              -0.5 <= x - n as real <= 0.5 && ((x - n as real == 0.5 || x - n as real == -0.5) ==> n % 2 == 0)
  {
    var below := x.Floor;
    assert below as real <= x < below as real + 1.0;
    if -0.5 <= x - n as real <= 0.5 {
      assert n == below || n == below + 1;
    }
  }

  lemma Monotone(x: real, y: real)
    requires x <= y
    ensures HalfEven(x) <= HalfEven(y)
  {
    NearestTiesToEven(x, HalfEven(x));
    NearestTiesToEven(y, HalfEven(y));
  }

  lemma OfInteger(n: int)
    ensures HalfEven(n as real) == n
  {
    NearestTiesToEven(n as real, n);
  }
}
