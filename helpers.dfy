/** The comparison helpers the true range is built from. */
module Helpers {
  /** The larger of two values. The source returns `refer` only when it is strictly
      greater, so on a tie the second argument is returned; over the reals the two
      are then equal. */
  function Max(refer: real, other: real): (r: real)
    ensures r >= refer && r >= other
    ensures r == refer || r == other
  {
    if refer > other then refer else other
  }

  /** The largest of three values, folded left to right. */
  function Max3(a: real, b: real, c: real): (r: real)
    ensures r >= a && r >= b && r >= c
    ensures r == a || r == b || r == c
  {
    Max(Max(a, b), c)
  }

  /** The position of the largest argument does not matter. */
  lemma Max3Examples()
    ensures Max3(3.0, 2.0, 1.0) == 3.0
    ensures Max3(2.0, 3.0, 1.0) == 3.0
    ensures Max3(2.0, 1.0, 3.0) == 3.0
  {
  }

  function Abs(x: real): (r: real)
    ensures r >= 0.0
    ensures r == x || r == -x
  {
    if x < 0.0 then -x else x
  }
}
