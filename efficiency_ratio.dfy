/** Kaufman's efficiency ratio: the net price change over a window divided by the total
    path the price travelled within it. */
module EfficiencyRatio {
  import opened Wrappers
  import opened Helpers
  import opened Windows
  import opened DataItems

  /** The total path of the prices: the sum of the distances between neighbours. */
  function Volatility(p: seq<real>): (v: real)
    ensures v >= 0.0
  {
    if |p| <= 1 then 0.0 else Abs(p[0] - p[1]) + Volatility(p[1..])
  }

  /** The net move of the prices: the distance from the first to the last. */
  function Direction(p: seq<real>): (d: real)
    requires |p| > 0
    ensures d >= 0.0
  {
    Abs(p[0] - p[|p| - 1])
  }

  /** The ratio over the buffered prices p: 1 while at most two are held, otherwise the
      net move over the path, and None for a flat window, where the division fails. */
  function Er(p: seq<real>): (r: Option<real>)
    ensures r.Some? ==> 0.0 <= r.value <= 1.0
    ensures r.None? <==> |p| > 2 && Volatility(p) == 0.0
  {
    if |p| <= 2 then Some(1.0)
    else if Volatility(p) == 0.0 then None
    else
      DirectionBound(p);
      RatioBound(Direction(p), Volatility(p));
      Some(Direction(p) / Volatility(p))
  }

  /** The net move never exceeds the path: the triangle inequality along the prices. */
  lemma {:induction false} DirectionBound(p: seq<real>)
    requires |p| > 0
    ensures Direction(p) <= Volatility(p)
  {
    if |p| > 1 {
      DirectionBound(p[1..]);
      assert p[1..][0] == p[1] && p[1..][|p| - 2] == p[|p| - 1];
    }
  }

  lemma RatioBound(d: real, v: real)
    requires 0.0 <= d <= v && v > 0.0
    ensures 0.0 <= d / v <= 1.0
  {
    assert d / v * v == d;
  }

  /** The path is zero exactly when every price equals the first. */
  lemma {:induction false} VolatilityZero(p: seq<real>)
    requires |p| > 0
    ensures Volatility(p) == 0.0 <==> forall i :: 0 <= i < |p| ==> p[i] == p[0]
  {
    if |p| > 1 {
      var t := p[1..];
      VolatilityZero(t);
      assert forall i :: 0 <= i < |t| ==> t[i] == p[i + 1];
    }
  }

  /** How many prices stay buffered between calls: the length, but never fewer than two. */
  function Kept(length: nat): (k: nat)
    ensures k >= 2 && k >= length
  {
    if length < 2 then 2 else length
  }

  class EfficiencyRatio {
    const length: nat
    /** The recent prices, oldest first. */
    var prices: seq<real>
    /** The inputs since construction or the last reset. */
    ghost var history: seq<real>

    ghost predicate Valid()
      reads this
    {
      length > 0 && prices == Window(history, Kept(length))
    }

    constructor Init(length: nat)
      requires length > 0
      ensures Valid() && history == [] && prices == [] && this.length == length
    {
      this.length := length;
      prices := [];
      history := [];
    }

    /** A length of zero is rejected. */
    static method New(length: nat) returns (r: Result<EfficiencyRatio>)
      ensures r.Err? <==> length == 0
      ensures r.Err? ==> r.error == InvalidParameter
      ensures r.Ok? ==> fresh(r.value) && r.value.Valid() && r.value.history == [] && r.value.length == length
    {
      if length == 0 {
        return Err(InvalidParameter);
      }
      var e := new EfficiencyRatio.Init(length);
      return Ok(e);
    }

    static method Default() returns (e: EfficiencyRatio)
      ensures fresh(e) && e.Valid() && e.history == [] && e.length == 14
    {
      e := new EfficiencyRatio.Init(14);
    }

    /** Queues the input and returns the ratio over the queue; only then is the oldest
        price dropped, when more than length are held. */
    method Next(input: real) returns (r: Option<real>)
      requires Valid()
      modifies this
      ensures Valid() && history == old(history) + [input]
      ensures |prices| <= Kept(length)
      ensures r == Er(Window(history, Kept(length) + 1))
    {
      ghost var h := history;
      WindowGrow(h, input, Kept(length));
      WindowPush(h, input, Kept(length));
      prices := prices + [input];
      history := h + [input];
      if |prices| <= 2 {
        return Some(1.0);
      }
      var volatility := Volatility(prices);
      var direction := Direction(prices);
      r := if volatility == 0.0 then None else Some(direction / volatility);
      if |prices| > length {
        prices := prices[1..];
      }
    }

    /** A bar's contribution is its close. */
    method NextBar(bar: DataItem) returns (r: Option<real>)
      requires Valid()
      modifies this
      ensures Valid() && history == old(history) + [bar.close]
      ensures r == Er(Window(history, Kept(length) + 1))
    {
      r := Next(bar.close);
    }

    method Reset()
      requires Valid()
      modifies this
      ensures Valid() && history == [] && prices == []
    {
      prices := [];
      history := [];
    }
  }

  /** The test sequence for a length of 3 (windows of at most four prices). */
  lemma ErTestExample()
    ensures Er([3.0]) == Some(1.0) && Er([3.0, 5.0]) == Some(1.0)
    ensures Er([3.0, 5.0, 2.0]) == Some(0.2)
    ensures Er([3.0, 5.0, 2.0, 3.0]) == Some(0.0)
    ensures Er([5.0, 2.0, 3.0, 1.0]) == Some(4.0 / 6.0)
    ensures Er([2.0, 3.0, 1.0, 3.0]) == Some(0.2)
    ensures Er([1.0, 3.0, 4.0, 6.0]) == Some(1.0)
  {
  }

  /** The windows the test sequence produces, for a length of 3. */
  lemma ErTestWindows()
    ensures Window([3.0, 5.0, 2.0, 3.0, 1.0], Kept(3) + 1) == [5.0, 2.0, 3.0, 1.0]
    ensures Window([3.0, 5.0, 2.0, 3.0, 1.0, 3.0, 4.0, 6.0], Kept(3) + 1) == [1.0, 3.0, 4.0, 6.0]
  {
  }

  /** The documented sequence for a length of 4. */
  lemma ErDocExample()
    ensures Er([10.0, 13.0, 12.0]) == Some(0.5)
    ensures Er([10.0, 13.0, 12.0, 13.0]) == Some(0.6)
    ensures Er([10.0, 13.0, 12.0, 13.0, 18.0]) == Some(0.8)
    ensures Er([13.0, 12.0, 13.0, 18.0, 19.0]) == Some(0.75)
  {
  }
}
