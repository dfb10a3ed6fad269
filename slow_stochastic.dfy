/** The slow stochastic oscillator: the fast stochastic oscillator smoothed by an
    exponential moving average. */
module SlowStochastic {
  import opened Wrappers
  import opened Windows
  import opened DataItems
  import FastStochastic
  import ExponentialMovingAverage

  /** Every value of h is a percentage. */
  predicate Percentages(h: seq<real>)
  {
    forall i :: 0 <= i < |h| ==> 0.0 <= h[i] <= 100.0
  }

  /** An exponential average of percentages is a percentage. */
  lemma EmaOfPercentages(k: real, h: seq<real>)
    requires 0.0 <= k <= 1.0 && |h| > 0 && Percentages(h)
    ensures 0.0 <= ExponentialMovingAverage.Ema(k, h) <= 100.0
  {
    ExponentialMovingAverage.EmaBounds(k, h);
  }

  class SlowStochastic {
    const fastStochastic: FastStochastic.FastStochastic
    const ema: ExponentialMovingAverage.ExponentialMovingAverage
    ghost var Repr: set<object>

    ghost predicate Valid()
      reads this, Repr
      ensures Valid() ==> this in Repr
    {
      this in Repr && ema in Repr && fastStochastic in Repr && fastStochastic.Repr <= Repr &&
      this !in fastStochastic.Repr && ema !in fastStochastic.Repr &&
      fastStochastic.Valid() && ema.Valid() &&
      |ema.history| == |fastStochastic.minimum.history|
    }

    constructor Init(stochasticN: nat, emaN: nat)
      requires stochasticN > 0 && emaN > 0
      ensures Valid() && fresh(Repr)
      ensures fastStochastic.length == stochasticN && ema.length == emaN
      ensures ema.history == [] && fastStochastic.minimum.history == [] && fastStochastic.maximum.history == []
    {
      var f := new FastStochastic.FastStochastic.Init(stochasticN);
      var e := new ExponentialMovingAverage.ExponentialMovingAverage.Init(emaN);
      fastStochastic, ema := f, e;
      Repr := {this, e} + f.Repr;
    }

    /** Either length being zero is rejected, the oscillator's first. */
    static method New(stochasticN: nat, emaN: nat) returns (r: Result<SlowStochastic>)
      ensures r.Err? <==> stochasticN == 0 || emaN == 0
      ensures r.Err? ==> r.error == InvalidParameter
      ensures r.Ok? ==> fresh(r.value.Repr) && r.value.Valid()
      ensures r.Ok? ==> r.value.fastStochastic.length == stochasticN && r.value.ema.length == emaN
      ensures r.Ok? ==> r.value.ema.history == []
    {
      var f := FastStochastic.FastStochastic.New(stochasticN);
      if f.Err? {
        return Err(f.error);
      }
      var e := ExponentialMovingAverage.ExponentialMovingAverage.New(emaN);
      if e.Err? {
        return Err(e.error);
      }
      var s := new SlowStochastic.Init(stochasticN, emaN);
      return Ok(s);
    }

    static method Default() returns (s: SlowStochastic)
      ensures fresh(s.Repr) && s.Valid() && s.ema.history == []
      ensures s.fastStochastic.length == 14 && s.ema.length == 3
    {
      s := new SlowStochastic.Init(14, 3);
    }

    /** Smooths the fast oscillator's value for the input. The first output is 50, and
        every output is a percentage. */
    method Next(input: real) returns (r: real)
      requires Valid()
      modifies Repr
      ensures Valid() && Repr == old(Repr)
      ensures fastStochastic.minimum.history == old(fastStochastic.minimum.history) + [input]
      ensures fastStochastic.maximum.history == old(fastStochastic.maximum.history) + [input]
      ensures ema.history == old(ema.history) + [FastStochastic.Stoch(
                SeqMin(Window(fastStochastic.minimum.history, fastStochastic.length)),
                SeqMax(Window(fastStochastic.maximum.history, fastStochastic.length)), input)]
      ensures r == ExponentialMovingAverage.Ema(ema.k, ema.history)
      ensures Percentages(old(ema.history)) ==> Percentages(ema.history) && 0.0 <= r <= 100.0
      ensures old(ema.history) == [] ==> r == 50.0
    {
      ghost var h := ema.history;
      var fast := fastStochastic.Next(input);
      assert ema.history == h;
      r := ema.Next(fast);
      assert ema.history == h + [fast];
      if Percentages(h) {
        EmaOfPercentages(ema.k, ema.history);
      }
    }

    /** Smooths the fast oscillator's value for the bar. The outputs stay percentages for
        as long as every close lies between its bar's low and high. */
    method NextBar(bar: DataItem) returns (r: real)
      requires Valid()
      modifies Repr
      ensures Valid() && Repr == old(Repr)
      ensures fastStochastic.minimum.history == old(fastStochastic.minimum.history) + [bar.low]
      ensures fastStochastic.maximum.history == old(fastStochastic.maximum.history) + [bar.high]
      ensures ema.history == old(ema.history) + [FastStochastic.Stoch(
                SeqMin(Window(fastStochastic.minimum.history, fastStochastic.length)),
                SeqMax(Window(fastStochastic.maximum.history, fastStochastic.length)), bar.close)]
      ensures r == ExponentialMovingAverage.Ema(ema.k, ema.history)
      ensures Percentages(old(ema.history)) && bar.low <= bar.close <= bar.high ==>
                Percentages(ema.history) && 0.0 <= r <= 100.0
    {
      ghost var h := ema.history;
      var fast := fastStochastic.NextBar(bar);
      assert ema.history == h;
      r := ema.Next(fast);
      assert ema.history == h + [fast];
      if Percentages(h) && bar.low <= bar.close <= bar.high {
        EmaOfPercentages(ema.k, ema.history);
      }
    }

    /** Resets the oscillator and the average. */
    method Reset()
      requires Valid()
      modifies Repr
      ensures Valid() && Repr == old(Repr)
      ensures ema.history == [] && fastStochastic.minimum.history == [] && fastStochastic.maximum.history == []
    {
      fastStochastic.Reset();
      ema.Reset();
    }
  }

  /** x rounds to k the way the library's round does for a value that is not negative:
      to the nearest whole number, halves going up. */
  predicate RoundsTo(x: real, k: int)
  {
    k as real - 0.5 <= x < k as real + 0.5
  }

  /** The test sequence 10, 50, 50, 30, 55 for lengths 3 and 2: the oscillator gives
      50, 100, 100, 0, 100, the last once 10 has left the window. */
  lemma SlowStochasticTestInputs()
    ensures FastStochastic.Stoch(10.0, 10.0, 10.0) == 50.0
    ensures FastStochastic.Stoch(10.0, 50.0, 50.0) == 100.0
    ensures FastStochastic.Stoch(30.0, 50.0, 30.0) == 0.0
    ensures FastStochastic.Fast([10.0, 50.0, 50.0, 30.0, 55.0], 3) == 100.0
  {
    FastStochastic.FastFrom([10.0, 50.0, 50.0, 30.0, 55.0], 3, [50.0, 30.0, 55.0], 30.0, 55.0);
  }

  /** The test sequence's averages: factor 2/3 over 50, 100, 100, 0, 100 gives 50, 250/3,
      850/9, 850/27, 6250/81, which round to 50, 83, 94, 31, 77. The reset test repeats
      the first three and, after the reset, the first. */
  lemma SlowStochasticTestExample()
    ensures ExponentialMovingAverage.Alpha(2) == 2.0 / 3.0
    ensures ExponentialMovingAverage.Ema(2.0 / 3.0, [50.0]) == 50.0
    ensures ExponentialMovingAverage.Ema(2.0 / 3.0, [50.0, 100.0]) == 250.0 / 3.0
    ensures ExponentialMovingAverage.Ema(2.0 / 3.0, [50.0, 100.0, 100.0]) == 850.0 / 9.0
    ensures ExponentialMovingAverage.Ema(2.0 / 3.0, [50.0, 100.0, 100.0, 0.0]) == 850.0 / 27.0
    ensures ExponentialMovingAverage.Ema(2.0 / 3.0, [50.0, 100.0, 100.0, 0.0, 100.0]) == 6250.0 / 81.0
    ensures RoundsTo(250.0 / 3.0, 83) && RoundsTo(850.0 / 9.0, 94)
    ensures RoundsTo(850.0 / 27.0, 31) && RoundsTo(6250.0 / 81.0, 77)
  {
    var k := 2.0 / 3.0;
    ExponentialMovingAverage.EmaAppend(k, [50.0], 100.0);
    assert [50.0] + [100.0] == [50.0, 100.0];
    ExponentialMovingAverage.EmaAppend(k, [50.0, 100.0], 100.0);
    assert [50.0, 100.0] + [100.0] == [50.0, 100.0, 100.0];
    ExponentialMovingAverage.EmaAppend(k, [50.0, 100.0, 100.0], 0.0);
    assert [50.0, 100.0, 100.0] + [0.0] == [50.0, 100.0, 100.0, 0.0];
    ExponentialMovingAverage.EmaAppend(k, [50.0, 100.0, 100.0, 0.0], 100.0);
    assert [50.0, 100.0, 100.0, 0.0] + [100.0] == [50.0, 100.0, 100.0, 0.0, 100.0];
  }

  /** The bar test for lengths 3 and 2. The highs are 30, 20, 40, 35, 30, 35 and the lows
      10, 20, 20, 15, 20, 25; against the extremes of the last three, the closes 25, 20,
      16, 19, 25, 30 sit at 75, 50, 20, 16, 40, 75. */
  lemma SlowStochasticBarInputs()
    ensures FastStochastic.Stoch(10.0, 30.0, 25.0) == 75.0
    ensures FastStochastic.Stoch(10.0, 30.0, 20.0) == 50.0
    ensures FastStochastic.Stoch(10.0, 40.0, 16.0) == 20.0
    ensures FastStochastic.Stoch(15.0, 40.0, 19.0) == 16.0
    ensures FastStochastic.Stoch(15.0, 40.0, 25.0) == 40.0
    ensures FastStochastic.Stoch(15.0, 35.0, 30.0) == 75.0
  {
  }

  /** The bar test's averages: factor 2/3 over 75, 50, 20, 16, 40, 75 gives values that
      round to 75, 58, 33, 22, 34, 61. */
  lemma SlowStochasticBarExample()
    ensures ExponentialMovingAverage.Ema(2.0 / 3.0, [75.0]) == 75.0
    ensures ExponentialMovingAverage.Ema(2.0 / 3.0, [75.0, 50.0]) == 175.0 / 3.0
    ensures ExponentialMovingAverage.Ema(2.0 / 3.0, [75.0, 50.0, 20.0]) == 295.0 / 9.0
    ensures ExponentialMovingAverage.Ema(2.0 / 3.0, [75.0, 50.0, 20.0, 16.0]) == 583.0 / 27.0
    ensures ExponentialMovingAverage.Ema(2.0 / 3.0, [75.0, 50.0, 20.0, 16.0, 40.0]) == 2743.0 / 81.0
    ensures ExponentialMovingAverage.Ema(2.0 / 3.0, [75.0, 50.0, 20.0, 16.0, 40.0, 75.0]) == 14893.0 / 243.0
    ensures RoundsTo(175.0 / 3.0, 58) && RoundsTo(295.0 / 9.0, 33) && RoundsTo(583.0 / 27.0, 22)
    ensures RoundsTo(2743.0 / 81.0, 34) && RoundsTo(14893.0 / 243.0, 61)
  {
    var k := 2.0 / 3.0;
    ExponentialMovingAverage.EmaAppend(k, [75.0], 50.0);
    assert [75.0] + [50.0] == [75.0, 50.0];
    ExponentialMovingAverage.EmaAppend(k, [75.0, 50.0], 20.0);
    assert [75.0, 50.0] + [20.0] == [75.0, 50.0, 20.0];
    ExponentialMovingAverage.EmaAppend(k, [75.0, 50.0, 20.0], 16.0);
    assert [75.0, 50.0, 20.0] + [16.0] == [75.0, 50.0, 20.0, 16.0];
    ExponentialMovingAverage.EmaAppend(k, [75.0, 50.0, 20.0, 16.0], 40.0);
    assert [75.0, 50.0, 20.0, 16.0] + [40.0] == [75.0, 50.0, 20.0, 16.0, 40.0];
    ExponentialMovingAverage.EmaAppend(k, [75.0, 50.0, 20.0, 16.0, 40.0], 75.0);
    assert [75.0, 50.0, 20.0, 16.0, 40.0] + [75.0] == [75.0, 50.0, 20.0, 16.0, 40.0, 75.0];
  }
}
