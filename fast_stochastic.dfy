/** The fast stochastic oscillator: where the latest price sits between the lowest and
    the highest price of the last n samples, in percent. */
module FastStochastic {
  import opened Wrappers
  import opened Windows
  import opened DataItems
  import Minimum
  import Maximum

  /** The position of x between lo and hi in percent, or 50 when the two are equal. */
  function Stoch(lo: real, hi: real, x: real): real
  {
    if lo == hi then 50.0 else (x - lo) / (hi - lo) * 100.0
  }

  /** What an oscillator of length n gives after the scalar inputs h: the position of
      the latest between the lowest and the highest of the last n. */
  function Fast(h: seq<real>, n: nat): real
    requires |h| > 0 && n > 0
  {
    Stoch(SeqMin(Window(h, n)), SeqMax(Window(h, n)), h[|h| - 1])
  }

  /** A value between the extremes gives a position in [0, 100]. */
  lemma StochBounds(lo: real, hi: real, x: real)
    requires lo <= x <= hi
    ensures 0.0 <= Stoch(lo, hi, x) <= 100.0
  {
    if lo != hi {
      Position(x - lo, hi - lo);
    }
  }

  lemma Position(d: real, s: real)
    requires 0.0 <= d <= s && s > 0.0
    ensures 0.0 <= d / s * 100.0 <= 100.0
  {
    var q := d / s;
    assert q * s == d;
    assert q <= 1.0;
  }

  /** The value the oscillator computes from the two extremes is Stoch of them, and lies
      in [0, 100] whenever the price lies between them. */
  lemma StochOf(lo: real, hi: real, x: real, r: real)
    requires r == if lo == hi then 50.0 else (x - lo) / (hi - lo) * 100.0
    ensures r == Stoch(lo, hi, x)
    ensures lo <= x <= hi ==> 0.0 <= r <= 100.0
  {
    if lo <= x <= hi {
      StochBounds(lo, hi, x);
    }
  }

  /** The position of the two extremes themselves. */
  lemma StochEnds(lo: real, hi: real)
    requires lo < hi
    ensures Stoch(lo, hi, lo) == 0.0 && Stoch(lo, hi, hi) == 100.0
  {
    var s := hi - lo;
    assert s / s == 1.0;
  }

  class FastStochastic {
    const length: nat
    const minimum: Minimum.Minimum
    const maximum: Maximum.Maximum
    ghost var Repr: set<object>

    ghost predicate Valid()
      reads this, Repr
      ensures Valid() ==> this in Repr
    {
      this in Repr && minimum in Repr && maximum in Repr &&
      minimum.Repr <= Repr && maximum.Repr <= Repr &&
      this !in minimum.Repr && this !in maximum.Repr && minimum.Repr !! maximum.Repr &&
      minimum.Valid() && maximum.Valid() &&
      minimum.vec.Length == length && maximum.vec.Length == length &&
      |minimum.history| == |maximum.history|
    }

    constructor Init(length: nat)
      requires length > 0
      ensures Valid() && fresh(Repr) && this.length == length
      ensures minimum.history == [] && maximum.history == []
    {
      this.length := length;
      var lo := new Minimum.Minimum.Init(length);
      var hi := new Maximum.Maximum.Init(length);
      minimum, maximum := lo, hi;
      Repr := {this} + lo.Repr + hi.Repr;
    }

    /** A length of zero is rejected by the trackers inside. */
    static method New(length: nat) returns (r: Result<FastStochastic>)
      ensures r.Err? <==> length == 0
      ensures r.Err? ==> r.error == InvalidParameter
      ensures r.Ok? ==> fresh(r.value.Repr) && r.value.Valid() && r.value.length == length
      ensures r.Ok? ==> r.value.minimum.history == [] && r.value.maximum.history == []
    {
      var m := Minimum.Minimum.New(length);
      if m.Err? {
        return Err(m.error);
      }
      var s := new FastStochastic.Init(length);
      return Ok(s);
    }

    static method Default() returns (s: FastStochastic)
      ensures fresh(s.Repr) && s.Valid() && s.length == 14
      ensures s.minimum.history == [] && s.maximum.history == []
    {
      s := new FastStochastic.Init(14);
    }

    method Length() returns (r: nat)
      ensures r == length
    {
      r := length;
    }

    /** Feeds the input to both trackers and returns its position between the lowest
        and the highest of the last n values they hold. */
    method Next(input: real) returns (r: real)
      requires Valid()
      modifies Repr
      ensures Valid() && Repr == old(Repr)
      ensures minimum.history == old(minimum.history) + [input]
      ensures maximum.history == old(maximum.history) + [input]
      ensures r == Stoch(SeqMin(Window(minimum.history, length)), SeqMax(Window(maximum.history, length)), input)
      ensures 0.0 <= r <= 100.0
      ensures old(minimum.history) == [] ==> r == 50.0
      ensures old(minimum.history) == old(maximum.history) ==> r == Fast(minimum.history, length)
    {
      ghost var lows, highs := minimum.history + [input], maximum.history + [input];
      var min := minimum.Next(input);
      assert minimum.history == lows && min == SeqMin(Window(lows, length));
      var max := maximum.Next(input);
      assert maximum.history == highs && max == SeqMax(Window(highs, length));
      WindowNewest(old(minimum.history), input, length);
      WindowNewest(old(maximum.history), input, length);
      assert min <= input <= max;
      WindowFirst(old(minimum.history), input, length);
      WindowFirst(old(maximum.history), input, length);
      if min == max {
        r := 50.0;
      } else {
        r := (input - min) / (max - min) * 100.0;
      }
      StochOf(min, max, input, r);
    }

    /** Feeds the high to the maximum and the low to the minimum, and returns the
        position of the close between them. */
    method NextBar(bar: DataItem) returns (r: real)
      requires Valid()
      modifies Repr
      ensures Valid() && Repr == old(Repr)
      ensures minimum.history == old(minimum.history) + [bar.low]
      ensures maximum.history == old(maximum.history) + [bar.high]
      ensures r == Stoch(SeqMin(Window(minimum.history, length)), SeqMax(Window(maximum.history, length)), bar.close)
      ensures bar.low <= bar.close <= bar.high ==> 0.0 <= r <= 100.0
    {
      ghost var lows, highs := minimum.history + [bar.low], maximum.history + [bar.high];
      var highest := maximum.Next(bar.high);
      assert maximum.history == highs && highest == SeqMax(Window(highs, length));
      var lowest := minimum.Next(bar.low);
      assert minimum.history == lows && lowest == SeqMin(Window(lows, length));
      var close := bar.close;
      WindowNewest(old(minimum.history), bar.low, length);
      WindowNewest(old(maximum.history), bar.high, length);
      if highest == lowest {
        r := 50.0;
      } else {
        r := (close - lowest) / (highest - lowest) * 100.0;
      }
      StochOf(lowest, highest, close, r);
    }

    method Reset()
      requires Valid()
      modifies Repr
      ensures Valid() && Repr == old(Repr)
      ensures minimum.history == [] && maximum.history == []
    {
      minimum.Reset();
      maximum.Reset();
    }
  }

  /** Fast from the window and its two extremes, for working out examples. */
  lemma FastFrom(h: seq<real>, n: nat, w: seq<real>, lo: real, hi: real)
    requires |h| > 0 && n > 0 && Window(h, n) == w
    requires lo in w && hi in w && forall i :: 0 <= i < |w| ==> lo <= w[i] <= hi
    ensures Fast(h, n) == Stoch(lo, hi, h[|h| - 1])
  {
    SeqMinUnique(w, lo);
    SeqMaxUnique(w, hi);
  }

  /** The doc example for a length of 5: the inputs 20, 30, 40, 35, 15 give
      50, 100, 100, 75, 0, each from the extremes of all inputs so far. */
  lemma FastStochasticDocExample()
    ensures Stoch(20.0, 20.0, 20.0) == 50.0
    ensures Stoch(20.0, 30.0, 30.0) == 100.0
    ensures Stoch(20.0, 40.0, 40.0) == 100.0
    ensures Stoch(20.0, 40.0, 35.0) == 75.0
    ensures Fast([20.0, 30.0, 40.0, 35.0, 15.0], 5) == 0.0
  {
    FastFrom([20.0, 30.0, 40.0, 35.0, 15.0], 5, [20.0, 30.0, 40.0, 35.0, 15.0], 15.0, 40.0);
  }

  /** The scalar test for a length of 3: the inputs 0, 200, 100, 120, 115 give
      50, 100, 50, 20, 75; by the last input both 0 and 200 have left the window. */
  lemma FastStochasticTestExample()
    ensures Stoch(0.0, 0.0, 0.0) == 50.0
    ensures Stoch(0.0, 200.0, 200.0) == 100.0
    ensures Stoch(0.0, 200.0, 100.0) == 50.0
    ensures Stoch(100.0, 200.0, 120.0) == 20.0
    ensures Fast([0.0, 200.0, 100.0, 120.0, 115.0], 3) == 75.0
  {
    FastFrom([0.0, 200.0, 100.0, 120.0, 115.0], 3, [100.0, 120.0, 115.0], 100.0, 120.0);
  }

  /** The reset test for a length of 10: 10, 210, 10, 60 give 50, 100, 0, 25; a reset
      empties both histories, so 10, 20, 12.5 then give 50, 100, 25. */
  lemma FastStochasticResetExample()
    ensures Stoch(10.0, 10.0, 10.0) == 50.0
    ensures Stoch(10.0, 210.0, 210.0) == 100.0
    ensures Stoch(10.0, 210.0, 10.0) == 0.0
    ensures Stoch(10.0, 210.0, 60.0) == 25.0
    ensures Stoch(10.0, 20.0, 20.0) == 100.0
    ensures Fast([10.0, 20.0, 12.5], 10) == 25.0
  {
    FastFrom([10.0, 20.0, 12.5], 10, [10.0, 20.0, 12.5], 10.0, 20.0);
  }

  /** The bar test for a length of 3: the close 16 lies below its own bar's low but not
      below the window minimum. */
  lemma FastStochasticBarExample()
    ensures Stoch(20.0, 20.0, 20.0) == 50.0
    ensures Stoch(10.0, 30.0, 25.0) == 75.0
    ensures Stoch(10.0, 40.0, 16.0) == 20.0
    ensures Stoch(10.0, 40.0, 19.0) == 30.0
    ensures Stoch(15.0, 40.0, 25.0) == 40.0
    ensures Stoch(15.0, 35.0, 30.0) == 75.0
  {
  }
}
