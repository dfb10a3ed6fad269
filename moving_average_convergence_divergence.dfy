/** Moving average convergence divergence: the gap between a fast and a slow exponential
    average of the prices, an exponential average of that gap (the signal), and what is
    left of the gap above the signal (the histogram). */
module MovingAverageConvergenceDivergence {
  import opened Wrappers
  import opened DataItems
  import opened ExponentialMovingAverage

  /** The three outputs of one step. */
  datatype MacdOutput = MacdOutput(macd: real, signal: real, histogram: real)

  /** The gap between the two averages after the inputs h. */
  function Gap(kf: real, ks: real, h: seq<real>): real
    requires |h| > 0
  {
    Ema(kf, h) - Ema(ks, h)
  }

  /** The gaps after each prefix of h: the inputs the signal average has received. */
  function Gaps(kf: real, ks: real, h: seq<real>): (g: seq<real>)
    ensures |g| == |h|
  {
    if h == [] then [] else Gaps(kf, ks, h[..|h| - 1]) + [Gap(kf, ks, h)]
  }

  /** The outputs after the inputs h, for fast, slow and signal factors kf, ks and kg. */
  function Macd(kf: real, ks: real, kg: real, h: seq<real>): (r: MacdOutput)
    requires |h| > 0
    ensures r.signal + r.histogram == r.macd
  {
    var m := Gap(kf, ks, h);
    var s := Ema(kg, Gaps(kf, ks, h));
    MacdOutput(m, s, m - s)
  }

  /** One more input adds its gap to the gaps. */
  lemma GapsAppend(kf: real, ks: real, h: seq<real>, x: real)
    ensures Gaps(kf, ks, h + [x]) == Gaps(kf, ks, h) + [Gap(kf, ks, h + [x])]
  {
    assert (h + [x])[..|h|] == h;
  }

  /** Both averages start at the first input, so the first outputs are all zero. */
  lemma MacdFirst(kf: real, ks: real, kg: real, x: real)
    ensures Macd(kf, ks, kg, [x]) == MacdOutput(0.0, 0.0, 0.0)
  {
    assert [x][..0] == [];
  }

  /** A constant price keeps every output at zero. */
  lemma MacdConstant(kf: real, ks: real, kg: real, h: seq<real>, c: real)
    requires |h| > 0 && forall i :: 0 <= i < |h| ==> h[i] == c
    ensures Macd(kf, ks, kg, h) == MacdOutput(0.0, 0.0, 0.0)
  {
    GapsConstant(kf, ks, h, c);
    EmaConstant(kg, Gaps(kf, ks, h), 0.0);
  }

  lemma {:induction false} GapsConstant(kf: real, ks: real, h: seq<real>, c: real)
    requires forall i :: 0 <= i < |h| ==> h[i] == c
    ensures forall i :: 0 <= i < |h| ==> Gaps(kf, ks, h)[i] == 0.0
  {
    if h != [] {
      var init := h[..|h| - 1];
      GapsConstant(kf, ks, init, c);
      EmaConstant(kf, h, c);
      EmaConstant(ks, h, c);
    }
  }

  /** Equal fast and slow lengths cancel: every output is zero, whatever the prices. */
  lemma MacdEqualFactors(k: real, kg: real, h: seq<real>)
    requires |h| > 0
    ensures Macd(k, k, kg, h) == MacdOutput(0.0, 0.0, 0.0)
  {
    GapsEqualFactors(k, h);
    EmaConstant(kg, Gaps(k, k, h), 0.0);
  }

  lemma {:induction false} GapsEqualFactors(k: real, h: seq<real>)
    ensures forall i :: 0 <= i < |h| ==> Gaps(k, k, h)[i] == 0.0
  {
    if h != [] {
      GapsEqualFactors(k, h[..|h| - 1]);
    }
  }

  class MovingAverageConvergenceDivergence {
    const fastEma: ExponentialMovingAverage
    const slowEma: ExponentialMovingAverage
    const signalEma: ExponentialMovingAverage

    ghost predicate Valid()
      reads this, fastEma, slowEma, signalEma
    {
      fastEma != slowEma && fastEma != signalEma && slowEma != signalEma &&
      fastEma.Valid() && slowEma.Valid() && signalEma.Valid() &&
      slowEma.history == fastEma.history &&
      signalEma.history == Gaps(fastEma.k, slowEma.k, fastEma.history)
    }

    constructor Init(fastLength: nat, slowLength: nat, signalLength: nat)
      requires fastLength > 0 && slowLength > 0 && signalLength > 0
      ensures Valid() && fresh(fastEma) && fresh(slowEma) && fresh(signalEma)
      ensures fastEma.length == fastLength && slowEma.length == slowLength && signalEma.length == signalLength
      ensures fastEma.history == []
    {
      var f := new ExponentialMovingAverage.Init(fastLength);
      var s := new ExponentialMovingAverage.Init(slowLength);
      var g := new ExponentialMovingAverage.Init(signalLength);
      fastEma, slowEma, signalEma := f, s, g;
    }

    /** Any of the three lengths being zero is rejected. */
    static method New(fastLength: nat, slowLength: nat, signalLength: nat)
      returns (r: Result<MovingAverageConvergenceDivergence>)
      ensures r.Err? <==> fastLength == 0 || slowLength == 0 || signalLength == 0
      ensures r.Err? ==> r.error == InvalidParameter
      ensures r.Ok? ==> r.value.Valid() && r.value.fastEma.history == []
      ensures r.Ok? ==> r.value.fastEma.length == fastLength && r.value.slowEma.length == slowLength
      ensures r.Ok? ==> r.value.signalEma.length == signalLength
      ensures r.Ok? ==> fresh(r.value) && fresh(r.value.fastEma) && fresh(r.value.slowEma) && fresh(r.value.signalEma)
    {
      var f := ExponentialMovingAverage.New(fastLength);
      if f.Err? {
        return Err(f.error);
      }
      var s := ExponentialMovingAverage.New(slowLength);
      if s.Err? {
        return Err(s.error);
      }
      var g := ExponentialMovingAverage.New(signalLength);
      if g.Err? {
        return Err(g.error);
      }
      var m := new MovingAverageConvergenceDivergence.Init(fastLength, slowLength, signalLength);
      return Ok(m);
    }

    static method Default() returns (m: MovingAverageConvergenceDivergence)
      ensures m.Valid() && m.fastEma.history == []
      ensures m.fastEma.length == 12 && m.slowEma.length == 26 && m.signalEma.length == 9
      ensures fresh(m) && fresh(m.fastEma) && fresh(m.slowEma) && fresh(m.signalEma)
    {
      m := new MovingAverageConvergenceDivergence.Init(12, 26, 9);
    }

    /** Feeds the input to both price averages and their gap to the signal average. */
    method Next(input: real) returns (r: MacdOutput)
      requires Valid()
      modifies fastEma, slowEma, signalEma
      ensures Valid()
      ensures fastEma.history == old(fastEma.history) + [input]
      ensures r == Macd(fastEma.k, slowEma.k, signalEma.k, fastEma.history)
      ensures r.signal + r.histogram == r.macd
      ensures old(fastEma.history) == [] ==> r == MacdOutput(0.0, 0.0, 0.0)
    {
      ghost var h := fastEma.history + [input];
      ghost var g := signalEma.history;
      var fastVal := fastEma.Next(input);
      assert slowEma.history == h[..|h| - 1] && signalEma.history == g;
      var slowVal := slowEma.Next(input);
      assert fastEma.history == h && slowEma.history == h && signalEma.history == g;
      var macd := fastVal - slowVal;
      GapsAppend(fastEma.k, slowEma.k, h[..|h| - 1], input);
      assert h[..|h| - 1] + [input] == h;
      assert g + [macd] == Gaps(fastEma.k, slowEma.k, h);
      var signal := signalEma.Next(macd);
      var histogram := macd - signal;
      r := MacdOutput(macd, signal, histogram);
      if |h| == 1 {
        MacdFirst(fastEma.k, slowEma.k, signalEma.k, input);
        assert h == [input];
      }
    }

    /** A bar's contribution is its close. */
    method NextBar(bar: DataItem) returns (r: MacdOutput)
      requires Valid()
      modifies fastEma, slowEma, signalEma
      ensures Valid()
      ensures fastEma.history == old(fastEma.history) + [bar.close]
      ensures r == Macd(fastEma.k, slowEma.k, signalEma.k, fastEma.history)
    {
      r := Next(bar.close);
    }

    /** Returns all three averages to their newly constructed state. */
    method Reset()
      requires Valid()
      modifies fastEma, slowEma, signalEma
      ensures Valid() && fastEma.history == []
    {
      fastEma.Reset();
      slowEma.Reset();
      signalEma.Reset();
    }
  }

  /** The first two outputs of the test for lengths 3, 6 and 4 (factors 1/2, 2/7 and
      2/5): zero, then 3/14, 3/35 and 9/70, about 0.21, 0.09 and 0.13. */
  lemma MacdTestExample()
    ensures Alpha(3) == 0.5 && Alpha(6) == 2.0 / 7.0 && Alpha(4) == 0.4
    ensures Macd(0.5, 2.0 / 7.0, 0.4, [2.0]) == MacdOutput(0.0, 0.0, 0.0)
    ensures Macd(0.5, 2.0 / 7.0, 0.4, [2.0, 3.0]) == MacdOutput(3.0 / 14.0, 3.0 / 35.0, 9.0 / 70.0)
  {
    MacdFirst(0.5, 2.0 / 7.0, 0.4, 2.0);
    EmaAppend(0.5, [2.0], 3.0);
    EmaAppend(2.0 / 7.0, [2.0], 3.0);
    GapsAppend(0.5, 2.0 / 7.0, [2.0], 3.0);
    assert [2.0] + [3.0] == [2.0, 3.0];
    assert Gaps(0.5, 2.0 / 7.0, [2.0]) == [0.0] by {
      assert [2.0][..0] == [];
    }
    EmaAppend(0.4, [0.0], 3.0 / 14.0);
    assert [0.0] + [3.0 / 14.0] == [0.0, 3.0 / 14.0];
  }
}
