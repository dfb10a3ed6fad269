/** Bollinger bands: the mean of the last n inputs, with a band the standard deviation
    times a multiplier above it and one as far below it. */
module BollingerBands {
  import opened Wrappers
  import opened Windows
  import opened DataItems
  import StandardDeviation

  /** The three outputs of one step. */
  datatype BollingerBandsOutput = BollingerBandsOutput(average: real, upper: real, lower: real)

  /** The bands a deviation d times k above and below the average a. */
  function Around(a: real, d: real, k: real): (r: BollingerBandsOutput)
    ensures r.upper - r.average == r.average - r.lower
  {
    BollingerBandsOutput(a, a + d * k, a - d * k)
  }

  /** The bands of the window w for multiplier k. */
  function Bands(w: seq<real>, k: real): BollingerBandsOutput
  {
    Around(Mean(w), StandardDeviation.Sqrt(StandardDeviation.Variance(w)), k)
  }

  /** For a positive multiplier the average lies between the bands, which are
      equally far from it. */
  lemma BandsOrdered(w: seq<real>, k: real)
    requires k > 0.0
    ensures Bands(w, k).lower <= Bands(w, k).average <= Bands(w, k).upper
    ensures Bands(w, k).upper - Bands(w, k).average == Bands(w, k).average - Bands(w, k).lower
  {
    var d := StandardDeviation.Sqrt(StandardDeviation.Variance(w));
    StandardDeviation.StdDevBound(w);
    AroundOrdered(Mean(w), d, k);
  }

  lemma AroundOrdered(a: real, d: real, k: real)
    requires d >= 0.0 && k > 0.0
    ensures Around(a, d, k).lower <= a <= Around(a, d, k).upper
  {
    assert d * k >= 0.0;
  }

  /** A window of one input has zero deviation: all three outputs are that input. */
  lemma BandsSingle(x: real, k: real)
    ensures Bands([x], k) == BollingerBandsOutput(x, x, x)
  {
    assert Sum([x]) == x by { assert [x][1..] == []; }
    assert SumSqDev([x], x) == 0.0 by { assert [x][1..] == []; }
    StandardDeviation.SqrtLowerBound(0.0);
  }

  /** The first input after construction or a reset gives three equal outputs. */
  lemma BandsFirst(h: seq<real>, x: real, n: nat, k: real)
    requires n > 0
    ensures h == [] ==> Bands(Window(h + [x], n), k) == BollingerBandsOutput(x, x, x)
  {
    if h == [] {
      assert Window(h + [x], n) == [x];
      BandsSingle(x, k);
    }
  }

  /** The average lies between the lowest and the highest input of the window. */
  lemma AverageBetween(w: seq<real>)
    requires |w| > 0
    ensures SeqMin(w) <= Mean(w) <= SeqMax(w)
  {
    MeanWithin(w, SeqMin(w), SeqMax(w));
  }

  lemma MeanWithin(w: seq<real>, lo: real, hi: real)
    requires |w| > 0 && forall i :: 0 <= i < |w| ==> lo <= w[i] <= hi
    ensures lo <= Mean(w) <= hi
  {
    SumAtLeast(w, lo);
    SumAtMost(w, hi);
    Quotient(Sum(w), |w| as real, lo, hi);
  }

  lemma Quotient(s: real, c: real, lo: real, hi: real)
    requires c > 0.0 && c * lo <= s <= c * hi
    ensures lo <= s / c <= hi
  {
    var q := s / c;
    assert q * c == s;
  }

  lemma {:induction false} SumAtLeast(s: seq<real>, lo: real)
    requires forall i :: 0 <= i < |s| ==> lo <= s[i]
    ensures (|s| as real) * lo <= Sum(s)
  {
    if |s| > 0 {
      var t := s[1..];
      assert forall i :: 0 <= i < |t| ==> t[i] == s[i + 1];
      SumAtLeast(t, lo);
    }
  }

  lemma {:induction false} SumAtMost(s: seq<real>, hi: real)
    requires forall i :: 0 <= i < |s| ==> s[i] <= hi
    ensures Sum(s) <= (|s| as real) * hi
  {
    if |s| > 0 {
      var t := s[1..];
      assert forall i :: 0 <= i < |t| ==> t[i] == s[i + 1];
      SumAtMost(t, hi);
    }
  }

  class BollingerBands {
    const length: nat
    const multiplier: real
    const sd: StandardDeviation.StandardDeviation
    ghost var Repr: set<object>

    ghost predicate Valid()
      reads this, Repr
      ensures Valid() ==> this in Repr
    {
      this in Repr && sd in Repr && sd.Repr <= Repr && sd.vec in Repr && this !in sd.Repr &&
      sd.Valid() && sd.n == length && multiplier > 0.0
    }

    constructor Init(length: nat, multiplier: real)
      requires length > 0 && multiplier > 0.0
      ensures Valid() && fresh(Repr) && sd.history == []
      ensures this.length == length && this.multiplier == multiplier
    {
      this.length, this.multiplier := length, multiplier;
      var s := new StandardDeviation.StandardDeviation.Init(length);
      sd := s;
      Repr := {this} + s.Repr;
    }

    /** A multiplier that is not positive is rejected first, then a length of zero. */
    static method New(length: nat, multiplier: real) returns (r: Result<BollingerBands>)
      ensures r.Err? <==> multiplier <= 0.0 || length == 0
      ensures r.Err? ==> r.error == InvalidParameter
      ensures r.Ok? ==> fresh(r.value.Repr) && r.value.Valid() && r.value.sd.history == []
      ensures r.Ok? ==> r.value.length == length && r.value.multiplier == multiplier
    {
      if multiplier <= 0.0 {
        return Err(InvalidParameter);
      }
      var s := StandardDeviation.StandardDeviation.New(length);
      if s.Err? {
        return Err(s.error);
      }
      var b := new BollingerBands.Init(length, multiplier);
      return Ok(b);
    }

    static method Default() returns (b: BollingerBands)
      ensures fresh(b.Repr) && b.Valid() && b.sd.history == []
      ensures b.length == 9 && b.multiplier == 2.0
    {
      b := new BollingerBands.Init(9, 2.0);
    }

    method Length() returns (r: nat)
      ensures r == length
    {
      r := length;
    }

    method Multiplier() returns (r: real)
      ensures r == multiplier
    {
      r := multiplier;
    }

    /** Records an input and returns the bands of the last n inputs. */
    method Next(input: real) returns (r: BollingerBandsOutput)
      requires Valid()
      modifies Repr
      ensures Valid() && Repr == old(Repr)
      ensures sd.history == old(sd.history) + [input]
      ensures r == Bands(Window(sd.history, length), multiplier)
      ensures r.lower <= r.average <= r.upper
      ensures old(sd.history) == [] ==> r == BollingerBandsOutput(input, input, input)
    {
      ghost var h0 := sd.history;
      ghost var w := Window(h0 + [input], length);
      var dev := sd.Next(input);
      var mean := sd.Mean();
      assert sd.history == h0 + [input];
      r := Around(mean, dev, multiplier);
      BandsOrdered(w, multiplier);
      BandsFirst(h0, input, length, multiplier);
    }

    /** A bar's contribution is its close. */
    method NextBar(bar: DataItem) returns (r: BollingerBandsOutput)
      requires Valid()
      modifies Repr
      ensures Valid() && Repr == old(Repr)
      ensures sd.history == old(sd.history) + [bar.close]
      ensures r == Bands(Window(sd.history, length), multiplier)
    {
      r := Next(bar.close);
    }

    /** Resets the deviation; the next input again gives three equal outputs. */
    method Reset()
      requires Valid()
      modifies Repr
      ensures Valid() && Repr == old(Repr) && sd.history == []
    {
      sd.Reset();
    }
  }

  /** The averages of the test for a length of 3: 2, 3.5, 8/3 (about 2.667) and 49/12
      (about 4.083). */
  lemma BollingerBandsTestExample()
    ensures Mean(Window([2.0], 3)) == 2.0
    ensures Mean(Window([2.0, 5.0], 3)) == 3.5
    ensures Mean(Window([2.0, 5.0, 1.0], 3)) == 8.0 / 3.0
    ensures Mean(Window([2.0, 5.0, 1.0, 6.25], 3)) == 49.0 / 12.0
  {
  }

  /** The average of the reset test for a length of 5 is 3, with variance 1/2. */
  lemma BollingerBandsResetExample()
    ensures Mean(Window([3.0, 2.5, 3.5, 4.0, 2.0], 5)) == 3.0
    ensures StandardDeviation.Variance(Window([3.0, 2.5, 3.5, 4.0, 2.0], 5)) == 0.5
  {
  }
}
