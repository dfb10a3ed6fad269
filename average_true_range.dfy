/** The average true range: the exponential moving average of the true range. */
module AverageTrueRange {
  import opened Wrappers
  import opened Windows
  import opened DataItems
  import TrueRange
  import ExponentialMovingAverage

  class AverageTrueRange {
    const trueRange: TrueRange.TrueRange
    const ema: ExponentialMovingAverage.ExponentialMovingAverage

    ghost predicate Valid()
      reads this, ema
    {
      ema.Valid()
    }

    constructor Init(length: nat)
      requires length > 0
      ensures Valid() && fresh(trueRange) && fresh(ema)
      ensures trueRange.prevClose == None && ema.history == [] && ema.length == length
    {
      trueRange := new TrueRange.TrueRange();
      ema := new ExponentialMovingAverage.ExponentialMovingAverage.Init(length);
    }

    /** A length of zero is rejected by the average inside. */
    static method New(length: nat) returns (r: Result<AverageTrueRange>)
      ensures r.Err? <==> length == 0
      ensures r.Err? ==> r.error == InvalidParameter
      ensures r.Ok? ==> fresh(r.value) && fresh(r.value.trueRange) && fresh(r.value.ema) && r.value.Valid()
      ensures r.Ok? ==> r.value.trueRange.prevClose == None && r.value.ema.history == [] && r.value.ema.length == length
    {
      var e := ExponentialMovingAverage.ExponentialMovingAverage.New(length);
      if e.Err? {
        return Err(e.error);
      }
      var a := new AverageTrueRange.Init(length);
      return Ok(a);
    }

    static method Default() returns (a: AverageTrueRange)
      ensures fresh(a) && fresh(a.trueRange) && fresh(a.ema) && a.Valid()
      ensures a.trueRange.prevClose == None && a.ema.history == [] && a.ema.length == 14
    {
      a := new AverageTrueRange.Init(14);
    }

    /** Feeds the scalar true range of the input into the average. */
    method Next(input: real) returns (r: real)
      requires Valid()
      modifies trueRange, ema
      ensures Valid() && trueRange.prevClose == Some(input)
      ensures ema.history == old(ema.history) + [TrueRange.Distance(old(trueRange.prevClose), input)]
      ensures r == ExponentialMovingAverage.Ema(ema.k, ema.history)
    {
      var d := trueRange.Next(input);
      r := ema.Next(d);
    }

    /** Feeds the true range of the bar into the average. */
    method NextBar(bar: DataItem) returns (r: real)
      requires Valid()
      modifies trueRange, ema
      ensures Valid() && trueRange.prevClose == Some(bar.close)
      ensures ema.history == old(ema.history) + [TrueRange.BarRange(old(trueRange.prevClose), bar)]
      ensures r == ExponentialMovingAverage.Ema(ema.k, ema.history)
    {
      var d := trueRange.NextBar(bar);
      r := ema.Next(d);
    }

    method Reset()
      requires Valid()
      modifies trueRange, ema
      ensures Valid() && trueRange.prevClose == None && ema.history == []
    {
      trueRange.Reset();
      ema.Reset();
    }
  }

  /** The bar test for a length of 3: true ranges 2.5, 2 and 4.5 average to 2.5, 2.25
      and 3.375. */
  lemma AtrTestExample()
    ensures ExponentialMovingAverage.Alpha(3) == 0.5
    ensures ExponentialMovingAverage.Ema(0.5, [TrueRange.BarRange(None, DataItem(0.0, 10.0, 7.5, 9.0, 0.0))]) == 2.5
    ensures ExponentialMovingAverage.Ema(0.5, [2.5, TrueRange.BarRange(Some(9.0), DataItem(0.0, 11.0, 9.0, 9.5, 0.0))]) == 2.25
    ensures ExponentialMovingAverage.Ema(0.5, [2.5, 2.0, TrueRange.BarRange(Some(9.5), DataItem(0.0, 9.0, 5.0, 8.0, 0.0))]) == 3.375
  {
    TrueRange.BarRangeExample();
    assert [2.5, 2.0][..1] == [2.5];
    assert ExponentialMovingAverage.Ema(0.5, [2.5, 2.0]) == 2.25;
    assert [2.5, 2.0, 4.5][..2] == [2.5, 2.0];
  }

  /** After a reset the first bar gives its own span. */
  lemma AtrResetExample()
    ensures ExponentialMovingAverage.Ema(ExponentialMovingAverage.Alpha(9), [TrueRange.BarRange(None, DataItem(0.0, 60.0, 15.0, 51.0, 0.0))]) == 45.0
  {
  }
}
