/** The relative strength index over smoothed moving averages of the gains and losses,
    seeded with two different tiny moves. */
module RelativeStrengthIndexSmma {
  import opened Wrappers
  import opened DataItems
  import opened RelativeStrengthIndex
  import ExponentialMovingAverage
  import SmoothedOrModifiedMovingAverage

  /** The gain the upper average receives for the first sample. */
  const UpSeed: real := 0.000000001
  /** The loss the lower average receives for the first sample. */
  const DownSeed: real := 0.00000001

  /** The index after the inputs h, for a length n. */
  function RsiSmma(n: nat, h: seq<real>): Option<real>
    requires n > 0 && |h| > 0
  {
    Ratio(SmoothedOrModifiedMovingAverage.Smma(n, Ups(h, UpSeed)),
          SmoothedOrModifiedMovingAverage.Smma(n, Downs(h, DownSeed)))
  }

  lemma RsiSmmaOf(n: nat, h: seq<real>, up: real, down: real)
    requires n > 0 && |h| > 0
    requires up == SmoothedOrModifiedMovingAverage.Smma(n, Ups(h, UpSeed))
    requires down == SmoothedOrModifiedMovingAverage.Smma(n, Downs(h, DownSeed))
    ensures RsiSmma(n, h) == Ratio(up, down)
  {
  }

  /** The unequal seeds make the first output 100/11, about 9.09, and not 50. */
  lemma RsiSmmaFirst(n: nat, x: real)
    requires n > 0
    ensures RsiSmma(n, [x]) == Some(100.0 / 11.0)
  {
  }

  /** Whenever the index is defined, it lies in [0, 100]. */
  lemma RsiSmmaBounds(n: nat, h: seq<real>)
    requires n > 0 && |h| > 0 && RsiSmma(n, h).Some?
    ensures 0.0 <= RsiSmma(n, h).value <= 100.0
  {
    var ups, downs := Ups(h, UpSeed), Downs(h, DownSeed);
    MovesNonNegative(h, UpSeed, DownSeed);
    SmoothedOrModifiedMovingAverage.SmmaIsEma(n, ups);
    SmoothedOrModifiedMovingAverage.SmmaIsEma(n, downs);
    var k := 1.0 / (n as real);
    ExponentialMovingAverage.EmaNonNegative(k, ups);
    ExponentialMovingAverage.EmaNonNegative(k, downs);
    RatioBounds(SmoothedOrModifiedMovingAverage.Smma(n, ups), SmoothedOrModifiedMovingAverage.Smma(n, downs));
  }

  /** From a length of 2 on, part of the seeds always survives, so the index is defined. */
  lemma RsiSmmaDefined(n: nat, h: seq<real>)
    requires n >= 2 && |h| > 0
    ensures RsiSmma(n, h).Some?
  {
    var ups, downs := Ups(h, UpSeed), Downs(h, DownSeed);
    MovesNonNegative(h, UpSeed, DownSeed);
    SmoothedOrModifiedMovingAverage.SmmaIsEma(n, ups);
    SmoothedOrModifiedMovingAverage.SmmaIsEma(n, downs);
    ExponentialMovingAverage.EmaSumPositive(1.0 / (n as real), ups, downs);
  }

  /** A length of 1 passes the raw moves through, so a flat input divides zero by zero. */
  lemma RsiSmmaFlatLengthOne()
    ensures RsiSmma(1, [10.0, 10.0]) == None
  {
    assert Ups([10.0, 10.0], UpSeed) == [UpSeed, 0.0];
    assert Downs([10.0, 10.0], DownSeed) == [DownSeed, 0.0];
    SmoothedOrModifiedMovingAverage.SmmaLengthOne([UpSeed, 0.0]);
    SmoothedOrModifiedMovingAverage.SmmaLengthOne([DownSeed, 0.0]);
  }

  class RelativeStrengthIndexSmma {
    const n: nat
    const upSmma: SmoothedOrModifiedMovingAverage.SmoothedOrModifiedMovingAverage
    const downSmma: SmoothedOrModifiedMovingAverage.SmoothedOrModifiedMovingAverage
    var prevVal: real
    var isNew: bool
    /** The inputs since construction or the last reset. */
    ghost var history: seq<real>

    ghost predicate Valid()
      reads this, upSmma, downSmma
    {
      n > 0 && upSmma != downSmma &&
      upSmma.Valid() && downSmma.Valid() && upSmma.length == n && downSmma.length == n &&
      upSmma.history == Ups(history, UpSeed) && downSmma.history == Downs(history, DownSeed) &&
      (isNew <==> history == []) &&
      (isNew ==> prevVal == 0.0) &&
      (!isNew ==> prevVal == history[|history| - 1])
    }

    constructor Init(n: nat)
      requires n > 0
      ensures Valid() && fresh(upSmma) && fresh(downSmma) && history == [] && this.n == n
    {
      this.n := n;
      upSmma := new SmoothedOrModifiedMovingAverage.SmoothedOrModifiedMovingAverage.Init(n);
      downSmma := new SmoothedOrModifiedMovingAverage.SmoothedOrModifiedMovingAverage.Init(n);
      prevVal, isNew := 0.0, true;
      history := [];
    }

    /** A length of zero is rejected by the averages inside. */
    static method New(n: nat) returns (r: Result<RelativeStrengthIndexSmma>)
      ensures r.Err? <==> n == 0
      ensures r.Err? ==> r.error == InvalidParameter
      ensures r.Ok? ==> fresh(r.value) && fresh(r.value.upSmma) && fresh(r.value.downSmma)
      ensures r.Ok? ==> r.value.Valid() && r.value.history == [] && r.value.n == n
    {
      var e := SmoothedOrModifiedMovingAverage.SmoothedOrModifiedMovingAverage.New(n);
      if e.Err? {
        return Err(e.error);
      }
      var rsi := new RelativeStrengthIndexSmma.Init(n);
      return Ok(rsi);
    }

    static method Default() returns (rsi: RelativeStrengthIndexSmma)
      ensures fresh(rsi) && fresh(rsi.upSmma) && fresh(rsi.downSmma)
      ensures rsi.Valid() && rsi.history == [] && rsi.n == 14
    {
      rsi := new RelativeStrengthIndexSmma.Init(14);
    }

    /** Splits the move from the previous input into a gain and a loss, smooths each,
        and returns the share of gains. */
    method Next(input: real) returns (r: Option<real>)
      requires Valid()
      modifies this, upSmma, downSmma
      ensures Valid() && history == old(history) + [input]
      ensures r == RsiSmma(n, history)
    {
      ghost var h := history;
      var up, down := 0.0, 0.0;
      if isNew {
        isNew := false;
        up, down := UpSeed, DownSeed;
      } else if input > prevVal {
        up := input - prevVal;
      } else if input < prevVal {
        down := prevVal - input;
      }
      prevVal := input;
      history := h + [input];
      UpsAppend(h, input, UpSeed);
      UpsAppend(h, input, DownSeed);
      assert up == (if |h| == 0 then UpSeed else Gain(h[|h| - 1], input));
      assert down == (if |h| == 0 then DownSeed else Loss(h[|h| - 1], input));
      assert Ups(history, UpSeed) == upSmma.history + [up];
      assert Downs(history, DownSeed) == downSmma.history + [down];
      var upAvg := upSmma.Next(up);
      assert upSmma.history == Ups(history, UpSeed);
      var downAvg := downSmma.Next(down);
      assert downSmma.history == Downs(history, DownSeed);
      r := Ratio(upAvg, downAvg);
      RsiSmmaOf(n, history, upAvg, downAvg);
    }

    /** A bar's contribution is its close. */
    method NextBar(bar: DataItem) returns (r: Option<real>)
      requires Valid()
      modifies this, upSmma, downSmma
      ensures Valid() && history == old(history) + [bar.close]
      ensures r == RsiSmma(n, history)
    {
      r := Next(bar.close);
    }

    method Reset()
      requires Valid()
      modifies this, upSmma, downSmma
      ensures Valid() && history == [] && isNew && prevVal == 0.0
    {
      isNew := true;
      prevVal := 0.0;
      upSmma.Reset();
      downSmma.Reset();
      history := [];
    }
  }
}
