/** The relative strength index: the share of the averaged upward moves in the averaged
    total moves, in percent. */
module RelativeStrengthIndex {
  import opened Wrappers
  import opened DataItems
  import ExponentialMovingAverage

  /** The move both averages receive for the first sample. */
  const Seed: real := 0.1

  /** The upward part of the move from p to x. */
  function Gain(p: real, x: real): (u: real)
    ensures u >= 0.0
  {
    if x > p then x - p else 0.0
  }

  /** The downward part of the move from p to x. */
  function Loss(p: real, x: real): (d: real)
    ensures d >= 0.0
  {
    if x < p then p - x else 0.0
  }

  /** A move is split into a gain and a loss: one of them is zero and their difference
      is the move. */
  lemma GainLossSplit(p: real, x: real)
    ensures Gain(p, x) == 0.0 || Loss(p, x) == 0.0
    ensures Gain(p, x) - Loss(p, x) == x - p
  {
  }

  /** The upward moves fed to the upper average, one per input; the first is a seed. */
  function Ups(h: seq<real>, seed: real): (u: seq<real>)
    ensures |u| == |h|
  {
    seq(|h|, i requires 0 <= i < |h| => if i == 0 then seed else Gain(h[i - 1], h[i]))
  }

  /** The downward moves fed to the lower average, one per input; the first is a seed. */
  function Downs(h: seq<real>, seed: real): (d: seq<real>)
    ensures |d| == |h|
  {
    seq(|h|, i requires 0 <= i < |h| => if i == 0 then seed else Loss(h[i - 1], h[i]))
  }

  lemma UpsAppend(h: seq<real>, x: real, seed: real)
    ensures Ups(h + [x], seed) == Ups(h, seed) + [if |h| == 0 then seed else Gain(h[|h| - 1], x)]
    ensures Downs(h + [x], seed) == Downs(h, seed) + [if |h| == 0 then seed else Loss(h[|h| - 1], x)]
  {
  }

  /** With a seed that is not negative, no move is negative. */
  lemma MovesNonNegative(h: seq<real>, seedUp: real, seedDown: real)
    requires seedUp >= 0.0 && seedDown >= 0.0
    ensures forall i :: 0 <= i < |h| ==> Ups(h, seedUp)[i] >= 0.0 && Downs(h, seedDown)[i] >= 0.0
  {
  }

  /** The index as a percentage of two averages, or None when both are zero and the
      division fails. */
  function Ratio(up: real, down: real): Option<real>
  {
    if up + down == 0.0 then None else Some(100.0 * up / (up + down))
  }

  /** For averages that are not negative, the index lies in [0, 100]. */
  lemma RatioBounds(up: real, down: real)
    requires up >= 0.0 && down >= 0.0 && up + down > 0.0
    ensures Ratio(up, down).Some? && 0.0 <= Ratio(up, down).value <= 100.0
  {
    Fraction(up, up + down);
  }

  lemma Fraction(a: real, s: real)
    requires 0.0 <= a <= s && s > 0.0
    ensures 0.0 <= 100.0 * a / s <= 100.0
  {
    var q := 100.0 * a / s;
    assert q * s == 100.0 * a;
    assert 0.0 <= q <= 100.0;
  }

  /** The index after the inputs h, for a length n. */
  function Rsi(n: nat, h: seq<real>): Option<real>
    requires n > 0 && |h| > 0
  {
    var k := ExponentialMovingAverage.Alpha(n);
    Ratio(ExponentialMovingAverage.Ema(k, Ups(h, Seed)), ExponentialMovingAverage.Ema(k, Downs(h, Seed)))
  }

  /** The index read off the two averages. */
  lemma RsiOf(n: nat, h: seq<real>, up: real, down: real)
    requires n > 0 && |h| > 0
    requires up == ExponentialMovingAverage.Ema(ExponentialMovingAverage.Alpha(n), Ups(h, Seed))
    requires down == ExponentialMovingAverage.Ema(ExponentialMovingAverage.Alpha(n), Downs(h, Seed))
    ensures Rsi(n, h) == Ratio(up, down)
  {
  }

  /** The first sample gives exactly 50. */
  lemma RsiFirst(n: nat, x: real)
    requires n > 0
    ensures Rsi(n, [x]) == Some(50.0)
  {
  }

  /** Whenever the index is defined, it lies in [0, 100]. */
  lemma RsiBounds(n: nat, h: seq<real>)
    requires n > 0 && |h| > 0 && Rsi(n, h).Some?
    ensures 0.0 <= Rsi(n, h).value <= 100.0
  {
    var k := ExponentialMovingAverage.Alpha(n);
    MovesNonNegative(h, Seed, Seed);
    ExponentialMovingAverage.EmaNonNegative(k, Ups(h, Seed));
    ExponentialMovingAverage.EmaNonNegative(k, Downs(h, Seed));
    RatioBounds(ExponentialMovingAverage.Ema(k, Ups(h, Seed)), ExponentialMovingAverage.Ema(k, Downs(h, Seed)));
  }

  /** From a length of 2 on, part of the seeds always survives, so the index is defined. */
  lemma RsiDefined(n: nat, h: seq<real>)
    requires n >= 2 && |h| > 0
    ensures Rsi(n, h).Some?
  {
    var k := ExponentialMovingAverage.Alpha(n);
    MovesNonNegative(h, Seed, Seed);
    ExponentialMovingAverage.EmaSumPositive(k, Ups(h, Seed), Downs(h, Seed));
  }

  /** With a length of 1 the seeds are forgotten at once, and a flat input divides zero
      by zero. */
  lemma RsiFlatLengthOne()
    ensures Rsi(1, [10.0, 10.0]) == None
  {
    assert Ups([10.0, 10.0], Seed) == [Seed, 0.0];
    assert Downs([10.0, 10.0], Seed) == [Seed, 0.0];
    ExponentialMovingAverage.EmaLengthOne([Seed, 0.0]);
  }

  /** The documented second output for a length of 3: 600/7, about 85.7. */
  lemma RsiDocExample()
    ensures Rsi(3, [10.0, 10.5]) == Some(600.0 / 7.0)
  {
    assert Ups([10.0, 10.5], Seed) == [0.1, 0.5];
    assert Downs([10.0, 10.5], Seed) == [0.1, 0.0];
    assert [0.1, 0.5][..1] == [0.1] && [0.1, 0.0][..1] == [0.1];
  }

  class RelativeStrengthIndex {
    const n: nat
    const upEma: ExponentialMovingAverage.ExponentialMovingAverage
    const downEma: ExponentialMovingAverage.ExponentialMovingAverage
    var prevVal: real
    var isNew: bool
    /** The inputs since construction or the last reset. */
    ghost var history: seq<real>

    ghost predicate Valid()
      reads this, upEma, downEma
    {
      n > 0 && upEma != downEma &&
      upEma.Valid() && downEma.Valid() && upEma.length == n && downEma.length == n &&
      upEma.history == Ups(history, Seed) && downEma.history == Downs(history, Seed) &&
      (isNew <==> history == []) &&
      (isNew ==> prevVal == 0.0) &&
      (!isNew ==> prevVal == history[|history| - 1])
    }

    constructor Init(n: nat)
      requires n > 0
      ensures Valid() && fresh(upEma) && fresh(downEma) && history == [] && this.n == n
    {
      this.n := n;
      upEma := new ExponentialMovingAverage.ExponentialMovingAverage.Init(n);
      downEma := new ExponentialMovingAverage.ExponentialMovingAverage.Init(n);
      prevVal, isNew := 0.0, true;
      history := [];
    }

    /** A length of zero is rejected by the averages inside. */
    static method New(n: nat) returns (r: Result<RelativeStrengthIndex>)
      ensures r.Err? <==> n == 0
      ensures r.Err? ==> r.error == InvalidParameter
      ensures r.Ok? ==> fresh(r.value) && fresh(r.value.upEma) && fresh(r.value.downEma)
      ensures r.Ok? ==> r.value.Valid() && r.value.history == [] && r.value.n == n
    {
      var e := ExponentialMovingAverage.ExponentialMovingAverage.New(n);
      if e.Err? {
        return Err(e.error);
      }
      var rsi := new RelativeStrengthIndex.Init(n);
      return Ok(rsi);
    }

    static method Default() returns (rsi: RelativeStrengthIndex)
      ensures fresh(rsi) && fresh(rsi.upEma) && fresh(rsi.downEma)
      ensures rsi.Valid() && rsi.history == [] && rsi.n == 14
    {
      rsi := new RelativeStrengthIndex.Init(14);
    }

    /** Splits the move from the previous input into a gain and a loss, averages each,
        and returns the share of gains. */
    method Next(input: real) returns (r: Option<real>)
      requires Valid()
      modifies this, upEma, downEma
      ensures Valid() && history == old(history) + [input]
      ensures r == Rsi(n, history)
    {
      ghost var h := history;
      var up, down := 0.0, 0.0;
      if isNew {
        isNew := false;
        up, down := Seed, Seed;
      } else if input > prevVal {
        up := input - prevVal;
      } else {
        down := prevVal - input;
      }
      prevVal := input;
      history := h + [input];
      UpsAppend(h, input, Seed);
      assert up == (if |h| == 0 then Seed else Gain(h[|h| - 1], input));
      assert down == (if |h| == 0 then Seed else Loss(h[|h| - 1], input));
      assert Ups(history, Seed) == upEma.history + [up];
      assert Downs(history, Seed) == downEma.history + [down];
      var upAvg := upEma.Next(up);
      assert upEma.history == Ups(history, Seed);
      var downAvg := downEma.Next(down);
      assert downEma.history == Downs(history, Seed);
      r := Ratio(upAvg, downAvg);
      RsiOf(n, history, upAvg, downAvg);
    }

    /** A bar's contribution is its close. */
    method NextBar(bar: DataItem) returns (r: Option<real>)
      requires Valid()
      modifies this, upEma, downEma
      ensures Valid() && history == old(history) + [bar.close]
      ensures r == Rsi(n, history)
    {
      r := Next(bar.close);
    }

    method Reset()
      requires Valid()
      modifies this, upEma, downEma
      ensures Valid() && history == [] && isNew && prevVal == 0.0
    {
      isNew := true;
      prevVal := 0.0;
      upEma.Reset();
      downEma.Reset();
      history := [];
    }
  }
}
