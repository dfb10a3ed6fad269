/** Heikin-Ashi candles: each candle's close is the average of the real bar's four
    prices, its open the midpoint of the previous candle's body, and its high and low
    stretch to cover both the real extremes and the new body. */
module HeikinAshi {
  import opened Wrappers
  import opened DataItems

  datatype HeikinAshiColor = Green | Red

  datatype HeikinAshiCandle = HeikinAshiCandle(open: real, close: real, high: real, low: real,
                                               color: HeikinAshiColor)

  /** The part of the last candle the next one starts from. */
  datatype PreviousValues = PreviousValues(open: real, close: real)

  /** The larger of the two; the second when they are equal. */
  function PartialMax(a: real, b: real): (r: real)
    ensures r >= a && r >= b && (r == a || r == b)
  {
    if a > b then a else b
  }

  /** The smaller of the two; the second when they are equal. */
  function PartialMin(a: real, b: real): (r: real)
    ensures r <= a && r <= b && (r == a || r == b)
  {
    if a < b then a else b
  }

  /** The candle for a bar, after the candle whose body prev records, if any. */
  function Candle(prev: Option<PreviousValues>, bar: DataItem): (c: HeikinAshiCandle)
    ensures prev.None? ==> c.open == bar.close
    ensures prev.Some? ==> c.open == (prev.value.open + prev.value.close) / 2.0
    ensures c.close == (bar.open + bar.close + bar.high + bar.low) / 4.0
    ensures c.low <= c.open <= c.high && c.low <= c.close <= c.high
    ensures c.low <= bar.low && bar.high <= c.high
    ensures c.high == bar.high || c.high == c.open || c.high == c.close
    ensures c.low == bar.low || c.low == c.open || c.low == c.close
    ensures c.color == Green <==> c.open < c.close
  {
    var open := if prev.Some? then (prev.value.open + prev.value.close) / 2.0 else bar.close;
    var close := (bar.open + bar.close + bar.high + bar.low) / 4.0;
    HeikinAshiCandle(open, close,
                     PartialMax(PartialMax(bar.high, open), close),
                     PartialMin(PartialMin(bar.low, open), close),
                     if open < close then Green else Red)
  }

  /** The body a candle passes on to the next one. */
  function Body(c: HeikinAshiCandle): PreviousValues
  {
    PreviousValues(c.open, c.close)
  }

  /** The candles for the bars, in order, each starting from the one before. */
  function Candles(bars: seq<DataItem>): (cs: seq<HeikinAshiCandle>)
    ensures |cs| == |bars|
  {
    if bars == [] then []
    else
      var before := Candles(bars[..|bars| - 1]);
      before + [Candle(Last(before), bars[|bars| - 1])]
  }

  /** The body of the last candle, or None before the first. */
  function Last(cs: seq<HeikinAshiCandle>): (p: Option<PreviousValues>)
    ensures p.None? <==> cs == []
    ensures cs != [] ==> p.value == Body(cs[|cs| - 1])
  {
    if cs == [] then None else Some(Body(cs[|cs| - 1]))
  }

  /** One more bar adds one candle, started from the body of the last one. */
  lemma CandlesAppend(bars: seq<DataItem>, bar: DataItem)
    ensures Candles(bars + [bar]) == Candles(bars) + [Candle(Last(Candles(bars)), bar)]
  {
    assert (bars + [bar])[..|bars|] == bars;
  }

  /** Every candle after the first opens at the midpoint of the previous body, so
      between the previous open and close. */
  lemma {:induction false} OpenBetweenPreviousBody(bars: seq<DataItem>, i: nat)
    requires 0 < i < |bars|
    ensures var cs := Candles(bars);
      (cs[i - 1].open <= cs[i].open <= cs[i - 1].close) ||
      (cs[i - 1].close <= cs[i].open <= cs[i - 1].open)
  {
    if i < |bars| - 1 {
      var init := bars[..|bars| - 1];
      OpenBetweenPreviousBody(init, i);
      assert Candles(bars)[..|init|] == Candles(init);
    }
  }

  /** A consistent bar gives a candle whose close lies within the real bar. */
  lemma CloseWithinBar(prev: Option<PreviousValues>, bar: DataItem)
    requires bar.low <= bar.open <= bar.high && bar.low <= bar.close <= bar.high
    ensures bar.low <= Candle(prev, bar).close <= bar.high
  {
  }

  class HeikinAshi {
    var prev: Option<PreviousValues>
    /** The bars since construction or the last reset. */
    ghost var history: seq<DataItem>

    ghost predicate Valid()
      reads this
    {
      prev == Last(Candles(history))
    }

    constructor ()
      ensures Valid() && history == [] && prev.None?
    {
      prev := None;
      history := [];
    }

    static method Default() returns (h: HeikinAshi)
      ensures h.Valid() && h.history == [] && h.prev.None?
      ensures fresh(h)
    {
      h := new HeikinAshi();
    }

    /** The candle for the bar; it becomes the previous candle. */
    method Next(input: DataItem) returns (r: HeikinAshiCandle)
      requires Valid()
      modifies this
      ensures Valid() && history == old(history) + [input]
      ensures r == Candle(old(prev), input)
      ensures r == Candles(history)[|history| - 1]
      ensures prev == Some(PreviousValues(r.open, r.close))
    {
      ghost var h, p := history, prev;
      var open: real;
      if prev.Some? {
        open := (prev.value.open + prev.value.close) / 2.0;
      } else {
        open := input.close;
      }
      var close := (input.open + input.close + input.high + input.low) / 4.0;
      prev := Some(PreviousValues(open, close));
      var color := if open < close then Green else Red;
      r := HeikinAshiCandle(open, close,
                            PartialMax(PartialMax(input.high, open), close),
                            PartialMin(PartialMin(input.low, open), close),
                            color);
      assert r == Candle(p, input);
      CandlesAppend(h, input);
      history := h + [input];
    }

    /** Forgets the previous candle: the next one again opens at its real close. */
    method Reset()
      modifies this
      ensures Valid() && history == [] && prev.None?
    {
      prev := None;
      history := [];
    }
  }

  /** The three test bars: (open, close, high, low) of the candles are (20, 15, 20, 10),
      (17.5, 18, 25, 12) and (17.75, 10.5, 17.75, 5). */
  lemma HeikinAshiTestExample()
    ensures var c := Candle(None, DataItem(10.0, 20.0, 10.0, 20.0, 0.0));
      c.open == 20.0 && c.close == 15.0 && c.high == 20.0 && c.low == 10.0 && c.color == Red
    ensures var c := Candle(Some(PreviousValues(20.0, 15.0)), DataItem(20.0, 25.0, 12.0, 15.0, 0.0));
      c.open == 17.5 && c.close == 18.0 && c.high == 25.0 && c.low == 12.0 && c.color == Green
    ensures var c := Candle(Some(PreviousValues(17.5, 18.0)), DataItem(15.0, 17.0, 5.0, 5.0, 0.0));
      c.open == 17.75 && c.close == 10.5 && c.high == 17.75 && c.low == 5.0 && c.color == Red
  {
  }
}
