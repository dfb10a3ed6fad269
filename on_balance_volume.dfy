/** On-balance volume: a running total that adds a bar's volume when the close rises
    and subtracts it when the close falls. */
module OnBalanceVolume {
  import opened DataItems

  /** What one bar contributes, given the previous close. */
  function Flow(prev: real, bar: DataItem): (f: real)
    ensures bar.close > prev ==> f == bar.volume
    ensures bar.close < prev ==> f == -bar.volume
    ensures bar.close == prev ==> f == 0.0
  {
    if bar.close > prev then bar.volume
    else if bar.close < prev then -bar.volume
    else 0.0
  }

  /** The close the next bar is compared with: that of the last bar, or 0 at the start. */
  function LastClose(bars: seq<DataItem>): real
  {
    if |bars| == 0 then 0.0 else bars[|bars| - 1].close
  }

  /** The total after the bars: the sum of their flows. */
  function Obv(bars: seq<DataItem>): real
  {
    if |bars| == 0 then 0.0
    else Obv(bars[..|bars| - 1]) + Flow(LastClose(bars[..|bars| - 1]), bars[|bars| - 1])
  }

  /** The total volume of the bars. */
  function Volume(bars: seq<DataItem>): real
  {
    if |bars| == 0 then 0.0 else Volume(bars[..|bars| - 1]) + bars[|bars| - 1].volume
  }

  /** One more bar adds its flow against the close before it. */
  lemma ObvAppend(bars: seq<DataItem>, bar: DataItem)
    ensures Obv(bars + [bar]) == Obv(bars) + Flow(LastClose(bars), bar)
    ensures LastClose(bars + [bar]) == bar.close
    ensures Volume(bars + [bar]) == Volume(bars) + bar.volume
  {
    assert (bars + [bar])[..|bars|] == bars;
  }

  /** With volumes that are not negative the total never exceeds the volume traded, in
      either direction. */
  lemma {:induction false} ObvBound(bars: seq<DataItem>)
    requires forall i :: 0 <= i < |bars| ==> bars[i].volume >= 0.0
    ensures -Volume(bars) <= Obv(bars) <= Volume(bars)
  {
    if |bars| > 0 {
      ObvBound(bars[..|bars| - 1]);
    }
  }

  class OnBalanceVolume {
    var obv: real
    var prevClose: real
    /** The bars since construction or the last reset. */
    ghost var history: seq<DataItem>

    ghost predicate Valid()
      reads this
    {
      obv == Obv(history) && prevClose == LastClose(history)
    }

    constructor ()
      ensures Valid() && history == [] && obv == 0.0 && prevClose == 0.0
    {
      obv, prevClose := 0.0, 0.0;
      history := [];
    }

    static method Default() returns (o: OnBalanceVolume)
      ensures fresh(o) && o.Valid() && o.history == []
    {
      o := new OnBalanceVolume();
    }

    /** Adds the bar's flow to the total and returns the total. */
    method Next(bar: DataItem) returns (r: real)
      requires Valid()
      modifies this
      ensures Valid() && history == old(history) + [bar]
      ensures r == obv && r == Obv(history)
      ensures prevClose == bar.close
    {
      ObvAppend(history, bar);
      if bar.close > prevClose {
        obv := obv + bar.volume;
      } else if bar.close < prevClose {
        obv := obv - bar.volume;
      }
      prevClose := bar.close;
      history := history + [bar];
      r := obv;
    }

    method Reset()
      requires Valid()
      modifies this
      ensures Valid() && history == [] && obv == 0.0 && prevClose == 0.0
    {
      obv, prevClose := 0.0, 0.0;
      history := [];
    }
  }

  /** The test bars: closes 1.5, 5, 4, 4 with volumes 1000, 5000, 9000, 4000. */
  const TestBars: seq<DataItem> := [
    DataItem(0.0, 0.0, 0.0, 1.5, 1000.0), DataItem(0.0, 0.0, 0.0, 5.0, 5000.0),
    DataItem(0.0, 0.0, 0.0, 4.0, 9000.0), DataItem(0.0, 0.0, 0.0, 4.0, 4000.0)]

  /** The first close is compared with 0; a rise adds, a fall subtracts, an unchanged
      close leaves the total alone. */
  lemma ObvTestExample()
    ensures Obv(TestBars[..1]) == 1000.0
    ensures Obv(TestBars[..2]) == 6000.0
    ensures Obv(TestBars[..3]) == -3000.0
    ensures Obv(TestBars) == -3000.0
  {
    var b0, b1, b2, b3 := TestBars[0], TestBars[1], TestBars[2], TestBars[3];
    ObvAppend([], b0);
    assert [] + [b0] == [b0] == TestBars[..1];
    assert Obv([b0]) == 1000.0;
    ObvAppend([b0], b1);
    assert [b0] + [b1] == [b0, b1] == TestBars[..2];
    assert Obv([b0, b1]) == 6000.0;
    ObvAppend([b0, b1], b2);
    assert [b0, b1] + [b2] == [b0, b1, b2] == TestBars[..3];
    assert Obv([b0, b1, b2]) == -3000.0;
    ObvAppend([b0, b1, b2], b3);
    assert [b0, b1, b2] + [b3] == TestBars;
  }

  /** The doc example's two bars: closes 2 and 1.5 with volumes 1000 and 300. */
  const DocBars: seq<DataItem> := [DataItem(1.5, 3.0, 1.0, 2.0, 1000.0), DataItem(1.5, 3.0, 1.0, 1.5, 300.0)]

  /** The doc example: the first bar's close rises from 0 and the second one falls. */
  lemma ObvDocExample()
    ensures Obv(DocBars[..1]) == 1000.0
    ensures Obv(DocBars) == 700.0
  {
    var b0, b1 := DocBars[0], DocBars[1];
    ObvAppend([], b0);
    assert [] + [b0] == [b0] == DocBars[..1];
    ObvAppend([b0], b1);
    assert [b0] + [b1] == DocBars;
  }

  /** The reset test's bars: closes 1.5, 4, 8 with volumes 1000, 2000, 3000. */
  const ResetBars: seq<DataItem> := [
    DataItem(0.0, 0.0, 0.0, 1.5, 1000.0), DataItem(0.0, 0.0, 0.0, 4.0, 2000.0),
    DataItem(0.0, 0.0, 0.0, 8.0, 3000.0)]

  /** The reset test: three rising closes give 1000, 3000, 6000, and since a reset empties
      the history the same bars give the same totals again. */
  lemma ObvResetExample()
    ensures Obv(ResetBars[..1]) == 1000.0
    ensures Obv(ResetBars[..2]) == 3000.0
    ensures Obv(ResetBars) == 6000.0
  {
    var b0, b1, b2 := ResetBars[0], ResetBars[1], ResetBars[2];
    ObvAppend([], b0);
    assert [] + [b0] == [b0] == ResetBars[..1];
    assert Obv([b0]) == 1000.0;
    ObvAppend([b0], b1);
    assert [b0] + [b1] == [b0, b1] == ResetBars[..2];
    assert Obv([b0, b1]) == 3000.0;
    ObvAppend([b0, b1], b2);
    assert [b0, b1] + [b2] == ResetBars;
  }
}
