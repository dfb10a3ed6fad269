/** Ichimoku Kinko Hyo: a ring of rows, one per period, that keeps the last bars and
    draws into it the turning line (tenkan-sen), the base line (kijun-sen), the two
    leading spans of the cloud (senkou spans A and B, plotted ahead of the present),
    the lagging span (chikou span, the latest close plotted back) and the cloud colour. */
module Ichimoku {
  import opened Wrappers
  import opened Windows
  import opened DataItems

  datatype KumoColor = Green | Red

  /** One row of the chart. Every field starts unset. */
  datatype IchimokuOutput = IchimokuOutput(
    close: Option<real>, high: Option<real>, low: Option<real>,
    tenkanSen: Option<real>, kijunSen: Option<real>,
    senkouSpanA: Option<real>, senkouSpanB: Option<real>,
    chikouSpan: Option<real>, kumoColor: Option<KumoColor>)

  /** The row with every field unset. */
  const DefaultOutput := IchimokuOutput(None, None, None, None, None, None, None, None, None)

  // ---------------------------------------------------------------------------------
  // The ring: a vector read from a moving start

  /** The logical view of a vector whose logical slot 0 is physical slot start. */
  function Rotated<T>(a: seq<T>, start: nat): (r: seq<T>)
    requires start <= |a|
    ensures |r| == |a|
  {
    a[start..] + a[..start]
  }

  /** Past the end of the vector the physical index wraps around once. */
  lemma WrapOnce(x: nat, n: nat)
    requires 0 < n && x < 2 * n
    ensures x % n == if x < n then x else x - n
  {
    if x >= n {
      assert x == n + (x - n) && 0 <= x - n < n;
      assert x / n == 1;
    }
  }

  /** Logical slot i is physical slot (start + i) mod the length. */
  lemma RotatedIndex<T>(a: seq<T>, start: nat, i: nat)
    requires start < |a| && i < |a|
    ensures Rotated(a, start)[i] == a[(start + i) % |a|]
  {
    WrapOnce(start + i, |a|);
  }

  /** Writing the physical slot behind logical slot i writes logical slot i. */
  lemma RotatedUpdate<T>(a: seq<T>, start: nat, i: nat, v: T)
    requires start < |a| && i < |a|
    ensures Rotated(a[(start + i) % |a| := v], start) == Rotated(a, start)[i := v]
  {
    var n := |a|;
    var p := (start + i) % n;
    WrapOnce(start + i, n);
    var x, y := Rotated(a[p := v], start), Rotated(a, start)[i := v];
    forall j | 0 <= j < n
      ensures x[j] == y[j]
    {
      RotatedIndex(a[p := v], start, j);
      RotatedIndex(a, start, j);
      WrapOnce(start + j, n);
    }
  }

  /** Blanking the first physical slot and moving the start past it drops the first
      logical slot and appends a blank one. */
  lemma RotatedShift<T>(a: seq<T>, start: nat, blank: T)
    requires start < |a|
    ensures Rotated(a[start := blank], (start + 1) % |a|) == Rotated(a, start)[1..] + [blank]
  {
    var n := |a|;
    var b := a[start := blank];
    WrapOnce(start + 1, n);
    if start + 1 < n {
      assert b[start + 1..] == a[start + 1..];
      assert b[..start + 1] == a[..start] + [blank];
      assert Rotated(a, start)[1..] == a[start + 1..] + a[..start];
    } else {
      assert b == a[..start] + [blank];
      assert Rotated(a, start)[1..] == a[..start];
    }
  }

  /** A queue of fixed capacity whose shift drops the first element in constant time. */
  class CircularQueue<T> {
    const capacity: nat
    const blank: T
    var shl: nat
    const data: array<T>
    /** The elements in logical order. */
    ghost var contents: seq<T>
    ghost var Repr: set<object>

    ghost predicate Valid()
      reads this, Repr
      ensures Valid() ==> this in Repr && |contents| == capacity
    {
      Repr == {this, data} && data.Length == capacity && (shl < capacity || shl == 0) &&
      contents == Rotated(data[..], shl)
    }

    /** A queue of length elements, all the default value. */
    constructor Init(length: nat, blank: T)
      ensures Valid() && fresh(Repr) && capacity == length && this.blank == blank
      ensures forall i :: 0 <= i < capacity ==> contents[i] == blank
    {
      capacity := length;
      this.blank := blank;
      shl := 0;
      var a := new T[length](_ => blank);
      data := a;
      Repr := {this, a};
      contents := Rotated(a[..], 0);
    }

    /** Drops the first element and appends a default one. */
    method Shl()
      requires Valid() && capacity > 0
      modifies Repr
      ensures Valid() && Repr == old(Repr)
      ensures contents == old(contents)[1..] + [blank]
    {
      ghost var a := data[..];
      ghost var start := shl;
      data[shl] := blank;
      shl := (shl + 1) % capacity;
      assert data[..] == a[start := blank];
      RotatedShift(a, start, blank);
      contents := contents[1..] + [blank];
    }

    /** The element at a logical index; an index past the capacity is out of bound. */
    function At(idx: nat): (r: Result<T>)
      requires Valid()
      reads this, Repr
      ensures r.Err? <==> idx >= capacity
      ensures r.Err? ==> r.error == OutOfBound
      ensures r.Ok? ==> r.value == contents[idx]
    {
      if idx >= capacity then Err(OutOfBound)
      else
        RotatedIndex(data[..], shl, idx);
        Ok(data[(shl + idx) % capacity])
    }

    /** Changes the element at a logical index in place by f; an index past the
        capacity is out of bound and changes nothing. */
    method Modify(idx: nat, f: T -> T) returns (r: Result<()>)
      requires Valid()
      modifies Repr
      ensures Valid() && Repr == old(Repr)
      ensures r.Err? <==> idx >= capacity
      ensures r.Err? ==> r.error == OutOfBound
      ensures contents == if r.Ok? then old(contents)[idx := f(old(contents)[idx])] else old(contents)
    {
      if idx >= capacity {
        return Err(OutOfBound);
      }
      ghost var a := data[..];
      var p := (shl + idx) % capacity;
      RotatedIndex(a, shl, idx);
      data[p] := f(data[p]);
      assert data[..] == a[p := f(a[p])];
      RotatedUpdate(a, shl, idx, f(a[p]));
      contents := contents[idx := f(contents[idx])];
      r := Ok(());
    }
  }

  /** The queue test: four elements 1, 2, 3, 4 read back in order; each shift then
      moves the next one to the front and appends the default 0. */
  lemma CircularQueueTestExample()
    ensures Rotated([1, 2, 3, 4], 0) == [1, 2, 3, 4]
    ensures Rotated([0, 2, 3, 4], 1) == [2, 3, 4, 0]
    ensures Rotated([0, 0, 3, 4], 2)[0] == 3
    ensures Rotated([0, 0, 0, 4], 3)[0] == 4
    ensures Rotated([0, 0, 0, 0], 0)[0] == 0
  {
    RotatedShift([1, 2, 3, 4], 0, 0);
    assert [1, 2, 3, 4][0 := 0] == [0, 2, 3, 4];
  }

  // ---------------------------------------------------------------------------------
  // What a step computes

  /** The lengths the indicator accepts. */
  predicate Lengths(t: nat, k: nat, s: nat)
  {
    0 < t && t < k && k < s
  }

  function Highs(bars: seq<DataItem>): (r: seq<real>)
    ensures |r| == |bars| && forall i :: 0 <= i < |bars| ==> r[i] == bars[i].high
  {
    seq(|bars|, i requires 0 <= i < |bars| => bars[i].high)
  }

  function Lows(bars: seq<DataItem>): (r: seq<real>)
    ensures |r| == |bars| && forall i :: 0 <= i < |bars| ==> r[i] == bars[i].low
  {
    seq(|bars|, i requires 0 <= i < |bars| => bars[i].low)
  }

  /** The midpoint of the highest high and the lowest low of the last o bars. */
  function Mid(bars: seq<DataItem>, o: nat): real
    requires |bars| > 0 && o > 0
  {
    (SeqMax(Window(Highs(bars), o)) + SeqMin(Window(Lows(bars), o))) / 2.0
  }

  /** The row o with the prices of the bar written into it. */
  function WithBar(o: IchimokuOutput, bar: DataItem): IchimokuOutput
  {
    o.(close := Some(bar.close), high := Some(bar.high), low := Some(bar.low))
  }

  /** The rows after the prices of the n-th bar are stored: past s bars the rows shift
      left first; the bar goes to row n - 1, or to row s - 1 from the s-th bar on. */
  function Stored(q: seq<IchimokuOutput>, n: nat, bar: DataItem, s: nat): (r: seq<IchimokuOutput>)
    requires 0 < s < |q| && n > 0
    ensures |r| == |q|
  {
    var q1 := if n > s then q[1..] + [DefaultOutput] else q;
    var i := if n < s then n - 1 else s - 1;
    q1[i := WithBar(q1[i], bar)]
  }

  /** The rows after the lines are drawn: the turning and base lines in the present row
      s - 1, the close as the lagging span k rows back, and the two leading spans with
      the cloud colour k rows ahead. */
  function Lines(q: seq<IchimokuOutput>, k: nat, s: nat, tenkan: real, kijun: real, b: real,
                 close: real): (r: seq<IchimokuOutput>)
    requires 0 < k < s && |q| == k + s
    ensures |r| == |q|
  {
    var a := (tenkan + kijun) / 2.0;
    var q1 := q[s - 1 := q[s - 1].(tenkanSen := Some(tenkan), kijunSen := Some(kijun))];
    var q2 := q1[s - k - 1 := q1[s - k - 1].(chikouSpan := Some(close))];
    q2[s + k - 1 := q2[s + k - 1].(senkouSpanA := Some(a), senkouSpanB := Some(b),
                                   kumoColor := if a > b then Some(Green) else Some(Red))]
  }

  /** The lines drawn for the bars: midpoints over the last t, k and s bars. */
  function Drawn(q: seq<IchimokuOutput>, bars: seq<DataItem>, t: nat, k: nat, s: nat): (r: seq<IchimokuOutput>)
    requires Lengths(t, k, s) && |q| == k + s && |bars| >= s
    ensures |r| == |q|
  {
    Lines(q, k, s, Mid(bars, t), Mid(bars, k), Mid(bars, s), bars[|bars| - 1].close)
  }

  /** The rows after one step, bars ending with the bar of that step. Nothing is drawn
      until s bars have been seen. */
  function Advance(q: seq<IchimokuOutput>, bars: seq<DataItem>, t: nat, k: nat, s: nat): (r: seq<IchimokuOutput>)
    requires Lengths(t, k, s) && |q| == k + s && |bars| > 0
    ensures |r| == |q|
  {
    var q1 := Stored(q, |bars|, bars[|bars| - 1], s);
    if |bars| < s then q1 else Drawn(q1, bars, t, k, s)
  }

  // ---------------------------------------------------------------------------------
  // Where the bars are

  predicate HoldsBar(o: IchimokuOutput, bar: DataItem)
  {
    o.close == Some(bar.close) && o.high == Some(bar.high) && o.low == Some(bar.low)
  }

  predicate NoBar(o: IchimokuOutput)
  {
    o.close.None? && o.high.None? && o.low.None?
  }

  /** How many bars the rows hold after n bars: all of them, up to s. */
  function Filled(n: nat, s: nat): nat
  {
    if n < s then n else s
  }

  /** The rows hold the last bars, oldest first, from row 0 up to row s - 1; the rows
      after them hold no prices. */
  ghost predicate Layout(q: seq<IchimokuOutput>, bars: seq<DataItem>, s: nat)
  {
    s <= |q| &&
    (forall i :: 0 <= i < Filled(|bars|, s) ==> HoldsBar(q[i], bars[|bars| - Filled(|bars|, s) + i])) &&
    (forall i :: Filled(|bars|, s) <= i < |q| ==> NoBar(q[i]))
  }

  lemma LayoutEmpty(q: seq<IchimokuOutput>, s: nat)
    requires s <= |q| && forall i :: 0 <= i < |q| ==> q[i] == DefaultOutput
    ensures Layout(q, [], s)
  {
  }

  /** Storing a bar keeps the layout. */
  lemma StoredLayout(q: seq<IchimokuOutput>, bars: seq<DataItem>, bar: DataItem, s: nat)
    requires 0 < s < |q| && Layout(q, bars, s)
    ensures Layout(Stored(q, |bars| + 1, bar, s), bars + [bar], s)
  {
    var n := |bars|;
    var b := bars + [bar];
    var r := Stored(q, n + 1, bar, s);
    if n < s {
      assert Filled(n, s) == n && Filled(n + 1, s) == n + 1;
      forall i | 0 <= i < n + 1
        ensures HoldsBar(r[i], b[i])
      {
        if i < n {
          assert r[i] == q[i] && b[i] == bars[i];
        }
      }
      forall i | n + 1 <= i < |q|
        ensures NoBar(r[i])
      {
        assert r[i] == q[i];
      }
    } else {
      assert Filled(n, s) == s && Filled(n + 1, s) == s;
      forall i | 0 <= i < s
        ensures HoldsBar(r[i], b[|b| - s + i])
      {
        if i < s - 1 {
          assert r[i] == q[i + 1];
          assert b[|b| - s + i] == bars[n - s + i + 1];
        }
      }
      forall i | s <= i < |q|
        ensures NoBar(r[i])
      {
        if i < |q| - 1 {
          assert r[i] == q[i + 1];
        }
      }
    }
  }

  /** The two rows hold the same prices. */
  predicate SamePrices(o: IchimokuOutput, p: IchimokuOutput)
  {
    o.close == p.close && o.high == p.high && o.low == p.low
  }

  /** Drawing the lines leaves the prices alone. */
  lemma LinesPrices(q: seq<IchimokuOutput>, k: nat, s: nat, tenkan: real, kijun: real, b: real,
                    close: real)
    requires 0 < k < s && |q| == k + s
    ensures forall i :: 0 <= i < |q| ==> SamePrices(Lines(q, k, s, tenkan, kijun, b, close)[i], q[i])
  {
  }

  /** Before s bars have been seen a step only stores the bar. */
  lemma AdvanceStores(q: seq<IchimokuOutput>, bars: seq<DataItem>, t: nat, k: nat, s: nat)
    requires Lengths(t, k, s) && |q| == k + s && 0 < |bars| < s
    ensures Advance(q, bars, t, k, s) == Stored(q, |bars|, bars[|bars| - 1], s)
  {
  }

  /** From s bars on a step stores the bar and then draws the lines over the last
      t, k and s bars. */
  lemma AdvanceDraws(q: seq<IchimokuOutput>, bars: seq<DataItem>, t: nat, k: nat, s: nat)
    requires Lengths(t, k, s) && |q| == k + s && |bars| >= s
    ensures Advance(q, bars, t, k, s) ==
      Lines(Stored(q, |bars|, bars[|bars| - 1], s), k, s, Mid(bars, t), Mid(bars, k), Mid(bars, s),
            bars[|bars| - 1].close)
  {
  }

  /** The three writes of a drawing step, one after the other, are Lines. */
  lemma LinesSteps(q1: seq<IchimokuOutput>, q2: seq<IchimokuOutput>, q3: seq<IchimokuOutput>,
                   q4: seq<IchimokuOutput>, k: nat, s: nat, tenkan: real, kijun: real, a: real, b: real,
                   close: real)
    requires 0 < k < s && |q1| == k + s && a == (tenkan + kijun) / 2.0
    requires q2 == q1[s - 1 := q1[s - 1].(tenkanSen := Some(tenkan), kijunSen := Some(kijun))]
    requires q3 == q2[s - k - 1 := q2[s - k - 1].(chikouSpan := Some(close))]
    requires q4 == q3[s + k - 1 := q3[s + k - 1].(senkouSpanA := Some(a), senkouSpanB := Some(b),
                                    kumoColor := if a > b then Some(Green) else Some(Red))]
    ensures q4 == Lines(q1, k, s, tenkan, kijun, b, close)
  {
  }

  /** Rows with the same prices have the same layout. */
  lemma LayoutSamePrices(q: seq<IchimokuOutput>, r: seq<IchimokuOutput>, bars: seq<DataItem>, s: nat)
    requires |r| == |q| && Layout(q, bars, s)
    requires forall i :: 0 <= i < |q| ==> SamePrices(r[i], q[i])
    ensures Layout(r, bars, s)
  {
    var m := Filled(|bars|, s);
    forall i | 0 <= i < m
      ensures HoldsBar(r[i], bars[|bars| - m + i])
    {
      assert SamePrices(r[i], q[i]);
    }
    forall i | m <= i < |r|
      ensures NoBar(r[i])
    {
      assert SamePrices(r[i], q[i]);
    }
  }

  /** One step keeps the layout. */
  lemma AdvanceLayout(q: seq<IchimokuOutput>, bars: seq<DataItem>, bar: DataItem, t: nat, k: nat, s: nat)
    requires Lengths(t, k, s) && |q| == k + s && Layout(q, bars, s)
    ensures Layout(Advance(q, bars + [bar], t, k, s), bars + [bar], s)
  {
    var b := bars + [bar];
    assert b[..|b| - 1] == bars && b[|b| - 1] == bar;
    StoredLayout(q, bars, bar, s);
    var q1 := Stored(q, |b|, bar, s);
    if |b| >= s {
      var m1, m2, m3 := Mid(b, t), Mid(b, k), Mid(b, s);
      LinesPrices(q1, k, s, m1, m2, m3, bar.close);
      LayoutSamePrices(q1, Lines(q1, k, s, m1, m2, m3, bar.close), b, s);
    }
  }

  /** Once s bars have been seen, row s - o + j holds the high and the low of bar j of
      the window of the last o bars. */
  lemma LayoutSlot(q: seq<IchimokuOutput>, bars: seq<DataItem>, s: nat, o: nat, j: nat)
    requires Layout(q, bars, s) && |bars| >= s && 0 < o <= s && j < o
    ensures q[s - o + j].high == Some(Window(Highs(bars), o)[j])
    ensures q[s - o + j].low == Some(Window(Lows(bars), o)[j])
  {
    var idx := |bars| - o + j;
    assert Filled(|bars|, s) == s;
    assert |bars| - s + (s - o + j) == idx;
    assert HoldsBar(q[s - o + j], bars[idx]);
    assert Window(Highs(bars), o)[j] == Highs(bars)[idx];
    assert Window(Lows(bars), o)[j] == Lows(bars)[idx];
  }

  /** The highest of x and the high so far, if any. */
  function Higher(high: Option<real>, x: real): (r: Option<real>)
    ensures r.Some? && r.value >= x && (high.Some? ==> r.value >= high.value)
  {
    if high.None? || x > high.value then Some(x) else high
  }

  /** The lowest of x and the low so far, if any. */
  function Lower(low: Option<real>, x: real): (r: Option<real>)
    ensures r.Some? && r.value <= x && (low.Some? ==> r.value <= low.value)
  {
    if low.None? || x < low.value then Some(x) else low
  }

  /** The highest of the first n elements of w, scanned from the front; None before
      the first. */
  function RunningMax(w: seq<real>, n: nat): (r: Option<real>)
    requires n <= |w|
    ensures r.None? <==> n == 0
  {
    if n == 0 then None else Higher(RunningMax(w, n - 1), w[n - 1])
  }

  /** The lowest of the first n elements of w, scanned from the front. */
  function RunningMin(w: seq<real>, n: nat): (r: Option<real>)
    requires n <= |w|
    ensures r.None? <==> n == 0
  {
    if n == 0 then None else Lower(RunningMin(w, n - 1), w[n - 1])
  }

  /** Scanning from the front finds the maximum. */
  lemma {:induction false} RunningMaxIsMax(w: seq<real>, n: nat)
    requires 0 < n <= |w|
    ensures RunningMax(w, n) == Some(SeqMax(w[..n]))
  {
    SeqMaxPrefix(w, n - 1);
    if n > 1 {
      RunningMaxIsMax(w, n - 1);
    }
  }

  /** Scanning from the front finds the minimum. */
  lemma {:induction false} RunningMinIsMin(w: seq<real>, n: nat)
    requires 0 < n <= |w|
    ensures RunningMin(w, n) == Some(SeqMin(w[..n]))
  {
    SeqMinPrefix(w, n - 1);
    if n > 1 {
      RunningMinIsMin(w, n - 1);
    }
  }

  /** The highest high of rows lo up to hi, scanned in order; None before the first.
      A row without a price leaves it alone. */
  function Highest(q: seq<IchimokuOutput>, lo: nat, hi: nat): (r: Option<real>)
    requires lo <= hi <= |q|
    decreases hi
  {
    if hi == lo then None
    else
      var h := Highest(q, lo, hi - 1);
      if q[hi - 1].high.Some? then Higher(h, q[hi - 1].high.value) else h
  }

  /** The lowest low of rows lo up to hi, scanned in order. */
  function Lowest(q: seq<IchimokuOutput>, lo: nat, hi: nat): (r: Option<real>)
    requires lo <= hi <= |q|
    decreases hi
  {
    if hi == lo then None
    else
      var l := Lowest(q, lo, hi - 1);
      if q[hi - 1].low.Some? then Lower(l, q[hi - 1].low.value) else l
  }

  /** The rows from lo on have the highs hs and the lows ls. */
  predicate RowsHold(q: seq<IchimokuOutput>, lo: nat, hs: seq<real>, ls: seq<real>)
  {
    |hs| == |ls| && lo + |hs| <= |q| &&
    forall j :: 0 <= j < |hs| ==> q[lo + j].high == Some(hs[j]) && q[lo + j].low == Some(ls[j])
  }

  /** Scanning the first n of the rows from lo on, whose highs are hs and whose lows
      are ls, scans the first n elements of hs and ls. */
  lemma {:induction false} ScanRows(q: seq<IchimokuOutput>, lo: nat, hs: seq<real>, ls: seq<real>, n: nat)
    requires RowsHold(q, lo, hs, ls) && n <= |hs|
    ensures Highest(q, lo, lo + n) == RunningMax(hs, n)
    ensures Lowest(q, lo, lo + n) == RunningMin(ls, n)
  {
    if n > 0 {
      ScanRows(q, lo, hs, ls, n - 1);
      assert lo + n - 1 == lo + (n - 1);
      assert q[lo + (n - 1)].high == Some(hs[n - 1]) && q[lo + (n - 1)].low == Some(ls[n - 1]);
    }
  }

  /** Once s bars have been seen, the last o rows up to the present one hold the highs
      and the lows of the last o bars. */
  lemma LayoutRows(q: seq<IchimokuOutput>, bars: seq<DataItem>, s: nat, o: nat)
    requires Layout(q, bars, s) && |bars| >= s && 0 < o <= s
    ensures RowsHold(q, s - o, Window(Highs(bars), o), Window(Lows(bars), o))
  {
    var hs, ls := Window(Highs(bars), o), Window(Lows(bars), o);
    forall j | 0 <= j < o
      ensures q[s - o + j].high == Some(hs[j]) && q[s - o + j].low == Some(ls[j])
    {
      LayoutSlot(q, bars, s, o, j);
    }
  }

  /** Scanning all the rows from lo on, whose highs are hs and whose lows are ls, finds
      the highest of hs and the lowest of ls. */
  lemma ScanFull(q: seq<IchimokuOutput>, lo: nat, hi: nat, hs: seq<real>, ls: seq<real>)
    requires RowsHold(q, lo, hs, ls) && |hs| > 0 && hi == lo + |hs|
    ensures Highest(q, lo, hi) == Some(SeqMax(hs))
    ensures Lowest(q, lo, hi) == Some(SeqMin(ls))
  {
    ScanRows(q, lo, hs, ls, |hs|);
    RunningMaxIsMax(hs, |hs|);
    RunningMinIsMin(ls, |ls|);
    assert hs[..|hs|] == hs && ls[..|ls|] == ls;
  }

  /** Once s bars have been seen, scanning the last o rows up to the present one finds
      the highest high and the lowest low of the last o bars. */
  lemma ScanIsMid(q: seq<IchimokuOutput>, bars: seq<DataItem>, s: nat, o: nat)
    requires Layout(q, bars, s) && |bars| >= s && 0 < o <= s
    ensures Highest(q, s - o, s) == Some(SeqMax(Window(Highs(bars), o)))
    ensures Lowest(q, s - o, s) == Some(SeqMin(Window(Lows(bars), o)))
  {
    LayoutRows(q, bars, s, o);
    ScanFull(q, s - o, s, Window(Highs(bars), o), Window(Lows(bars), o));
  }

  // ---------------------------------------------------------------------------------
  // What a step means

  /** When every bar has its low at most its high, a midpoint lies between the lowest low
      and the highest high of its bars. */
  lemma MidBetween(bars: seq<DataItem>, o: nat)
    requires |bars| > 0 && o > 0
    requires forall i :: 0 <= i < |bars| ==> bars[i].low <= bars[i].high
    ensures SeqMin(Window(Lows(bars), o)) <= Mid(bars, o) <= SeqMax(Window(Highs(bars), o))
  {
    var hs, ls := Window(Highs(bars), o), Window(Lows(bars), o);
    var last := |bars| - 1;
    assert hs[|hs| - 1] == bars[last].high && ls[|ls| - 1] == bars[last].low;
  }

  /** Bars that all sit at one price c have every midpoint at c. */
  lemma MidConstant(bars: seq<DataItem>, o: nat, c: real)
    requires |bars| > 0 && o > 0
    requires forall i :: 0 <= i < |bars| ==> bars[i].high == c && bars[i].low == c
    ensures Mid(bars, o) == c
  {
    var hs, ls := Window(Highs(bars), o), Window(Lows(bars), o);
    WindowElements(Highs(bars), o);
    WindowElements(Lows(bars), o);
    assert hs[0] == c && ls[0] == c;
    SeqMaxUnique(hs, c);
    SeqMinUnique(ls, c);
  }

  /** What drawing writes: the turning and base lines into the present row s - 1, the
      close as the lagging span into row s - k - 1, and the leading spans into row
      s + k - 1, span A being the midpoint of the two lines, with a green cloud exactly
      when span A is above span B. No other row changes. */
  lemma LinesRows(q: seq<IchimokuOutput>, k: nat, s: nat, tenkan: real, kijun: real, b: real,
                  close: real)
    requires 0 < k < s && |q| == k + s
    ensures var r := Lines(q, k, s, tenkan, kijun, b, close);
      r[s - 1].tenkanSen == Some(tenkan) && r[s - 1].kijunSen == Some(kijun) &&
      r[s - k - 1].chikouSpan == Some(close) &&
      r[s + k - 1].senkouSpanA == Some((tenkan + kijun) / 2.0) && r[s + k - 1].senkouSpanB == Some(b) &&
      r[s + k - 1].kumoColor.Some? &&
      (r[s + k - 1].kumoColor == Some(Green) <==> (tenkan + kijun) / 2.0 > b)
    ensures var r := Lines(q, k, s, tenkan, kijun, b, close);
      forall i :: 0 <= i < |q| && i != s - 1 && i != s - k - 1 && i != s + k - 1 ==> r[i] == q[i]
  {
  }

  /** The lines drawn for the bars are the midpoints over the last t and k bars, their
      midpoint and the midpoint over the last s bars, and the latest close. */
  lemma DrawnRows(q: seq<IchimokuOutput>, bars: seq<DataItem>, t: nat, k: nat, s: nat)
    requires Lengths(t, k, s) && |q| == k + s && |bars| >= s
    ensures var r := Drawn(q, bars, t, k, s);
      r[s - 1].tenkanSen == Some(Mid(bars, t)) && r[s - 1].kijunSen == Some(Mid(bars, k)) &&
      r[s - k - 1].chikouSpan == Some(bars[|bars| - 1].close) &&
      r[s + k - 1].senkouSpanA == Some((Mid(bars, t) + Mid(bars, k)) / 2.0) &&
      r[s + k - 1].senkouSpanB == Some(Mid(bars, s))
  {
    LinesRows(q, k, s, Mid(bars, t), Mid(bars, k), Mid(bars, s), bars[|bars| - 1].close);
  }

  /** Past s bars the rows move one place towards the start before the new bar is
      written: what stood in row i + 1 now stands in row i, except in the present row,
      and the last row starts unset. */
  lemma StoredShifts(q: seq<IchimokuOutput>, n: nat, bar: DataItem, s: nat)
    requires 0 < s < |q| - 1 && n > s
    ensures var r := Stored(q, n, bar, s);
      (forall i :: 0 <= i < |q| - 1 && i != s - 1 ==> r[i] == q[i + 1]) &&
      r[|q| - 1] == DefaultOutput && r[s - 1] == WithBar(q[s], bar)
  {
  }

  /** Once s bars have been seen, a step leaves the latest bar in the present row and the
      bar k periods back, carrying the latest close as its lagging span, in row s - k - 1;
      the row of the leading spans lies in the future and holds no prices. */
  lemma AdvanceRows(q: seq<IchimokuOutput>, bars: seq<DataItem>, bar: DataItem, t: nat, k: nat, s: nat)
    requires Lengths(t, k, s) && |q| == k + s && Layout(q, bars, s) && |bars| + 1 >= s
    ensures HoldsBar(Advance(q, bars + [bar], t, k, s)[s - 1], bar)
    ensures HoldsBar(Advance(q, bars + [bar], t, k, s)[s - k - 1], bars[|bars| - k])
    ensures Advance(q, bars + [bar], t, k, s)[s - k - 1].chikouSpan == Some(bar.close)
    ensures NoBar(Advance(q, bars + [bar], t, k, s)[s + k - 1])
  {
    var b := bars + [bar];
    assert b[|b| - 1] == bar && b[|b| - 1 - k] == bars[|bars| - k];
    StoredLayout(q, bars, bar, s);
    var q1 := Stored(q, |b|, bar, s);
    assert Filled(|b|, s) == s;
    assert HoldsBar(q1[s - 1], bar);
    assert HoldsBar(q1[s - k - 1], bars[|bars| - k]);
    assert NoBar(q1[s + k - 1]);
    var m1, m2, m3 := Mid(b, t), Mid(b, k), Mid(b, s);
    var r := Lines(q1, k, s, m1, m2, m3, bar.close);
    AdvanceDraws(q, b, t, k, s);
    assert r == Advance(q, b, t, k, s);
    LinesPrices(q1, k, s, m1, m2, m3, bar.close);
    LinesRows(q1, k, s, m1, m2, m3, bar.close);
    assert SamePrices(r[s - 1], q1[s - 1]) && SamePrices(r[s - k - 1], q1[s - k - 1]);
    assert SamePrices(r[s + k - 1], q1[s + k - 1]);
  }

  /** n bars that all sit at 20. */
  function FlatBars(n: nat): (r: seq<DataItem>)
    ensures |r| == n && forall i :: 0 <= i < n ==> r[i] == DataItem(20.0, 20.0, 20.0, 20.0, 0.0)
  {
    seq(n, i => DataItem(20.0, 20.0, 20.0, 20.0, 0.0))
  }

  /** The bars of the test for lengths 2, 4 and 8: eight bars at 20 put every line at 20;
      a ninth bar from 20 up to 30 puts every midpoint at 25. */
  lemma IchimokuTestExample()
    ensures Mid(FlatBars(8), 2) == 20.0 && Mid(FlatBars(8), 4) == 20.0 && Mid(FlatBars(8), 8) == 20.0
    ensures var b := FlatBars(8) + [DataItem(20.0, 30.0, 20.0, 30.0, 0.0)];
      Mid(b, 2) == 25.0 && Mid(b, 4) == 25.0 && Mid(b, 8) == 25.0
  {
    var flat, up := FlatBars(8), DataItem(20.0, 30.0, 20.0, 30.0, 0.0);
    MidConstant(flat, 2, 20.0);
    MidConstant(flat, 4, 20.0);
    MidConstant(flat, 8, 20.0);
    MidStep(flat, up, 2);
    MidStep(flat, up, 4);
    MidStep(flat, up, 8);
  }

  /** The clouds of the same test: spans of 20 and 20 are red, and a span A of 27.5
      (lines at 30 and 25) over a span B of 25 is green. */
  lemma IchimokuCloudExample(q: seq<IchimokuOutput>)
    requires |q| == 12
    ensures Lines(q, 4, 8, 20.0, 20.0, 20.0, 20.0)[11].kumoColor == Some(Red)
    ensures Lines(q, 4, 8, 30.0, 25.0, 25.0, 30.0)[11].senkouSpanA == Some(27.5)
    ensures Lines(q, 4, 8, 30.0, 25.0, 25.0, 30.0)[11].kumoColor == Some(Green)
  {
    LinesRows(q, 4, 8, 20.0, 20.0, 20.0, 20.0);
    LinesRows(q, 4, 8, 30.0, 25.0, 25.0, 30.0);
  }

  /** After flat bars at 20, a bar with low 20 and high 30 has midpoint 25 over any
      window that ends with it. */
  lemma MidStep(flat: seq<DataItem>, up: DataItem, o: nat)
    requires 1 < o <= |flat| + 1
    requires forall i :: 0 <= i < |flat| ==> flat[i].high == 20.0 && flat[i].low == 20.0
    requires up.high == 30.0 && up.low == 20.0
    ensures Mid(flat + [up], o) == 25.0
  {
    var b := flat + [up];
    assert forall i :: 0 <= i < |b| ==> Highs(b)[i] <= 30.0 && Lows(b)[i] == 20.0 by {
      forall i | 0 <= i < |b| ensures Highs(b)[i] <= 30.0 && Lows(b)[i] == 20.0
      {
        if i < |flat| { assert b[i] == flat[i]; }
      }
    }
    WindowTop(Highs(b), o);
    WindowConstant(Lows(b), o, 20.0);
  }

  /** A window ending in the largest input has that input as its maximum. */
  lemma WindowTop(h: seq<real>, o: nat)
    requires |h| > 0 && o > 0 && forall i :: 0 <= i < |h| ==> h[i] <= h[|h| - 1]
    ensures SeqMax(Window(h, o)) == h[|h| - 1]
  {
    var w := Window(h, o);
    WindowElements(h, o);
    assert w[|w| - 1] == h[|h| - 1];
    SeqMaxUnique(w, h[|h| - 1]);
  }

  /** A window of equal inputs has that input as its minimum. */
  lemma WindowConstant(h: seq<real>, o: nat, c: real)
    requires |h| > 0 && o > 0 && forall i :: 0 <= i < |h| ==> h[i] == c
    ensures SeqMin(Window(h, o)) == c
  {
    var w := Window(h, o);
    WindowElements(h, o);
    assert w[0] == c;
    SeqMinUnique(w, c);
  }

  // ---------------------------------------------------------------------------------
  // The indicator

  class Ichimoku {
    const tenkanSenLength: nat
    const kijunSenLength: nat
    const senkouSpanBLength: nat
    var nbElemts: nat
    var data: CircularQueue<IchimokuOutput>
    /** The bars since construction or the last reset. */
    ghost var history: seq<DataItem>
    ghost var Repr: set<object>

    ghost predicate Valid()
      reads this, Repr
      ensures Valid() ==> this in Repr
    {
      this in Repr && data in Repr && data.Repr <= Repr && this !in data.Repr &&
      data.Valid() && data.blank == DefaultOutput &&
      Lengths(tenkanSenLength, kijunSenLength, senkouSpanBLength) &&
      data.capacity == kijunSenLength + senkouSpanBLength &&
      nbElemts == |history| &&
      Layout(data.contents, history, senkouSpanBLength)
    }

    constructor Init(t: nat, k: nat, s: nat)
      requires Lengths(t, k, s)
      ensures Valid() && fresh(Repr) && history == []
      ensures tenkanSenLength == t && kijunSenLength == k && senkouSpanBLength == s
      ensures forall i :: 0 <= i < k + s ==> data.contents[i] == DefaultOutput
    {
      tenkanSenLength, kijunSenLength, senkouSpanBLength := t, k, s;
      nbElemts := 0;
      var q := new CircularQueue.Init(k + s, DefaultOutput);
      data := q;
      history := [];
      Repr := {this} + q.Repr;
      LayoutEmpty(q.contents, s);
    }

    /** The lengths must be positive and strictly increasing; the library panics
        otherwise. */
    static method New(t: nat, k: nat, s: nat) returns (r: Result<Ichimoku>)
      ensures r.Err? <==> !(t != 0 && t < k && k < s)
      ensures r.Err? ==> r.error == InvalidParameter
      ensures r.Ok? ==> fresh(r.value.Repr) && r.value.Valid() && r.value.history == []
      ensures r.Ok? ==> r.value.tenkanSenLength == t && r.value.kijunSenLength == k &&
                        r.value.senkouSpanBLength == s
    {
      if t != 0 && t < k && k < s {
        var ich := new Ichimoku.Init(t, k, s);
        return Ok(ich);
      }
      return Err(InvalidParameter);
    }

    /** The midpoint of the highest high and the lowest low of the last offset rows up
        to the present one, which are the prices of the last offset bars. */
    method GetAverage(offset: nat) returns (r: real)
      requires Valid() && 0 < offset <= senkouSpanBLength && |history| >= senkouSpanBLength
      ensures r == Mid(history, offset)
    {
      var s := senkouSpanBLength;
      ghost var q := data.contents;
      var high: Option<real> := None;
      var low: Option<real> := None;
      for i := s - offset to s
        invariant high == Highest(q, s - offset, i) && low == Lowest(q, s - offset, i)
      {
        var row := data.At(i);
        if high.None? || row.value.high.value > high.value {
          high := Some(row.value.high.value);
        }
        if low.None? || row.value.low.value < low.value {
          low := Some(row.value.low.value);
        }
      }
      ScanIsMid(q, history, s, offset);
      r := (high.value + low.value) / 2.0;
    }

    /** Stores the bar in its row and, once senkouSpanBLength bars have been seen, draws
        the lines for it. */
    method Next(input: DataItem)
      requires Valid()
      modifies Repr
      ensures Valid() && Repr == old(Repr) && data == old(data)
      ensures history == old(history) + [input]
      ensures data.contents == Advance(old(data.contents), history,
                                         tenkanSenLength, kijunSenLength, senkouSpanBLength)
    {
      ghost var q0 := data.contents;
      Store(input);
      if nbElemts >= senkouSpanBLength {
        DrawLines(input.close);
        AdvanceDraws(q0, history, tenkanSenLength, kijunSenLength, senkouSpanBLength);
      } else {
        AdvanceStores(q0, history, tenkanSenLength, kijunSenLength, senkouSpanBLength);
      }
    }

    /** Counts the bar and writes its prices into its row, after shifting the rows left
        once the ring is full. */
    method Store(input: DataItem)
      requires Valid()
      modifies Repr
      ensures Valid() && Repr == old(Repr) && data == old(data)
      ensures history == old(history) + [input]
      ensures data.contents == Stored(old(data.contents), |history|, input, senkouSpanBLength)
    {
      var s := senkouSpanBLength;
      ghost var q0 := data.contents;
      ghost var h0 := history;
      nbElemts := nbElemts + 1;
      Place(nbElemts, input);
      history := h0 + [input];
      StoredLayout(q0, h0, input, s);
    }

    /** Shifts the rows past s bars, then writes the prices of the n-th bar into its row. */
    method Place(n: nat, input: DataItem)
      requires data.Valid() && this !in data.Repr && data.blank == DefaultOutput && n > 0
      requires 0 < senkouSpanBLength < data.capacity
      modifies data.Repr
      ensures data.Valid() && data.Repr == old(data.Repr)
      ensures data.contents == Stored(old(data.contents), n, input, senkouSpanBLength)
    {
      var s := senkouSpanBLength;
      ghost var q0 := data.contents;
      if n > s {
        data.Shl();
      }
      var idx := if n < s then n - 1 else s - 1;
      ghost var q1 := data.contents;
      var written := data.Modify(idx, (o: IchimokuOutput) => WithBar(o, input));
      assert data.contents == q1[idx := WithBar(q1[idx], input)];
    }

    /** Draws the lines over the last tenkanSenLength, kijunSenLength and
        senkouSpanBLength bars, close being the latest close. */
    method DrawLines(close: real)
      requires Valid() && |history| >= senkouSpanBLength && close == history[|history| - 1].close
      modifies Repr
      ensures Valid() && Repr == old(Repr) && data == old(data) && history == old(history)
      ensures data.contents == Drawn(old(data.contents), history,
                                       tenkanSenLength, kijunSenLength, senkouSpanBLength)
    {
      var t, k, s := tenkanSenLength, kijunSenLength, senkouSpanBLength;
      ghost var q1 := data.contents;
      var tenkan := GetAverage(t);
      var kijun := GetAverage(k);
      var senkouSpanA := (tenkan + kijun) / 2.0;
      var senkouSpanB := GetAverage(s);
      Draw(tenkan, kijun, senkouSpanA, senkouSpanB, close);
      LinesPrices(q1, k, s, tenkan, kijun, senkouSpanB, close);
      LayoutSamePrices(q1, data.contents, history, s);
    }

    /** Draws the turning and base lines into the present row, the close as the lagging
        span k rows back, and the leading spans with the cloud colour k rows ahead. */
    method Draw(tenkan: real, kijun: real, senkouSpanA: real, senkouSpanB: real, close: real)
      requires data.Valid() && this !in data.Repr && 0 < kijunSenLength < senkouSpanBLength
      requires data.capacity == kijunSenLength + senkouSpanBLength
      requires senkouSpanA == (tenkan + kijun) / 2.0
      modifies data.Repr
      ensures data.Valid() && data.Repr == old(data.Repr)
      ensures data.contents == Lines(old(data.contents), kijunSenLength, senkouSpanBLength,
                                       tenkan, kijun, senkouSpanB, close)
    {
      var k, s := kijunSenLength, senkouSpanBLength;
      ghost var q1 := data.contents;
      // The turning and base lines in the present row
      var written := data.Modify(s - 1, (o: IchimokuOutput) =>
        o.(tenkanSen := Some(tenkan), kijunSen := Some(kijun)));
      ghost var q2 := data.contents;
      assert q2 == q1[s - 1 := q1[s - 1].(tenkanSen := Some(tenkan), kijunSen := Some(kijun))];
      // The lagging span, k rows back
      written := data.Modify(s - k - 1, (o: IchimokuOutput) => o.(chikouSpan := Some(close)));
      ghost var q3 := data.contents;
      assert q3 == q2[s - k - 1 := q2[s - k - 1].(chikouSpan := Some(close))];
      // The leading spans and the cloud colour, k rows ahead
      written := data.Modify(s + k - 1, (o: IchimokuOutput) =>
        o.(senkouSpanA := Some(senkouSpanA), senkouSpanB := Some(senkouSpanB),
           kumoColor := if senkouSpanA > senkouSpanB then Some(Green) else Some(Red)));
      assert data.contents == q3[s + k - 1 := q3[s + k - 1].(senkouSpanA := Some(senkouSpanA),
        senkouSpanB := Some(senkouSpanB), kumoColor := if senkouSpanA > senkouSpanB then Some(Green) else Some(Red))];
      LinesSteps(q1, q2, q3, data.contents, k, s, tenkan, kijun, senkouSpanA, senkouSpanB, close);
    }

    /** Starts over with a fresh queue of default rows. */
    method Reset()
      requires Valid()
      modifies this
      ensures Valid() && fresh(data.Repr) && Repr == {this} + data.Repr && history == []
      ensures forall i :: 0 <= i < kijunSenLength + senkouSpanBLength ==> data.contents[i] == DefaultOutput
    {
      var q := new CircularQueue.Init(kijunSenLength + senkouSpanBLength, DefaultOutput);
      data := q;
      nbElemts := 0;
      history := [];
      Repr := {this} + q.Repr;
      LayoutEmpty(q.contents, senkouSpanBLength);
    }
  }
}
