/** The simple moving average: the mean of the last n inputs, kept as a running sum
    over a ring of the inputs. */
module SimpleMovingAverage {
  import opened Wrappers
  import opened Windows
  import opened DataItems

  class SimpleMovingAverage {
    const n: nat
    /** The slot of the latest input. */
    var index: nat
    /** How many inputs the window holds, up to n. */
    var count: nat
    var sum: real
    /** The ring of the last n inputs; slots not written since reset hold zero. */
    var vec: array<real>
    /** The inputs since construction or the last reset. */
    ghost var history: seq<real>
    ghost var Repr: set<object>

    ghost predicate Valid()
      reads this, Repr
      ensures Valid() ==> this in Repr
    {
      Repr == {this, vec} &&
      n > 0 && vec.Length == n && index < n &&
      SmaState(vec[..], index, history, count, sum)
    }

    constructor Init(n: nat)
      requires n > 0
      ensures Valid() && fresh(Repr) && history == [] && this.n == n
      ensures index == 0 && count == 0 && sum == 0.0 && forall j :: 0 <= j < vec.Length ==> vec[j] == 0.0
    {
      this.n := n;
      index, count, sum := 0, 0, 0.0;
      vec := new real[n](_ => 0.0);
      history := [];
      Repr := {this, vec};
      new;
      AllZeroSum(vec[..]);
      ZeroRingEmpty(vec[..], index);
    }

    /** A length of zero is rejected. */
    static method New(n: nat) returns (r: Result<SimpleMovingAverage>)
      ensures r.Err? <==> n == 0
      ensures r.Err? ==> r.error == InvalidParameter
      ensures r.Ok? ==> fresh(r.value.Repr) && r.value.Valid() && r.value.history == [] && r.value.n == n
    {
      if n == 0 {
        return Err(InvalidParameter);
      }
      var m := new SimpleMovingAverage.Init(n);
      return Ok(m);
    }

    static method Default() returns (m: SimpleMovingAverage)
      ensures fresh(m.Repr) && m.Valid() && m.history == [] && m.n == 9
    {
      m := new SimpleMovingAverage.Init(9);
    }

    /** The first half of Next: overwrite the oldest slot and update count and sum. */
    method Store(input: real)
      requires Valid()
      modifies Repr
      ensures Valid() && Repr == old(Repr)
      ensures history == old(history) + [input]
    {
      var a := vec;
      ghost var s0, i0, h, c0, sum0 := a[..], index, history, count, sum;
      index := (index + 1) % n;
      var oldVal := a[index];
      a[index] := input;
      if count < n {
        count := count + 1;
      }
      sum := sum - oldVal + input;
      history := h + [input];
      SmaStep(s0, i0, h, input, c0, sum0, index, count, sum);
      assert a[..] == s0[index := input];
    }

    /** Records an input and returns the mean of the last n inputs. */
    method Next(input: real) returns (r: real)
      requires Valid()
      modifies Repr
      ensures Valid() && Repr == old(Repr)
      ensures history == old(history) + [input]
      ensures r == Mean(Window(history, n))
    {
      Store(input);
      assert count == |Window(history, n)| && sum == Sum(Window(history, n));
      r := sum / (count as real);
    }

    /** A bar's contribution is its close. */
    method NextBar(bar: DataItem) returns (r: real)
      requires Valid()
      modifies Repr
      ensures Valid() && Repr == old(Repr)
      ensures history == old(history) + [bar.close]
      ensures r == Mean(Window(history, n))
    {
      r := Next(bar.close);
    }

    /** Returns to the state of a newly constructed average. */
    method Reset()
      requires Valid()
      modifies Repr
      ensures Valid() && Repr == old(Repr) && history == []
      ensures index == 0 && count == 0 && sum == 0.0 && forall j :: 0 <= j < vec.Length ==> vec[j] == 0.0
    {
      var a := vec;
      for i := 0 to n
        modifies a
        invariant forall j :: 0 <= j < i ==> a[j] == 0.0
      {
        a[i] := 0.0;
      }
      index, count, sum := 0, 0, 0.0;
      history := [];
      AllZeroSum(a[..]);
      ZeroRingEmpty(a[..], index);
    }
  }

  /** The running state of the average over a ring of slots: the slots hold the window,
      count is its length and sum its sum. */
  ghost predicate SmaState(slots: seq<real>, index: nat, h: seq<real>, count: nat, sum: real)
  {
    index < |slots| &&
    ZeroRing(slots, index, h) &&
    count == |Window(h, |slots|)| &&
    sum == Sum(Window(h, |slots|)) &&
    sum == Sum(slots)
  }

  /** One step of Next keeps the running state: the slot after the cursor holds the
      input leaving the window, and overwriting it updates both sums alike. */
  lemma SmaStep(slots: seq<real>, index: nat, h: seq<real>, x: real, count: nat, sum: real,
                c: nat, count': nat, sum': real)
    requires SmaState(slots, index, h, count, sum)
    requires c == (index + 1) % |slots|
    requires count' == if count < |slots| then count + 1 else count
    requires sum' == sum - slots[c] + x
    ensures slots[c] == Evicted(h, |slots|)
    ensures SmaState(slots[c := x], c, h + [x], count', sum')
  {
    var n := |slots|;
    ZeroRingEvicted(slots, index, h);
    ZeroRingStep(slots, index, h, x);
    WindowSumStep(h, x, n);
    WindowPush(h, x, n);
    SumUpdate(slots, c, x);
    assert |slots[c := x]| == n;
  }

  lemma {:induction false} AllZeroSum(s: seq<real>)
    requires forall j :: 0 <= j < |s| ==> s[j] == 0.0
    ensures Sum(s) == 0.0
  {
    if |s| > 0 {
      AllZeroSum(s[1..]);
    }
  }

  /** The doc example for a length of 3: the inputs 10, 11, 12, 13 give 10, 10.5, 11, 12. */
  lemma SimpleMovingAverageDocExample()
    ensures Mean(Window([10.0], 3)) == 10.0
    ensures Mean(Window([10.0, 11.0], 3)) == 10.5
    ensures Mean(Window([10.0, 11.0, 12.0], 3)) == 11.0
    ensures Mean(Window([10.0, 11.0, 12.0, 13.0], 3)) == 12.0
  {
  }

  /** The test sequence for a length of 4: the inputs 4, 5, 6, 6, 6, 6, 2 give
      4, 4.5, 5, 5.25, 5.75, 6, 5. */
  lemma SimpleMovingAverageTestExample()
    ensures Mean(Window([4.0], 4)) == 4.0
    ensures Mean(Window([4.0, 5.0], 4)) == 4.5
    ensures Mean(Window([4.0, 5.0, 6.0], 4)) == 5.0
    ensures Mean(Window([4.0, 5.0, 6.0, 6.0], 4)) == 5.25
    ensures Mean(Window([4.0, 5.0, 6.0, 6.0, 6.0], 4)) == 5.75
    ensures Mean(Window([4.0, 5.0, 6.0, 6.0, 6.0, 6.0], 4)) == 6.0
    ensures Mean(Window([4.0, 5.0, 6.0, 6.0, 6.0, 6.0, 2.0], 4)) == 5.0
  {
  }

  /** The bar test for a length of 3, closes 4, 4, 7, 1 giving 4, 4, 5, 4; and the reset
      test, where 99 after a reset is averaged alone. */
  lemma SimpleMovingAverageBarExample()
    ensures Mean(Window([4.0], 3)) == 4.0
    ensures Mean(Window([4.0, 4.0], 3)) == 4.0
    ensures Mean(Window([4.0, 4.0, 7.0], 3)) == 5.0
    ensures Mean(Window([4.0, 4.0, 7.0, 1.0], 3)) == 4.0
    ensures Mean(Window([99.0], 4)) == 99.0
  {
  }
}
