/** The exponential moving average: one running value that moves a fixed fraction k of
    the way towards each new input. */
module ExponentialMovingAverage {
  import opened Wrappers
  import opened Windows
  import opened DataItems

  /** The smoothing factor of a length: 2 / (length + 1). */
  function Alpha(length: nat): (k: real)
    requires length > 0
    ensures 0.0 < k <= 1.0
    ensures length == 1 <==> k == 1.0
  {
    2.0 / ((length + 1) as real)
  }

  /** One smoothing step from the previous value towards the input. */
  function Blend(k: real, prev: real, x: real): real
  {
    k * x + (1.0 - k) * prev
  }

  /** r lies between a and b, in either order. */
  predicate Between(a: real, b: real, r: real)
  {
    (a <= r <= b) || (b <= r <= a)
  }

  /** The value of the average after the inputs h: the first input itself, and then one
      smoothing step per later input. */
  function Ema(k: real, h: seq<real>): real
    requires |h| > 0
  {
    if |h| == 1 then h[0] else Blend(k, Ema(k, h[..|h| - 1]), h[|h| - 1])
  }

  /** The average after one more input is one smoothing step from the average before. */
  lemma EmaAppend(k: real, h: seq<real>, x: real)
    requires |h| > 0
    ensures Ema(k, h + [x]) == Blend(k, Ema(k, h), x)
  {
    assert (h + [x])[..|h|] == h;
  }

  /** A smoothing factor in (0, 1] keeps the step between the previous value and the input. */
  lemma BlendBetween(k: real, prev: real, x: real)
    requires 0.0 <= k <= 1.0
    ensures Between(prev, x, Blend(k, prev, x))
  {
    BlendShift(k, prev, x, x - prev);
    Scale(k, x - prev);
  }

  /** The step moves the previous value by k times the distance d to the input. */
  lemma BlendShift(k: real, prev: real, x: real, d: real)
    requires d == x - prev
    ensures Blend(k, prev, x) == prev + k * d
  {
  }

  lemma Scale(k: real, d: real)
    requires 0.0 <= k <= 1.0
    ensures Between(0.0, d, k * d)
  {
    if d >= 0.0 {
      assert d - k * d == (1.0 - k) * d;
    } else {
      assert k * d - d == (1.0 - k) * (-d);
    }
  }

  /** A factor of 1 follows the input exactly. */
  lemma BlendOne(prev: real, x: real)
    ensures Blend(1.0, prev, x) == x
  {
  }

  /** The average never leaves the range of the inputs it has seen. */
  lemma {:induction false} EmaBounds(k: real, h: seq<real>)
    requires 0.0 <= k <= 1.0 && |h| > 0
    ensures SeqMin(h) <= Ema(k, h) <= SeqMax(h)
  {
    if |h| > 1 {
      var init := h[..|h| - 1];
      var x := h[|h| - 1];
      var p := Ema(k, init);
      EmaBounds(k, init);
      var lo, hi := SeqMin(init), SeqMax(init);
      assert exists j :: 0 <= j < |init| && init[j] == lo;
      assert exists j :: 0 <= j < |init| && init[j] == hi;
      assert SeqMin(h) <= lo && hi <= SeqMax(h) by {
        var i :| 0 <= i < |init| && init[i] == lo;
        var j :| 0 <= j < |init| && init[j] == hi;
        assert h[i] == lo && h[j] == hi;
      }
      assert SeqMin(h) <= x <= SeqMax(h) by { assert h[|h| - 1] == x; }
      BlendBetween(k, p, x);
    }
  }

  /** An average of values that are not negative is not negative. */
  lemma EmaNonNegative(k: real, h: seq<real>)
    requires 0.0 <= k <= 1.0 && |h| > 0
    requires forall i :: 0 <= i < |h| ==> h[i] >= 0.0
    ensures Ema(k, h) >= 0.0
  {
    EmaBounds(k, h);
    var j :| 0 <= j < |h| && h[j] == SeqMin(h);
  }

  /** Two averages of values that are not negative, fed in step, do not both reach zero
      when a factor below 1 keeps part of a positive first pair. */
  lemma {:induction false} EmaSumPositive(k: real, a: seq<real>, b: seq<real>)
    requires 0.0 <= k < 1.0 && |a| == |b| > 0 && a[0] + b[0] > 0.0
    requires forall i :: 0 <= i < |a| ==> a[i] >= 0.0 && b[i] >= 0.0
    ensures Ema(k, a) + Ema(k, b) > 0.0
  {
    if |a| > 1 {
      var a', b' := a[..|a| - 1], b[..|b| - 1];
      EmaSumPositive(k, a', b');
      BlendSumPositive(k, Ema(k, a'), Ema(k, b'), a[|a| - 1], b[|b| - 1]);
    }
  }

  lemma BlendSumPositive(k: real, p: real, q: real, x: real, y: real)
    requires 0.0 <= k < 1.0 && p + q > 0.0 && x >= 0.0 && y >= 0.0
    ensures Blend(k, p, x) + Blend(k, q, y) > 0.0
  {
    BlendSum(k, p, q, x, y, p + q, x + y, 1.0 - k);
    NonNegativeProduct(k, x + y);
    PositiveProduct(1.0 - k, p + q);
  }

  lemma BlendSum(k: real, p: real, q: real, x: real, y: real, s: real, t: real, c: real)
    requires s == p + q && t == x + y && c == 1.0 - k
    ensures Blend(k, p, x) + Blend(k, q, y) == k * t + c * s
  {
  }

  lemma NonNegativeProduct(a: real, b: real)
    requires a >= 0.0 && b >= 0.0
    ensures a * b >= 0.0
  {
  }

  lemma PositiveProduct(a: real, b: real)
    requires a > 0.0 && b > 0.0
    ensures a * b > 0.0
  {
  }

  /** An average fed one constant value stays at it. */
  lemma {:induction false} EmaConstant(k: real, h: seq<real>, c: real)
    requires |h| > 0 && forall i :: 0 <= i < |h| ==> h[i] == c
    ensures Ema(k, h) == c
  {
    if |h| > 1 {
      EmaConstant(k, h[..|h| - 1], c);
      assert h[|h| - 1] == c;
    }
  }

  /** A length of 1 passes every input through unchanged. */
  lemma {:induction false} EmaLengthOne(h: seq<real>)
    requires |h| > 0
    ensures Ema(Alpha(1), h) == h[|h| - 1]
  {
    if |h| > 1 {
      BlendOne(Ema(1.0, h[..|h| - 1]), h[|h| - 1]);
    }
  }

  class ExponentialMovingAverage {
    const length: nat
    /** The smoothing factor, fixed at construction. */
    const k: real
    var current: real
    /** No input has arrived since construction or the last reset. */
    var isNew: bool
    /** The inputs since construction or the last reset. */
    ghost var history: seq<real>

    ghost predicate Valid()
      reads this
    {
      length > 0 && k == Alpha(length) &&
      (isNew <==> history == []) &&
      (isNew ==> current == 0.0) &&
      (!isNew ==> current == Ema(k, history))
    }

    constructor Init(length: nat)
      requires length > 0
      ensures Valid() && history == [] && this.length == length
      ensures isNew && current == 0.0
    {
      this.length := length;
      k := Alpha(length);
      current, isNew := 0.0, true;
      history := [];
    }

    /** A length of zero is rejected. */
    static method New(length: nat) returns (r: Result<ExponentialMovingAverage>)
      ensures r.Err? <==> length == 0
      ensures r.Err? ==> r.error == InvalidParameter
      ensures r.Ok? ==> fresh(r.value) && r.value.Valid() && r.value.history == [] && r.value.length == length
    {
      if length == 0 {
        return Err(InvalidParameter);
      }
      var e := new ExponentialMovingAverage.Init(length);
      return Ok(e);
    }

    static method Default() returns (e: ExponentialMovingAverage)
      ensures fresh(e) && e.Valid() && e.history == [] && e.length == 9
    {
      e := new ExponentialMovingAverage.Init(9);
    }

    /** The length the average was built with; its factor is Alpha of it. */
    method Length() returns (r: nat)
      requires Valid()
      ensures r == length && Alpha(r) == k
    {
      r := length;
    }

    /** Records an input and returns the new average. */
    method Next(input: real) returns (r: real)
      requires Valid()
      modifies this
      ensures Valid() && history == old(history) + [input]
      ensures r == current && r == Ema(k, history)
      ensures old(isNew) ==> r == input
      ensures !old(isNew) ==> Between(old(current), input, r)
    {
      ghost var h := history;
      if isNew {
        isNew := false;
        current := input;
      } else {
        var prev := current;
        current := k * input + (1.0 - k) * prev;
        EmaAppend(k, h, input);
        BlendBetween(k, prev, input);
      }
      history := h + [input];
      r := current;
    }

    /** A bar's contribution is its close. */
    method NextBar(bar: DataItem) returns (r: real)
      requires Valid()
      modifies this
      ensures Valid() && history == old(history) + [bar.close]
      ensures r == current && r == Ema(k, history)
    {
      r := Next(bar.close);
    }

    /** Returns to the state of a newly constructed average. */
    method Reset()
      requires Valid()
      modifies this
      ensures Valid() && history == [] && isNew && current == 0.0
    {
      current, isNew := 0.0, true;
      history := [];
    }
  }

  /** The documented sequence for a length of 3, whose factor is 1/2. */
  lemma EmaDocExample()
    ensures Alpha(3) == 0.5
    ensures Ema(0.5, [2.0]) == 2.0
    ensures Ema(0.5, [2.0, 5.0]) == 3.5
    ensures Ema(0.5, [2.0, 5.0, 1.0]) == 2.25
    ensures Ema(0.5, [2.0, 5.0, 1.0, 6.25]) == 4.25
  {
    assert Ema(0.5, [2.0, 5.0]) == 3.5 by { assert [2.0, 5.0][..1] == [2.0]; }
    assert Ema(0.5, [2.0, 5.0, 1.0]) == 2.25 by { assert [2.0, 5.0, 1.0][..2] == [2.0, 5.0]; }
    assert [2.0, 5.0, 1.0, 6.25][..3] == [2.0, 5.0, 1.0];
  }

  /** After a reset the first input is returned as it is. */
  lemma EmaResetExample()
    ensures Ema(Alpha(5), [4.0]) == 4.0
  {
  }
}
