/** The smoothed (modified) moving average: each step keeps (n - 1)/n of the previous
    value and adds 1/n of the input. */
module SmoothedOrModifiedMovingAverage {
  import opened Wrappers
  import opened Windows
  import opened DataItems
  import opened ExponentialMovingAverage

  /** One step of the average of length n. */
  function SmmaStep(n: nat, prev: real, x: real): real
    requires n > 0
  {
    (prev * ((n as real) - 1.0) + x) / (n as real)
  }

  /** The value of the average after the inputs h: the first input itself, and then one
      step per later input. */
  function Smma(n: nat, h: seq<real>): real
    requires n > 0 && |h| > 0
  {
    if |h| == 1 then h[0] else SmmaStep(n, Smma(n, h[..|h| - 1]), h[|h| - 1])
  }

  /** The step is an exponential smoothing step with factor 1/n. */
  lemma SmmaStepIsBlend(n: nat, prev: real, x: real)
    requires n > 0
    ensures SmmaStep(n, prev, x) == Blend(1.0 / (n as real), prev, x)
  {
    DivideSplit(n as real, prev, x);
  }

  lemma DivideSplit(c: real, p: real, x: real)
    requires c > 0.0
    ensures (p * (c - 1.0) + x) / c == (1.0 / c) * x + (1.0 - 1.0 / c) * p
  {
    var q := 1.0 / c;
    assert q * c == 1.0;
    assert (p * (c - 1.0) + x) == c * (q * x + (1.0 - q) * p);
  }

  /** The average of length n is the exponential average with factor 1/n. */
  lemma {:induction false} SmmaIsEma(n: nat, h: seq<real>)
    requires n > 0 && |h| > 0
    ensures Smma(n, h) == Ema(1.0 / (n as real), h)
  {
    if |h| > 1 {
      SmmaIsEma(n, h[..|h| - 1]);
      SmmaStepIsBlend(n, Smma(n, h[..|h| - 1]), h[|h| - 1]);
    }
  }

  /** The average never leaves the range of the inputs it has seen. */
  lemma SmmaBounds(n: nat, h: seq<real>)
    requires n > 0 && |h| > 0
    ensures SeqMin(h) <= Smma(n, h) <= SeqMax(h)
  {
    SmmaIsEma(n, h);
    EmaBounds(1.0 / (n as real), h);
  }

  /** A length of 1 passes every input through unchanged. */
  lemma SmmaLengthOne(h: seq<real>)
    requires |h| > 0
    ensures Smma(1, h) == h[|h| - 1]
  {
    SmmaIsEma(1, h);
    EmaLengthOne(h);
  }

  class SmoothedOrModifiedMovingAverage {
    const length: nat
    var current: real
    /** No input has arrived since construction or the last reset. */
    var isNew: bool
    /** The inputs since construction or the last reset. */
    ghost var history: seq<real>

    ghost predicate Valid()
      reads this
    {
      length > 0 &&
      (isNew <==> history == []) &&
      (isNew ==> current == 0.0) &&
      (!isNew ==> current == Smma(length, history))
    }

    constructor Init(length: nat)
      requires length > 0
      ensures Valid() && history == [] && this.length == length
      ensures isNew && current == 0.0
    {
      this.length := length;
      current, isNew := 0.0, true;
      history := [];
    }

    /** A length of zero is rejected. */
    static method New(length: nat) returns (r: Result<SmoothedOrModifiedMovingAverage>)
      ensures r.Err? <==> length == 0
      ensures r.Err? ==> r.error == InvalidParameter
      ensures r.Ok? ==> fresh(r.value) && r.value.Valid() && r.value.history == [] && r.value.length == length
    {
      if length == 0 {
        return Err(InvalidParameter);
      }
      var e := new SmoothedOrModifiedMovingAverage.Init(length);
      return Ok(e);
    }

    static method Default() returns (e: SmoothedOrModifiedMovingAverage)
      ensures fresh(e) && e.Valid() && e.history == [] && e.length == 9
    {
      e := new SmoothedOrModifiedMovingAverage.Init(9);
    }

    method Length() returns (r: nat)
      requires Valid()
      ensures r == length
    {
      r := length;
    }

    /** Records an input and returns the new average. */
    method Next(input: real) returns (r: real)
      requires Valid()
      modifies this
      ensures Valid() && history == old(history) + [input]
      ensures r == current && r == Smma(length, history)
      ensures old(isNew) ==> r == input
      ensures !old(isNew) ==> Between(old(current), input, r)
    {
      ghost var h := history;
      if isNew {
        isNew := false;
        current := input;
      } else {
        var prev := current;
        current := (prev * ((length as real) - 1.0) + input) / (length as real);
        assert (h + [input])[..|h|] == h;
        SmmaStepIsBlend(length, prev, input);
        BlendBetween(1.0 / (length as real), prev, input);
      }
      history := h + [input];
      r := current;
    }

    /** A bar's contribution is its close. */
    method NextBar(bar: DataItem) returns (r: real)
      requires Valid()
      modifies this
      ensures Valid() && history == old(history) + [bar.close]
      ensures r == current && r == Smma(length, history)
    {
      r := Next(bar.close);
    }

    /** Returns to the state of a newly constructed average. */
    method Reset()
      requires Valid()
      modifies this
      ensures Valid() && history == [] && isNew && current == 0.0
    {
      current, isNew := 0.0, true;
      history := [];
    }
  }

  /** For a length of 3 the second output is 3, not the 3.5 of the exponential average. */
  lemma SmmaExample()
    ensures Smma(3, [2.0]) == 2.0
    ensures Smma(3, [2.0, 5.0]) == 3.0
    ensures Smma(3, [2.0, 5.0, 1.0]) == 7.0 / 3.0
  {
    assert [2.0, 5.0][..1] == [2.0];
    assert [2.0, 5.0, 1.0][..2] == [2.0, 5.0];
  }
}
