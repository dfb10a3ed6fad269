/** The rate of change: the percentage change of the price against the price `length`
    samples earlier, over a bounded queue of recent prices. */
module RateOfChange {
  import opened Wrappers
  import opened Windows
  import opened DataItems

  /** The price the latest input of h is compared with: the one n samples earlier, or
      the oldest one while fewer than n + 1 samples have arrived. */
  function Anchor(h: seq<real>, n: nat): (a: real)
    requires |h| > 1 && n > 0
    ensures a == if |h| > n then h[|h| - 1 - n] else h[0]
  {
    Window(h[..|h| - 1], n)[0]
  }

  /** The output after the inputs h: 0 for the first sample, otherwise the change from
      the anchor in percent, or None when the anchor is zero and the division fails. */
  function Roc(h: seq<real>, n: nat): Option<real>
    requires |h| > 0 && n > 0
  {
    if |h| == 1 then Some(0.0)
    else
      var a := Anchor(h, n);
      if a == 0.0 then None else Some((h[|h| - 1] - a) / a * 100.0)
  }

  /** Applying the rate to the anchor gives back the latest price. */
  lemma RocInverse(h: seq<real>, n: nat, v: real)
    requires |h| > 1 && n > 0 && Roc(h, n) == Some(v)
    ensures Anchor(h, n) != 0.0
    ensures h[|h| - 1] == Anchor(h, n) * (1.0 + v / 100.0)
  {
    RateInverse(Anchor(h, n), h[|h| - 1], v);
  }

  lemma RateInverse(a: real, x: real, v: real)
    requires a != 0.0 && v == (x - a) / a * 100.0
    ensures x == a * (1.0 + v / 100.0)
  {
    assert v / 100.0 == (x - a) / a;
    assert a * ((x - a) / a) == x - a;
  }

  /** The rate is zero exactly when the price equals its anchor. */
  lemma RocZero(h: seq<real>, n: nat)
    requires |h| > 1 && n > 0 && Anchor(h, n) != 0.0
    ensures Roc(h, n) == Some(0.0) <==> h[|h| - 1] == Anchor(h, n)
  {
    var a, x := Anchor(h, n), h[|h| - 1];
    if (x - a) / a * 100.0 == 0.0 {
      assert (x - a) / a == 0.0;
      assert x - a == a * ((x - a) / a);
    }
  }

  class RateOfChange {
    const length: nat
    /** The recent prices, oldest first. */
    var prices: seq<real>
    /** The inputs since construction or the last reset. */
    ghost var history: seq<real>

    ghost predicate Valid()
      reads this
    {
      length > 0 && prices == Window(history, length)
    }

    constructor Init(length: nat)
      requires length > 0
      ensures Valid() && history == [] && prices == [] && this.length == length
    {
      this.length := length;
      prices := [];
      history := [];
    }

    /** A length of zero is rejected. */
    static method New(length: nat) returns (r: Result<RateOfChange>)
      ensures r.Err? <==> length == 0
      ensures r.Err? ==> r.error == InvalidParameter
      ensures r.Ok? ==> fresh(r.value) && r.value.Valid() && r.value.history == [] && r.value.length == length
    {
      if length == 0 {
        return Err(InvalidParameter);
      }
      var c := new RateOfChange.Init(length);
      return Ok(c);
    }

    static method Default() returns (c: RateOfChange)
      ensures fresh(c) && c.Valid() && c.history == [] && c.length == 9
    {
      c := new RateOfChange.Init(9);
    }

    /** Queues the input, drops the oldest price once more than length are held, and
        returns the change from the anchor. */
    method Next(input: real) returns (r: Option<real>)
      requires Valid()
      modifies this
      ensures Valid() && history == old(history) + [input]
      ensures |prices| <= length
      ensures r == Roc(history, length)
    {
      ghost var h := history;
      WindowPush(h, input, length);
      prices := prices + [input];
      history := h + [input];
      if |prices| == 1 {
        return Some(0.0);
      }
      var initialPrice: real;
      if |prices| > length {
        initialPrice := prices[0];
        prices := prices[1..];
      } else {
        initialPrice := prices[0];
      }
      if initialPrice == 0.0 {
        r := None;
      } else {
        r := Some((input - initialPrice) / initialPrice * 100.0);
      }
    }

    /** A bar's contribution is its close. */
    method NextBar(bar: DataItem) returns (r: Option<real>)
      requires Valid()
      modifies this
      ensures Valid() && history == old(history) + [bar.close]
      ensures r == Roc(history, length)
    {
      r := Next(bar.close);
    }

    method Reset()
      requires Valid()
      modifies this
      ensures Valid() && history == [] && prices == []
    {
      prices := [];
      history := [];
    }
  }

  /** The test sequence for a length of 3, while the anchor is the first price. */
  lemma RocTestExample()
    ensures Roc([10.0], 3) == Some(0.0)
    ensures Roc([10.0, 10.4], 3) == Some(4.0)
    ensures Roc([10.0, 10.4, 10.57], 3) == Some(5.7)
    ensures Roc([10.0, 10.4, 10.57, 10.8], 3) == Some(8.0)
  {
  }

  /** The documented sequence for a length of 2. */
  lemma RocDocExample()
    ensures Roc([10.0, 9.7], 2) == Some(-3.0)
    ensures Roc([10.0, 9.7, 20.0], 2) == Some(100.0)
    ensures Anchor([10.0, 9.7, 20.0, 20.0], 2) == 9.7
  {
  }
}
