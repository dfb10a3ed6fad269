/** The population standard deviation of the last n inputs, kept with Welford's running
    mean and sum of squared deviations over a ring of the inputs, and a fixed number of
    Heron iterations for the square root. */
module StandardDeviation {
  import opened Wrappers
  import opened Windows
  import opened DataItems

  // ----- The square root -----

  /** The number of Heron iterations in Sqrt. */
  const TTL: nat := 32

  /** One Heron iteration towards the square root of v. */
  function HeronNext(s: real, v: real): real
    requires s != 0.0
  {
    1.0 / 2.0 * (s + v / s)
  }

  /** ttl Heron iterations from seed; a zero seed gives zero. */
  function FindSquareRoot(seed: real, v: real, ttl: nat): real
    decreases ttl
  {
    if ttl == 0 then seed
    else if seed == 0.0 then 0.0
    else FindSquareRoot(HeronNext(seed, v), v, ttl - 1)
  }

  /** The square root as the indicator computes it: TTL iterations seeded with v. */
  function Sqrt(v: real): real
  {
    FindSquareRoot(v, v, TTL)
  }

  function Pow4(t: nat): (p: real)
    ensures p >= 1.0
  {
    if t == 0 then 1.0 else 4.0 * Pow4(t - 1)
  }

  /** r approximates the square root of v from above, no higher than seed, with the
      excess of its square over v at most that of seed shrunk p-fold. */
  predicate Approximates(seed: real, v: real, r: real, p: real)
  {
    r > 0.0 && r <= seed && r * r >= v && (r * r - v) * p <= seed * seed - v
  }

  lemma NonPositiveFactor(a: real, s: real)
    requires s > 0.0 && a * s <= 0.0
    ensures a <= 0.0
  {
  }

  /** A Heron iteration from a positive seed lands at or above the square root, and
      from at or above the square root it moves down while the excess of the square
      shrinks at least four-fold. */
  lemma HeronStep(s: real, v: real)
    requires s > 0.0 && v >= 0.0
    ensures var t := HeronNext(s, v);
      t > 0.0 && t * t >= v &&
      (s * s >= v ==> t <= s && 4.0 * (t * t - v) <= s * s - v)
  {
    var q := v / s;
    var t := 1.0 / 2.0 * (s + q);
    assert q * s == v;
    assert q >= 0.0;
    assert 4.0 * (t * t - v) == (s - q) * (s - q);
    SquareNonNegative(s - q);
    assert t > 0.0;
    if s * s >= v {
      assert s * (s - q) == s * s - v;
      assert (q - s) * s == v - s * s;
      NonPositiveFactor(q - s, s);
      assert (s - q) * (s - q) <= s * (s - q);
      assert t <= s;
    }
  }

  /** ttl iterations from a seed at or above the square root stay at or above it and
      divide the excess of the square by at least 4 to the power ttl. */
  lemma {:induction false} HeronBound(seed: real, v: real, ttl: nat)
    requires seed > 0.0 && v >= 0.0 && seed * seed >= v
    decreases ttl
    ensures Approximates(seed, v, FindSquareRoot(seed, v, ttl), Pow4(ttl))
  {
    if ttl > 0 {
      var t := HeronNext(seed, v);
      HeronStep(seed, v);
      HeronBound(t, v, ttl - 1);
      var r, p := FindSquareRoot(t, v, ttl - 1), Pow4(ttl - 1);
      assert FindSquareRoot(seed, v, ttl) == r && Pow4(ttl) == 4.0 * p;
      HeronCombine(seed, v, t, r, p);
    }
  }

  lemma HeronCombine(seed: real, v: real, t: real, r: real, p: real)
    requires t <= seed && 4.0 * (t * t - v) <= seed * seed - v
    requires Approximates(t, v, r, p)
    ensures Approximates(seed, v, r, 4.0 * p)
  {
    assert (r * r - v) * (4.0 * p) == 4.0 * ((r * r - v) * p);
  }

  /** Sqrt of zero is zero. Sqrt of a positive v is positive, at or above the true
      root, no higher than (v + 1) / 2, and its square exceeds v by at most
      ((v - 1) / 2)^2 / 4^31. */
  lemma SqrtBound(v: real)
    requires v >= 0.0
    ensures v == 0.0 ==> Sqrt(v) == 0.0
    ensures v > 0.0 ==> Approximates((v + 1.0) / 2.0, v, Sqrt(v), Pow4(TTL - 1))
  {
    if v > 0.0 {
      var t := HeronNext(v, v);
      assert t == (v + 1.0) / 2.0;
      HeronStep(v, v);
      HeronBound(t, v, TTL - 1);
    }
  }

  /** Heron iteration is exact at the root itself. */
  lemma {:induction false} HeronFixedPoint(a: real, ttl: nat)
    requires a > 0.0
    decreases ttl
    ensures FindSquareRoot(a, a * a, ttl) == a
  {
    if ttl > 0 {
      assert HeronNext(a, a * a) == a;
      HeronFixedPoint(a, ttl - 1);
    }
  }

  // ----- The statistic -----

  /** The population variance, taken as 0 for an empty sequence. */
  function Variance(w: seq<real>): real
  {
    if |w| == 0 then 0.0 else SumSqDev(w, Mean(w)) / (|w| as real)
  }

  lemma VarianceNonNegative(w: seq<real>)
    ensures Variance(w) >= 0.0
  {
    SumSqDevNonNegative(w, Mean(w));
  }

  /** The reported deviation, Sqrt of the variance, is never negative, its square
      never falls short of the variance, and it is zero exactly when the variance is. */
  lemma StdDevBound(w: seq<real>)
    ensures Sqrt(Variance(w)) >= 0.0
    ensures Sqrt(Variance(w)) * Sqrt(Variance(w)) >= Variance(w)
    ensures Sqrt(Variance(w)) == 0.0 <==> Variance(w) == 0.0
  {
    VarianceNonNegative(w);
    SqrtLowerBound(Variance(w));
  }

  /** The consequences of SqrtBound without the convergence rate. */
  lemma SqrtLowerBound(v: real)
    requires v >= 0.0
    ensures Sqrt(v) >= 0.0 && Sqrt(v) * Sqrt(v) >= v
    ensures Sqrt(v) == 0.0 <==> v == 0.0
  {
    SqrtBound(v);
  }

  /** The running state over a ring of slots: the slots hold the window of h, s is
      its sum and q its sum of squares. */
  ghost predicate SdState(slots: seq<real>, index: nat, h: seq<real>, s: real, q: real)
  {
    index < |slots| &&
    ZeroRing(slots, index, h) &&
    s == Sum(Window(h, |slots|)) &&
    q == SumSq(Window(h, |slots|))
  }

  /** Welford's invariant for c values with sum s and sum of squares q: m is their
      mean (zero when there are none) and m2 their squared deviations from m, kept in
      the expanded form q - s * m. */
  predicate Welford(c: real, s: real, q: real, m: real, m2: real)
  {
    (c == 0.0 ==> m == 0.0) && s == c * m && m2 == q - s * m
  }

  /** The running mean and squared deviations are the mean and variance of the window. */
  lemma VarianceFromSums(w: seq<real>, c: real, s: real, q: real, m: real, m2: real)
    requires |w| > 0 && c == |w| as real && s == Sum(w) && q == SumSq(w)
    requires Welford(c, s, q, m, m2)
    ensures Mean(w) == m && Variance(w) == m2 / c
  {
    DivCancel(m, c);
    assert Mean(w) == m;
    SumSqDevExpand(w, m);
    ExpandedAtMean(q, s, c, m);
  }

  lemma DivCancel(a: real, c: real)
    requires c > 0.0
    ensures (c * a) / c == a
  {
  }

  lemma ExpandedAtMean(q: real, s: real, c: real, m: real)
    requires s == c * m
    ensures Expanded(q, s, c, m) == q - s * m
  {
  }

  /** Welford's update while the window fills: the mean moves a 1 / (c + 1) part of
      the way to x. */
  lemma FillStep(c: real, s: real, q: real, m: real, m2: real, x: real,
                 c': real, s': real, q': real, m': real, m2': real)
    requires c >= 0.0 && Welford(c, s, q, m, m2)
    requires s' == s + x && q' == q + x * x
    requires c' == c + 1.0 && m' == m + (x - m) / c' && m2' == m2 + (x - m) * (x - m')
    ensures Welford(c', s', q', m', m2')
  {
    FillAlgebra(c, s, q, m, m2, x, c', s', q', m', m2');
  }

  lemma FillAlgebra(c: real, s: real, q: real, m: real, m2: real, x: real,
                    c': real, s': real, q': real, m': real, m2': real)
    requires c >= 0.0 && s == c * m && m2 == q - s * m
    requires s' == s + x && q' == q + x * x
    requires c' == c + 1.0 && m' == m + (x - m) / c' && m2' == m2 + (x - m) * (x - m')
    ensures s' == c' * m' && m2' == q' - s' * m'
  {
    var e := (x - m) / c';
    assert e * c' == x - m;
    assert c' * m' == s + x;
    assert m * (c' * m' - c * m - x) == 0.0;
  }

  /** The sliding update once the window of n is full: o leaves as x arrives. */
  lemma SlideStep(n: real, s: real, q: real, m: real, m2: real, o: real, x: real,
                  s': real, q': real, m': real, m2': real)
    requires n > 0.0 && Welford(n, s, q, m, m2)
    requires s' == s - o + x && q' == q - o * o + x * x
    requires m' == m + (x - o) / n && m2' == m2 + (x - o) * (x - m' + o - m)
    ensures Welford(n, s', q', m', m2')
  {
    SlideAlgebra(n, s, q, m, m2, o, x, s', q', m', m2');
  }

  lemma SlideAlgebra(n: real, s: real, q: real, m: real, m2: real, o: real, x: real,
                     s': real, q': real, m': real, m2': real)
    requires n > 0.0 && s == n * m && m2 == q - s * m
    requires s' == s - o + x && q' == q - o * o + x * x
    requires m' == m + (x - o) / n && m2' == m2 + (x - o) * (x - m' + o - m)
    ensures s' == n * m' && m2' == q' - s' * m'
  {
    var e := (x - o) / n;
    assert e * n == x - o;
    assert n * m' == s - o + x;
    assert n * (m' - m) == x - o;
    assert n * (m' * m' - m * m) == (n * (m' - m)) * (m' + m);
  }

  /** Welford's update of the count, mean and squared deviations of a window of at
      most n values with sum s and sum of squares q, as x arrives and o leaves (o is
      zero while the window fills). The new window has sum s' and sum of squares q'. */
  method UpdateMoments(n: nat, c: nat, m: real, m2: real, o: real, x: real,
                       ghost s: real, ghost q: real, ghost s': real, ghost q': real)
    returns (c': nat, m': real, m2': real)
    requires 0 < n && c <= n && Welford(c as real, s, q, m, m2)
    requires c < n ==> o == 0.0
    requires s' == s - o + x && q' == q - o * o + x * x
    ensures c' == if c < n then c + 1 else c
    ensures Welford(c' as real, s', q', m', m2')
  {
    if c < n {
      c' := c + 1;
      m', m2' := FillMoments(c, m, m2, x, s, q, s', q');
    } else {
      c' := c;
      m', m2' := SlideMoments(n, m, m2, o, x, s, q, s', q');
    }
  }

  /** While the window fills, the mean moves a 1 / (c + 1) part of the way to x. */
  method FillMoments(c: nat, m: real, m2: real, x: real,
                     ghost s: real, ghost q: real, ghost s': real, ghost q': real)
    returns (m': real, m2': real)
    requires Welford(c as real, s, q, m, m2)
    requires s' == s + x && q' == q + x * x
    ensures Welford((c + 1) as real, s', q', m', m2')
  {
    var delta := x - m;
    m' := m + delta / ((c + 1) as real);
    var delta2 := x - m';
    m2' := m2 + delta * delta2;
    FillStep(c as real, s, q, m, m2, x, (c + 1) as real, s', q', m', m2');
  }

  /** Once the window of n is full, the mean moves by (x - o) / n as o leaves. */
  method SlideMoments(n: nat, m: real, m2: real, o: real, x: real,
                      ghost s: real, ghost q: real, ghost s': real, ghost q': real)
    returns (m': real, m2': real)
    requires 0 < n && Welford(n as real, s, q, m, m2)
    requires s' == s - o + x && q' == q - o * o + x * x
    ensures Welford(n as real, s', q', m', m2')
  {
    var delta := x - o;
    m' := m + delta / (n as real);
    var delta2 := x - m' + o - m;
    m2' := m2 + delta * delta2;
    SlideStep(n as real, s, q, m, m2, o, x, s', q', m', m2');
  }

  /** Overwriting the slot after index with x keeps the window state; o is the value
      overwritten, the one that leaves the window (zero while it fills). */
  lemma SdStep(slots: seq<real>, index: nat, h: seq<real>, x: real, s: real, q: real,
               c: nat, o: real, s': real, q': real)
    requires SdState(slots, index, h, s, q)
    requires c == (index + 1) % |slots| && o == slots[c]
    requires s' == s - o + x && q' == q - o * o + x * x
    ensures SdState(slots[c := x], c, h + [x], s', q')
    ensures o == Evicted(h, |slots|)
  {
    var n := |slots|;
    ZeroRingEvicted(slots, index, h);
    ZeroRingStep(slots, index, h, x);
    WindowSumStep(h, x, n);
    WindowSumSqStep(h, x, n, o);
    assert |slots[c := x]| == n;
  }

  class StandardDeviation {
    const n: nat
    /** The slot of the latest input. */
    var index: nat
    /** How many inputs the window holds, up to n. */
    var count: nat
    /** The mean of the window. */
    var m: real
    /** The sum of squared deviations of the window from m. */
    var m2: real
    /** The sum and the sum of squares of the window, which the proof tracks. */
    ghost var sum: real
    ghost var sumSq: real
    /** The ring of the last n inputs; slots not written since reset hold zero. */
    var vec: array<real>
    /** The inputs since construction or the last reset. */
    ghost var history: seq<real>
    ghost var Repr: set<object>

    /** The ring, the history and the two sums agree. */
    ghost predicate RingValid()
      reads this`Repr, this`vec, this`index, this`history, this`sum, this`sumSq, vec
      ensures RingValid() ==> this in Repr
    {
      Repr == {this, vec} &&
      n > 0 && vec.Length == n &&
      SdState(vec[..], index, history, sum, sumSq)
    }

    ghost predicate Valid()
      reads this, Repr, vec
      ensures Valid() ==> this in Repr
    {
      RingValid() &&
      count == |Window(history, n)| &&
      Welford(count as real, sum, sumSq, m, m2)
    }

    constructor Init(n: nat)
      requires n > 0
      ensures Valid() && fresh(Repr) && history == [] && this.n == n
      ensures index == 0 && count == 0 && m == 0.0 && m2 == 0.0
      ensures forall j :: 0 <= j < vec.Length ==> vec[j] == 0.0
    {
      this.n := n;
      index, count, m, m2 := 0, 0, 0.0, 0.0;
      sum, sumSq := 0.0, 0.0;
      vec := new real[n](_ => 0.0);
      history := [];
      Repr := {this, vec};
      new;
      ZeroRingEmpty(vec[..], index);
    }

    /** A length of zero is rejected. */
    static method New(n: nat) returns (r: Result<StandardDeviation>)
      ensures r.Err? <==> n == 0
      ensures r.Err? ==> r.error == InvalidParameter
      ensures r.Ok? ==> fresh(r.value.Repr) && r.value.Valid() && r.value.history == [] && r.value.n == n
    {
      if n == 0 {
        return Err(InvalidParameter);
      }
      var s := new StandardDeviation.Init(n);
      return Ok(s);
    }

    static method Default() returns (s: StandardDeviation)
      ensures fresh(s.Repr) && s.Valid() && s.history == [] && s.n == 9
    {
      s := new StandardDeviation.Init(9);
    }

    /** The mean of the current window. */
    method Mean() returns (r: real)
      requires Valid()
      ensures r == Windows.Mean(Window(history, n))
    {
      if count > 0 {
        VarianceFromSums(Window(history, n), count as real, sum, sumSq, m, m2);
      }
      r := m;
    }

    /** Overwrites the oldest slot with the input and returns the value it held, the
        one that leaves the window. */
    method Advance(input: real) returns (oldVal: real)
      requires RingValid()
      modifies Repr
      ensures RingValid() && Repr == old(Repr)
      ensures count == old(count) && m == old(m) && m2 == old(m2)
      ensures history == old(history) + [input]
      ensures oldVal == Evicted(old(history), n)
      ensures sum == old(sum) - oldVal + input && sumSq == old(sumSq) - oldVal * oldVal + input * input
    {
      var a := vec;
      ghost var s0, i0, h, sum0, sq0 := a[..], index, history, sum, sumSq;
      index := (index + 1) % n;
      oldVal := a[index];
      a[index] := input;
      sum, sumSq := sum0 - oldVal + input, sq0 - oldVal * oldVal + input * input;
      history := h + [input];
      SdStep(s0, i0, h, input, sum0, sq0, index, oldVal, sum, sumSq);
      assert a[..] == s0[index := input];
    }

    /** The first half of Next: overwrite the oldest slot, then update the count, the
        mean and the squared deviations. */
    method Store(input: real)
      requires Valid()
      modifies Repr
      ensures Valid() && Repr == old(Repr)
      ensures history == old(history) + [input]
    {
      ghost var s0, q0 := sum, sumSq;
      var oldVal := Advance(input);
      count, m, m2 := UpdateMoments(n, count, m, m2, oldVal, input, s0, q0, sum, sumSq);
    }

    /** Records an input and returns the standard deviation of the last n inputs. */
    method Next(input: real) returns (r: real)
      requires Valid()
      modifies Repr
      ensures Valid() && Repr == old(Repr)
      ensures history == old(history) + [input]
      ensures r == Sqrt(Variance(Window(history, n)))
    {
      Store(input);
      VarianceFromSums(Window(history, n), count as real, sum, sumSq, m, m2);
      r := Sqrt(m2 / (count as real));
    }

    /** A bar's contribution is its close. */
    method NextBar(bar: DataItem) returns (r: real)
      requires Valid()
      modifies Repr
      ensures Valid() && Repr == old(Repr)
      ensures history == old(history) + [bar.close]
      ensures r == Sqrt(Variance(Window(history, n)))
    {
      r := Next(bar.close);
    }

    /** Returns to the state of a newly constructed indicator. */
    method Reset()
      requires Valid()
      modifies Repr
      ensures Valid() && Repr == old(Repr) && history == []
      ensures index == 0 && count == 0 && m == 0.0 && m2 == 0.0
      ensures forall j :: 0 <= j < vec.Length ==> vec[j] == 0.0
    {
      var a := vec;
      for i := 0 to n
        modifies a
        invariant forall j :: 0 <= j < i ==> a[j] == 0.0
      {
        a[i] := 0.0;
      }
      index, count, m, m2 := 0, 0, 0.0, 0.0;
      sum, sumSq := 0.0, 0.0;
      history := [];
      ZeroRingEmpty(a[..], index);
    }
  }

  /** The variances behind the documented outputs 0 and 5 for a length of 4. */
  lemma VarianceDocExample()
    ensures Variance(Window([10.0], 4)) == 0.0
    ensures Variance(Window([10.0, 20.0], 4)) == 25.0
  {
  }

  /** The variances behind the tested outputs 8.165, 7.071, 7.071 and 35.355 for a
      length of 4, after the same first two inputs. */
  lemma VarianceTestExample()
    ensures Variance(Window([10.0, 20.0, 30.0], 4)) == 200.0 / 3.0
    ensures Variance(Window([10.0, 20.0, 30.0, 20.0], 4)) == 50.0
  {
  }

  lemma VarianceSlideExample()
    ensures Variance(Window([10.0, 20.0, 30.0, 20.0, 10.0], 4)) == 50.0
    ensures Variance(Window([10.0, 20.0, 30.0, 20.0, 10.0, 100.0], 4)) == 1250.0
  {
  }
}
