/** Sliding windows over an input history, the statistics the windowed indicators
    compute over them, and the circular-buffer layout those indicators store them in. */
module Windows {
  import opened Wrappers

  /** The last min(|h|, n) inputs of h: what an indicator of length n looks at. */
  function Window(h: seq<real>, n: nat): (w: seq<real>)
    ensures |w| == if |h| <= n then |h| else n
  {
    if |h| <= n then h else h[|h| - n..]
  }

  /** The elements of the window are the latest inputs, oldest first. */
  lemma WindowElements(h: seq<real>, n: nat)
    ensures forall i :: 0 <= i < |Window(h, n)| ==> Window(h, n)[i] == h[|h| - |Window(h, n)| + i]
  {
  }

  /** One more input either grows the window or slides it by one. */
  lemma WindowPush(h: seq<real>, x: real, n: nat)
    requires n > 0
    ensures Window(h + [x], n) == if |h| < n then Window(h, n) + [x] else Window(h, n)[1..] + [x]
  {
    var h' := h + [x];
    if |h| >= n {
      assert h'[|h'| - n..] == h[|h| - n + 1..] + [x];
    }
  }

  /** A window one longer than before, after one more input, is the old window plus it. */
  lemma WindowGrow(h: seq<real>, x: real, n: nat)
    ensures Window(h + [x], n + 1) == Window(h, n) + [x]
  {
    var h' := h + [x];
    if |h| > n {
      assert h'[|h'| - (n + 1)..] == h[|h| - n..] + [x];
    }
  }

  /** The input that leaves a length-n window when x arrives, or zero while the
      window is still filling. */
  function Evicted(h: seq<real>, n: nat): real
    requires n > 0
  {
    if |h| >= n then h[|h| - n] else 0.0
  }

  /** The window sum changes by the input that arrives minus the input that leaves. */
  lemma WindowSumStep(h: seq<real>, x: real, n: nat)
    requires n > 0
    ensures Sum(Window(h + [x], n)) == Sum(Window(h, n)) - Evicted(h, n) + x
  {
    var w := Window(h, n);
    WindowPush(h, x, n);
    if |h| < n {
      SumAppend(w, x);
    } else {
      SumAppend(w[1..], x);
      assert w[0] == h[|h| - n];
    }
  }

  /** The same for the sum of squares; o names the input that leaves. */
  lemma WindowSumSqStep(h: seq<real>, x: real, n: nat, o: real)
    requires n > 0 && o == Evicted(h, n)
    ensures SumSq(Window(h + [x], n)) == SumSq(Window(h, n)) - o * o + x * x
  {
    var w := Window(h, n);
    WindowPush(h, x, n);
    if |h| < n {
      SumAppend(w, x);
    } else {
      SumAppend(w[1..], x);
      SumsUnfold(w, 0.0);
      assert w[0] == o;
    }
  }

  // ----- Statistics over a sequence -----

  function SeqMin(s: seq<real>): (r: real)
    requires |s| > 0
    ensures r in s
    ensures forall i :: 0 <= i < |s| ==> r <= s[i]
  {
    if |s| == 1 then s[0]
    else
      var m := SeqMin(s[1..]);
      assert forall i :: 1 <= i < |s| ==> s[i] == s[1..][i - 1];
      if s[0] < m then s[0] else m
  }

  function SeqMax(s: seq<real>): (r: real)
    requires |s| > 0
    ensures r in s
    ensures forall i :: 0 <= i < |s| ==> r >= s[i]
  {
    if |s| == 1 then s[0]
    else
      var m := SeqMax(s[1..]);
      assert forall i :: 1 <= i < |s| ==> s[i] == s[1..][i - 1];
      if s[0] > m then s[0] else m
  }

  /** A member of s that is no larger than any member is the minimum. */
  lemma SeqMinUnique(s: seq<real>, r: real)
    requires r in s && forall i :: 0 <= i < |s| ==> r <= s[i]
    ensures SeqMin(s) == r
  {
  }

  lemma SeqMaxUnique(s: seq<real>, r: real)
    requires r in s && forall i :: 0 <= i < |s| ==> r >= s[i]
    ensures SeqMax(s) == r
  {
  }

  function Sum(s: seq<real>): real
  {
    if |s| == 0 then 0.0 else s[0] + Sum(s[1..])
  }

  function SumSq(s: seq<real>): real
  {
    if |s| == 0 then 0.0 else s[0] * s[0] + SumSq(s[1..])
  }

  /** The arithmetic mean, taken as 0 for an empty sequence. */
  function Mean(s: seq<real>): real
  {
    if |s| == 0 then 0.0 else Sum(s) / (|s| as real)
  }

  /** The sum of squared deviations of s from a. */
  function SumSqDev(s: seq<real>, a: real): real
  {
    if |s| == 0 then 0.0 else (s[0] - a) * (s[0] - a) + SumSqDev(s[1..], a)
  }

  lemma {:induction false} SumSqDevNonNegative(s: seq<real>, a: real)
    ensures SumSqDev(s, a) >= 0.0
  {
    if |s| > 0 {
      SquareNonNegative(s[0] - a);
      SumSqDevNonNegative(s[1..], a);
    }
  }

  lemma SquareNonNegative(d: real)
    ensures d * d >= 0.0
  {
    if d < 0.0 {
      assert d * d == (-d) * (-d);
    }
  }

  lemma {:induction false} SumAppend(s: seq<real>, x: real)
    ensures Sum(s + [x]) == Sum(s) + x
    ensures SumSq(s + [x]) == SumSq(s) + x * x
  {
    if |s| == 0 {
      assert s + [x] == [x];
    } else {
      assert (s + [x])[1..] == s[1..] + [x];
      SumAppend(s[1..], x);
    }
  }

  lemma {:induction false} SumUpdate(s: seq<real>, i: nat, v: real)
    requires i < |s|
    ensures Sum(s[i := v]) == Sum(s) - s[i] + v
  {
    if i > 0 {
      assert s[i := v][1..] == s[1..][i - 1 := v];
      SumUpdate(s[1..], i - 1, v);
    }
  }

  /** The expanded form q - 2 a sum + n a^2 of a sum of squared deviations from a,
      where q is the sum of squares, sum the sum and n the count. */
  function Expanded(q: real, sum: real, n: real, a: real): real
  {
    q - 2.0 * a * sum + n * a * a
  }

  /** The squared deviations expand into the sums of squares and of values. */
  lemma {:induction false} SumSqDevExpand(s: seq<real>, a: real)
    ensures SumSqDev(s, a) == Expanded(SumSq(s), Sum(s), |s| as real, a)
  {
    if |s| == 0 {
      ExpandedEmpty(a);
    } else {
      var t := s[1..];
      SumSqDevExpand(t, a);
      SumsUnfold(s, a);
      ExpandStep(SumSqDev(s, a), SumSq(s), Sum(s), |s| as real, s[0], a,
                 SumSq(t), Sum(t), |t| as real, SumSqDev(t, a));
    }
  }

  lemma SumsUnfold(s: seq<real>, a: real)
    requires |s| > 0
    ensures SumSqDev(s, a) == (s[0] - a) * (s[0] - a) + SumSqDev(s[1..], a)
    ensures SumSq(s) == s[0] * s[0] + SumSq(s[1..])
    ensures Sum(s) == s[0] + Sum(s[1..])
    ensures |s| as real == (|s[1..]| as real) + 1.0
  {
  }

  lemma ExpandedEmpty(a: real)
    ensures Expanded(0.0, 0.0, 0.0, a) == 0.0
  {
  }

  /** The algebra of one step of SumSqDevExpand, kept apart from the sequences. */
  lemma ExpandStep(d: real, qs: real, ss: real, n: real, x: real, a: real,
                   q: real, sum: real, k: real, dt: real)
    requires d == (x - a) * (x - a) + dt
    requires dt == Expanded(q, sum, k, a)
    requires qs == x * x + q && ss == x + sum && n == k + 1.0
    ensures d == Expanded(qs, ss, n, a)
  {
    assert n * a * a == k * a * a + a * a;
    assert 2.0 * a * ss == 2.0 * a * x + 2.0 * a * sum;
  }

  // ----- The circular-buffer layout -----

  /** How many writes ago slot j of an n-slot ring was written, when the latest write
      went to slot cur and the cursor advances one slot (mod n) per write. */
  function Age(cur: nat, j: nat, n: nat): (d: nat)
    requires cur < n && j < n
    ensures d < n
    ensures j + d == cur || j + d == cur + n
  {
    if j <= cur then cur - j else cur + n - j
  }

  /** Slot j of an optional-value ring holds the input written Age(cur, j, n) writes
      ago, or None when no such input exists, for the history h. */
  ghost predicate OptionSlot(slots: seq<Option<real>>, cur: nat, h: seq<real>, j: nat)
    requires cur < |slots| && j < |slots|
  {
    var d := Age(cur, j, |slots|);
    slots[j] == if d < |h| then Some(h[|h| - 1 - d]) else None
  }

  /** A ring of optional values holding the latest inputs of h: the newest at cur,
      older ones behind it, and None in the slots not written since h started. */
  ghost predicate OptionRing(slots: seq<Option<real>>, cur: nat, h: seq<real>)
  {
    cur < |slots| && forall j :: 0 <= j < |slots| ==> OptionSlot(slots, cur, h, j)
  }

  /** The same layout for a ring whose unwritten slots hold zero. */
  ghost predicate ZeroSlot(slots: seq<real>, cur: nat, h: seq<real>, j: nat)
    requires cur < |slots| && j < |slots|
  {
    var d := Age(cur, j, |slots|);
    slots[j] == if d < |h| then h[|h| - 1 - d] else 0.0
  }

  ghost predicate ZeroRing(slots: seq<real>, cur: nat, h: seq<real>)
  {
    cur < |slots| && forall j :: 0 <= j < |slots| ==> ZeroSlot(slots, cur, h, j)
  }

  /** A ring whose slots are all zero holds the empty history. */
  lemma ZeroRingEmpty(slots: seq<real>, cur: nat)
    requires cur < |slots| && forall j :: 0 <= j < |slots| ==> slots[j] == 0.0
    ensures ZeroRing(slots, cur, [])
  {
    forall j | 0 <= j < |slots| ensures ZeroSlot(slots, cur, [], j) { }
  }

  lemma AgeStep(cur: nat, j: nat, n: nat)
    requires cur < n && j < n && j != (cur + 1) % n
    ensures Age((cur + 1) % n, j, n) == Age(cur, j, n) + 1
  {
    assert (cur + 1) % n == if cur + 1 == n then 0 else cur + 1;
  }

  /** The slot after the cursor is the oldest one. */
  lemma AgeNext(cur: nat, n: nat)
    requires cur < n
    ensures Age(cur, (cur + 1) % n, n) == n - 1
  {
    assert (cur + 1) % n == if cur + 1 == n then 0 else cur + 1;
  }

  /** Advancing the cursor and writing x there keeps the layout, for the history with x. */
  lemma OptionRingStep(slots: seq<Option<real>>, cur: nat, h: seq<real>, x: real)
    requires OptionRing(slots, cur, h)
    ensures OptionRing(slots[(cur + 1) % |slots| := Some(x)], (cur + 1) % |slots|, h + [x])
  {
    var n := |slots|;
    var c := (cur + 1) % n;
    var s' := slots[c := Some(x)];
    forall j | 0 <= j < n ensures OptionSlot(s', c, h + [x], j) {
      if j != c {
        assert OptionSlot(slots, cur, h, j);
        AgeStep(cur, j, n);
      }
    }
  }

  /** The slot the next write overwrites holds the input that leaves the window. */
  lemma ZeroRingEvicted(slots: seq<real>, cur: nat, h: seq<real>)
    requires ZeroRing(slots, cur, h)
    ensures slots[(cur + 1) % |slots|] == if |h| >= |slots| then h[|h| - |slots|] else 0.0
  {
    assert ZeroSlot(slots, cur, h, (cur + 1) % |slots|);
    AgeNext(cur, |slots|);
  }

  /** As OptionRingStep, for a ring of zeros. */
  lemma ZeroRingStep(slots: seq<real>, cur: nat, h: seq<real>, x: real)
    requires ZeroRing(slots, cur, h)
    ensures ZeroRing(slots[(cur + 1) % |slots| := x], (cur + 1) % |slots|, h + [x])
  {
    var n := |slots|;
    var c := (cur + 1) % n;
    var s' := slots[c := x];
    forall j | 0 <= j < n ensures ZeroSlot(s', c, h + [x], j) {
      if j != c {
        assert ZeroSlot(slots, cur, h, j);
        AgeStep(cur, j, n);
      }
    }
  }

  /** Every filled slot holds a member of the window, at the returned position. */
  lemma OptionRingSlotInWindow(slots: seq<Option<real>>, cur: nat, h: seq<real>, j: nat) returns (k: nat)
    requires OptionRing(slots, cur, h) && j < |slots| && slots[j].Some?
    ensures k < |Window(h, |slots|)| && Window(h, |slots|)[k] == slots[j].value
  {
    var n := |slots|;
    var d := Age(cur, j, n);
    assert OptionSlot(slots, cur, h, j);
    var w := Window(h, n);
    k := |w| - 1 - d;
    assert w[k] == h[|h| - |w| + k];
  }

  /** Every member of the window is held by some slot. */
  lemma OptionRingWindowInSlot(slots: seq<Option<real>>, cur: nat, h: seq<real>, i: nat) returns (j: nat)
    requires OptionRing(slots, cur, h) && i < |Window(h, |slots|)|
    ensures j < |slots| && slots[j] == Some(Window(h, |slots|)[i])
  {
    var n := |slots|;
    var w := Window(h, n);
    var d := |w| - 1 - i;
    j := if d <= cur then cur - d else cur + n - d;
    assert Age(cur, j, n) == d;
    assert OptionSlot(slots, cur, h, j);
    assert w[i] == h[|h| - |w| + i];
  }

  /** The newest input sits at the cursor. */
  lemma OptionRingNewest(slots: seq<Option<real>>, cur: nat, h: seq<real>)
    requires OptionRing(slots, cur, h) && |h| > 0
    ensures slots[cur] == Some(h[|h| - 1])
  {
    assert OptionSlot(slots, cur, h, cur);
  }

  /** A filled slot no larger than any other filled slot holds the window minimum. */
  lemma OptionRingMin(slots: seq<Option<real>>, cur: nat, h: seq<real>, k: nat)
    requires OptionRing(slots, cur, h) && |h| > 0 && k < |slots| && slots[k].Some?
    requires forall j :: 0 <= j < |slots| && slots[j].Some? ==> slots[k].value <= slots[j].value
    ensures slots[k].value == SeqMin(Window(h, |slots|))
  {
    var w := Window(h, |slots|);
    var _ := OptionRingSlotInWindow(slots, cur, h, k);
    forall i | 0 <= i < |w| ensures slots[k].value <= w[i] {
      var j := OptionRingWindowInSlot(slots, cur, h, i);
    }
    SeqMinUnique(w, slots[k].value);
  }

  /** A filled slot no smaller than any other filled slot holds the window maximum. */
  lemma OptionRingMax(slots: seq<Option<real>>, cur: nat, h: seq<real>, k: nat)
    requires OptionRing(slots, cur, h) && |h| > 0 && k < |slots| && slots[k].Some?
    requires forall j :: 0 <= j < |slots| && slots[j].Some? ==> slots[k].value >= slots[j].value
    ensures slots[k].value == SeqMax(Window(h, |slots|))
  {
    var w := Window(h, |slots|);
    var _ := OptionRingSlotInWindow(slots, cur, h, k);
    forall i | 0 <= i < |w| ensures slots[k].value >= w[i] {
      var j := OptionRingWindowInSlot(slots, cur, h, i);
    }
    SeqMaxUnique(w, slots[k].value);
  }

  /** An input no larger than the current window minimum is the next window minimum. */
  lemma WindowPushMin(h: seq<real>, x: real, n: nat)
    requires n > 0 && |h| > 0 && x <= SeqMin(Window(h, n))
    ensures SeqMin(Window(h + [x], n)) == x
  {
    WindowPush(h, x, n);
    var w, w' := Window(h, n), Window(h + [x], n);
    forall i | 0 <= i < |w'| ensures x <= w'[i] {
      if i < |w'| - 1 {
        assert w'[i] == if |h| < n then w[i] else w[i + 1];
      }
    }
    SeqMinUnique(w', x);
  }

  /** An input no smaller than the current window maximum is the next window maximum. */
  lemma WindowPushMax(h: seq<real>, x: real, n: nat)
    requires n > 0 && |h| > 0 && x >= SeqMax(Window(h, n))
    ensures SeqMax(Window(h + [x], n)) == x
  {
    WindowPush(h, x, n);
    var w, w' := Window(h, n), Window(h + [x], n);
    forall i | 0 <= i < |w'| ensures x >= w'[i] {
      if i < |w'| - 1 {
        assert w'[i] == if |h| < n then w[i] else w[i + 1];
      }
    }
    SeqMaxUnique(w', x);
  }

  /** The newest input lies within the extremes of its own window. */
  lemma WindowNewest(h: seq<real>, x: real, n: nat)
    requires n > 0
    ensures SeqMin(Window(h + [x], n)) <= x <= SeqMax(Window(h + [x], n))
  {
    var w := Window(h + [x], n);
    assert w[|w| - 1] == x;
  }

  /** The window after the very first input holds that input alone. */
  lemma WindowFirst(h: seq<real>, x: real, n: nat)
    requires n > 0
    ensures h == [] ==> SeqMin(Window(h + [x], n)) == x && SeqMax(Window(h + [x], n)) == x
  {
    if h == [] {
      assert Window(h + [x], n) == [x];
    }
  }

  /** The maximum after one more value is the larger of the old maximum and it. */
  lemma SeqMaxSnoc(w: seq<real>, x: real)
    requires |w| > 0
    ensures SeqMax(w + [x]) == if x > SeqMax(w) then x else SeqMax(w)
  {
    var m, w' := SeqMax(w), w + [x];
    var r := if x > m then x else m;
    forall i | 0 <= i < |w'|
      ensures r >= w'[i]
    {
      if i < |w| {
        assert w'[i] == w[i];
      }
    }
    if r == x {
      assert w'[|w|] == r;
    } else {
      var j :| 0 <= j < |w| && w[j] == m;
      assert w'[j] == r;
    }
    SeqMaxUnique(w', r);
  }

  /** The minimum after one more value is the smaller of the old minimum and it. */
  lemma SeqMinSnoc(w: seq<real>, x: real)
    requires |w| > 0
    ensures SeqMin(w + [x]) == if x < SeqMin(w) then x else SeqMin(w)
  {
    var m, w' := SeqMin(w), w + [x];
    var r := if x < m then x else m;
    forall i | 0 <= i < |w'|
      ensures r <= w'[i]
    {
      if i < |w| {
        assert w'[i] == w[i];
      }
    }
    if r == x {
      assert w'[|w|] == r;
    } else {
      var j :| 0 <= j < |w| && w[j] == m;
      assert w'[j] == r;
    }
    SeqMinUnique(w', r);
  }


  /** The maximum of one more element of w, scanned from the front. */
  lemma SeqMaxPrefix(w: seq<real>, j: nat)
    requires j < |w|
    ensures j == 0 ==> SeqMax(w[..1]) == w[0]
    ensures j > 0 ==> SeqMax(w[..j + 1]) == if w[j] > SeqMax(w[..j]) then w[j] else SeqMax(w[..j])
  {
    assert w[..j + 1] == w[..j] + [w[j]];
    if j == 0 {
      assert w[..1] == [w[0]];
    } else {
      SeqMaxSnoc(w[..j], w[j]);
    }
  }

  /** The minimum of one more element of w, scanned from the front. */
  lemma SeqMinPrefix(w: seq<real>, j: nat)
    requires j < |w|
    ensures j == 0 ==> SeqMin(w[..1]) == w[0]
    ensures j > 0 ==> SeqMin(w[..j + 1]) == if w[j] < SeqMin(w[..j]) then w[j] else SeqMin(w[..j])
  {
    assert w[..j + 1] == w[..j] + [w[j]];
    if j == 0 {
      assert w[..1] == [w[0]];
    } else {
      SeqMinSnoc(w[..j], w[j]);
    }
  }
}
