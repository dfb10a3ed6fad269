/** The highest value over the last n inputs, kept in a ring of optional slots. */
module Maximum {
  import opened Wrappers
  import opened Windows
  import opened DataItems

  class Maximum {
    /** The ring of the last n inputs; None marks a slot not written since reset. */
    var vec: array<Option<real>>
    /** The slot holding the current maximum. */
    var maxIndex: nat
    /** The slot of the latest input. */
    var curIndex: nat
    /** The inputs since construction or the last reset. */
    ghost var history: seq<real>
    ghost var Repr: set<object>

    ghost predicate Valid()
      reads this, Repr
      ensures Valid() ==> this in Repr
    {
      Repr == {this, vec} &&
      0 < vec.Length && curIndex < vec.Length && maxIndex < vec.Length &&
      OptionRing(vec[..], curIndex, history) &&
      (history != [] ==> vec[maxIndex].Some? && vec[maxIndex].value == SeqMax(Window(history, vec.Length)))
    }

    constructor Init(n: nat)
      requires n > 0
      ensures Valid() && fresh(Repr) && history == []
      ensures vec.Length == n && maxIndex == 0 && curIndex == 0
    {
      vec := new Option<real>[n](_ => None);
      maxIndex, curIndex := 0, 0;
      history := [];
      Repr := {this, vec};
    }

    /** A window of length zero is rejected. */
    static method New(n: nat) returns (r: Result<Maximum>)
      ensures r.Err? <==> n == 0
      ensures r.Err? ==> r.error == InvalidParameter
      ensures r.Ok? ==> fresh(r.value.Repr) && r.value.Valid() && r.value.history == [] && r.value.vec.Length == n
    {
      if n == 0 {
        return Err(InvalidParameter);
      }
      var m := new Maximum.Init(n);
      return Ok(m);
    }

    static method Default() returns (m: Maximum)
      ensures fresh(m.Repr) && m.Valid() && m.history == [] && m.vec.Length == 14
    {
      m := new Maximum.Init(14);
    }

    /** The first filled slot holding the largest value, or None when every slot is
        empty. Later slots replace the candidate only when strictly greater. */
    method FindMaxIndex() returns (r: Option<nat>)
      ensures r.None? <==> forall j :: 0 <= j < vec.Length ==> vec[j].None?
      ensures r.Some? ==> r.value < vec.Length && vec[r.value].Some?
      ensures r.Some? ==> forall j :: 0 <= j < vec.Length && vec[j].Some? ==> vec[r.value].value >= vec[j].value
      ensures r.Some? ==> forall j :: 0 <= j < r.value && vec[j].Some? ==> vec[r.value].value > vec[j].value
    {
      var maxValue: Option<real> := None;
      r := None;
      for i := 0 to vec.Length
        invariant r.None? <==> forall j :: 0 <= j < i ==> vec[j].None?
        invariant r.None? <==> maxValue.None?
        invariant r.Some? ==> r.value < i && vec[r.value] == maxValue
        invariant r.Some? ==> forall j :: 0 <= j < i && vec[j].Some? ==> maxValue.value >= vec[j].value
        invariant r.Some? ==> forall j :: 0 <= j < r.value && vec[j].Some? ==> maxValue.value > vec[j].value
      {
        match vec[i] {
          case Some(value) =>
            match r {
              case Some(_) =>
                if value > maxValue.value {
                  r, maxValue := Some(i), vec[i];
                }
              case None =>
                r, maxValue := Some(i), vec[i];
            }
          case None =>
        }
      }
    }

    /** The first half of Next: advance the cursor and store the input there. */
    method Store(input: real)
      requires Valid()
      modifies Repr
      ensures Repr == old(Repr) && vec == old(vec) && maxIndex == old(maxIndex)
      ensures curIndex == (old(curIndex) + 1) % vec.Length
      ensures vec[..] == old(vec[..])[curIndex := Some(input)]
      ensures history == old(history) + [input]
      ensures OptionRing(vec[..], curIndex, history)
    {
      var a := vec;
      ghost var s0, h := a[..], history;
      var c := (curIndex + 1) % a.Length;
      OptionRingStep(s0, curIndex, h, input);
      a[c] := Some(input);
      curIndex := c;
      history := h + [input];
    }

    /** Records an input and returns the highest of the last n inputs. */
    method Next(input: real) returns (r: real)
      requires Valid()
      modifies Repr
      ensures Valid() && Repr == old(Repr) && vec.Length == old(vec.Length)
      ensures history == old(history) + [input]
      ensures r == SeqMax(Window(history, vec.Length))
      ensures vec[maxIndex] == Some(r)
    {
      ghost var s0, h := vec[..], history;
      Store(input);
      if vec[maxIndex].Some? && input > vec[maxIndex].value {
        assert maxIndex != curIndex && vec[maxIndex] == s0[maxIndex];
        FastPathSound(s0, old(curIndex), h, maxIndex, input);
        maxIndex := curIndex;
        return vec[maxIndex].value;
      }
      var found := FindMaxIndex();
      OptionRingNewest(vec[..], curIndex, history);
      maxIndex := found.value;
      OptionRingMax(vec[..], curIndex, history, maxIndex);
      r := vec[maxIndex].value;
    }

    /** A bar's contribution is its high. */
    method NextBar(bar: DataItem) returns (r: real)
      requires Valid()
      modifies Repr
      ensures Valid() && Repr == old(Repr) && vec.Length == old(vec.Length)
      ensures history == old(history) + [bar.high]
      ensures r == SeqMax(Window(history, vec.Length))
    {
      r := Next(bar.high);
    }

    /** Empties every slot. The cursor and the maximum slot are left where they are,
        which does not change any later output. */
    method Reset()
      requires Valid()
      modifies Repr
      ensures Valid() && Repr == old(Repr) && history == []
      ensures vec.Length == old(vec.Length) && curIndex == old(curIndex) && maxIndex == old(maxIndex)
      ensures forall j :: 0 <= j < vec.Length ==> vec[j].None?
    {
      var a := vec;
      for i := 0 to a.Length
        modifies a
        invariant forall j :: 0 <= j < i ==> a[j].None?
      {
        a[i] := None;
      }
      history := [];
    }
  }

  /** The shortcut of Next is sound: an input above the value still held by the slot
      of the previous maximum is the new maximum. */
  lemma FastPathSound(slots: seq<Option<real>>, cur: nat, h: seq<real>, mi: nat, x: real)
    requires OptionRing(slots, cur, h) && mi < |slots|
    requires h != [] ==> slots[mi].Some? && slots[mi].value == SeqMax(Window(h, |slots|))
    requires slots[mi].Some? && x > slots[mi].value
    ensures SeqMax(Window(h + [x], |slots|)) == x
  {
    assert OptionSlot(slots, cur, h, mi);
    WindowPushMax(h, x, |slots|);
  }

  /** The documented sequence for a length of 3. */
  lemma MaximumDocExample()
    ensures SeqMax(Window([7.0, 5.0, 4.0], 3)) == 7.0
    ensures SeqMax(Window([7.0, 5.0, 4.0, 4.0], 3)) == 5.0
    ensures SeqMax(Window([7.0, 5.0, 4.0, 4.0, 8.0], 3)) == 8.0
  {
  }

  /** The test sequence for a length of 3, and the bar test for a length of 2. */
  lemma MaximumTestExample()
    ensures SeqMax(Window([4.0, 1.2, 5.0, 3.0, 4.0, 0.0], 3)) == 4.0
    ensures SeqMax(Window([4.0, 1.2, 5.0, 3.0, 4.0, 0.0, -1.0, -2.0, -1.5], 3)) == -1.0
    ensures SeqMax(Window([1.1, 4.0, 3.5, 2.0], 2)) == 3.5
  {
  }
}
