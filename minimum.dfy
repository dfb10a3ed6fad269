/** The lowest value over the last n inputs, kept in a ring of optional slots. */
module Minimum {
  import opened Wrappers
  import opened Windows
  import opened DataItems

  class Minimum {
    /** The ring of the last n inputs; None marks a slot not written since reset. */
    var vec: array<Option<real>>
    /** The slot holding the current minimum. */
    var minIndex: nat
    /** The slot of the latest input. */
    var curIndex: nat
    /** The inputs since construction or the last reset. */
    ghost var history: seq<real>
    ghost var Repr: set<object>

    ghost predicate Valid()
      reads this, Repr
      ensures Valid() ==> this in Repr
    {
      Repr == {this, vec} &&
      0 < vec.Length && curIndex < vec.Length && minIndex < vec.Length &&
      OptionRing(vec[..], curIndex, history) &&
      (history != [] ==> vec[minIndex].Some? && vec[minIndex].value == SeqMin(Window(history, vec.Length)))
    }

    constructor Init(n: nat)
      requires n > 0
      ensures Valid() && fresh(Repr) && history == []
      ensures vec.Length == n && minIndex == 0 && curIndex == 0
    {
      vec := new Option<real>[n](_ => None);
      minIndex, curIndex := 0, 0;
      history := [];
      Repr := {this, vec};
    }

    /** A window of length zero is rejected. */
    static method New(n: nat) returns (r: Result<Minimum>)
      ensures r.Err? <==> n == 0
      ensures r.Err? ==> r.error == InvalidParameter
      ensures r.Ok? ==> fresh(r.value.Repr) && r.value.Valid() && r.value.history == [] && r.value.vec.Length == n
    {
      if n == 0 {
        return Err(InvalidParameter);
      }
      var m := new Minimum.Init(n);
      return Ok(m);
    }

    static method Default() returns (m: Minimum)
      ensures fresh(m.Repr) && m.Valid() && m.history == [] && m.vec.Length == 14
    {
      m := new Minimum.Init(14);
    }

    /** The first filled slot holding the smallest value, or None when every slot is
        empty. Later slots replace the candidate only when strictly smaller. */
    method FindMinIndex() returns (r: Option<nat>)
      ensures r.None? <==> forall j :: 0 <= j < vec.Length ==> vec[j].None?
      ensures r.Some? ==> r.value < vec.Length && vec[r.value].Some?
      ensures r.Some? ==> forall j :: 0 <= j < vec.Length && vec[j].Some? ==> vec[r.value].value <= vec[j].value
      ensures r.Some? ==> forall j :: 0 <= j < r.value && vec[j].Some? ==> vec[r.value].value < vec[j].value
    {
      var minValue: Option<real> := None;
      r := None;
      for i := 0 to vec.Length
        invariant r.None? <==> forall j :: 0 <= j < i ==> vec[j].None?
        invariant r.None? <==> minValue.None?
        invariant r.Some? ==> r.value < i && vec[r.value] == minValue
        invariant r.Some? ==> forall j :: 0 <= j < i && vec[j].Some? ==> minValue.value <= vec[j].value
        invariant r.Some? ==> forall j :: 0 <= j < r.value && vec[j].Some? ==> minValue.value < vec[j].value
      {
        match vec[i] {
          case Some(value) =>
            match r {
              case Some(_) =>
                if value < minValue.value {
                  r, minValue := Some(i), vec[i];
                }
              case None =>
                r, minValue := Some(i), vec[i];
            }
          case None =>
        }
      }
    }

    /** The first half of Next: advance the cursor and store the input there. */
    method Store(input: real)
      requires Valid()
      modifies Repr
      ensures Repr == old(Repr) && vec == old(vec) && minIndex == old(minIndex)
      ensures curIndex == (old(curIndex) + 1) % vec.Length
      ensures vec[..] == old(vec[..])[curIndex := Some(input)]
      ensures history == old(history) + [input]
      ensures OptionRing(vec[..], curIndex, history)
    {
      var a := vec;
      ghost var s0, h := a[..], history;
      var c := (curIndex + 1) % a.Length;
      OptionRingStep(s0, curIndex, h, input);
      a[c] := Some(input);
      curIndex := c;
      history := h + [input];
    }

    /** Records an input and returns the lowest of the last n inputs. */
    method Next(input: real) returns (r: real)
      requires Valid()
      modifies Repr
      ensures Valid() && Repr == old(Repr) && vec.Length == old(vec.Length)
      ensures history == old(history) + [input]
      ensures r == SeqMin(Window(history, vec.Length))
      ensures vec[minIndex] == Some(r)
    {
      ghost var s0, h := vec[..], history;
      Store(input);
      if vec[minIndex].Some? && input < vec[minIndex].value {
        assert minIndex != curIndex && vec[minIndex] == s0[minIndex];
        FastPathSound(s0, old(curIndex), h, minIndex, input);
        minIndex := curIndex;
        return vec[minIndex].value;
      }
      var found := FindMinIndex();
      OptionRingNewest(vec[..], curIndex, history);
      minIndex := found.value;
      OptionRingMin(vec[..], curIndex, history, minIndex);
      r := vec[minIndex].value;
    }

    /** A bar's contribution is its low. */
    method NextBar(bar: DataItem) returns (r: real)
      requires Valid()
      modifies Repr
      ensures Valid() && Repr == old(Repr) && vec.Length == old(vec.Length)
      ensures history == old(history) + [bar.low]
      ensures r == SeqMin(Window(history, vec.Length))
    {
      r := Next(bar.low);
    }

    /** Empties every slot. The cursor and the minimum slot are left where they are,
        which does not change any later output. */
    method Reset()
      requires Valid()
      modifies Repr
      ensures Valid() && Repr == old(Repr) && history == []
      ensures vec.Length == old(vec.Length) && curIndex == old(curIndex) && minIndex == old(minIndex)
      ensures forall j :: 0 <= j < vec.Length ==> vec[j].None?
    {
      var a := vec;
      for i := 0 to a.Length
        modifies a
        invariant forall j :: 0 <= j < i ==> a[j].None?
      {
        a[i] := None;
      }
      history := [];
    }
  }

  /** The shortcut of Next is sound: an input below the value still held by the slot
      of the previous minimum is the new minimum. */
  lemma FastPathSound(slots: seq<Option<real>>, cur: nat, h: seq<real>, mi: nat, x: real)
    requires OptionRing(slots, cur, h) && mi < |slots|
    requires h != [] ==> slots[mi].Some? && slots[mi].value == SeqMin(Window(h, |slots|))
    requires slots[mi].Some? && x < slots[mi].value
    ensures SeqMin(Window(h + [x], |slots|)) == x
  {
    assert OptionSlot(slots, cur, h, mi);
    WindowPushMin(h, x, |slots|);
  }

  /** The documented sequence for a length of 3. */
  lemma MinimumDocExample()
    ensures SeqMin(Window([10.0, 11.0, 12.0], 3)) == 10.0
    ensures SeqMin(Window([10.0, 11.0, 12.0, 13.0], 3)) == 11.0
  {
  }

  /** The test sequence for a length of 3, from the fifth output on. */
  lemma MinimumTestExample()
    ensures SeqMin(Window([4.0, 1.2, 5.0, 3.0, 4.0], 3)) == 3.0
    ensures SeqMin(Window([4.0, 1.2, 5.0, 3.0, 4.0, 6.0, 7.0, 8.0, -9.0], 3)) == -9.0
  {
  }
}
