/** The true range: how far the price moved, measured against the previous close. */
module TrueRange {
  import opened Wrappers
  import opened Helpers
  import opened DataItems

  /** The scalar true range: the distance from the previous value, or 0 for the first. */
  function Distance(prev: Option<real>, x: real): (d: real)
    ensures d >= 0.0
    ensures d == 0.0 <==> prev.None? || x == prev.value
    ensures prev.Some? ==> d == x - prev.value || d == prev.value - x
  {
    match prev
    case Some(p) => Abs(x - p)
    case None => 0.0
  }

  /** The true range of a bar: its own span, widened to reach the previous close. */
  function BarRange(prev: Option<real>, bar: DataItem): (r: real)
    ensures r >= bar.high - bar.low
    ensures prev.None? ==> r == bar.high - bar.low
    ensures prev.Some? ==> r >= Abs(bar.high - prev.value) && r >= Abs(bar.low - prev.value)
    ensures prev.Some? ==> r == bar.high - bar.low || r == Abs(bar.high - prev.value) || r == Abs(bar.low - prev.value)
  {
    match prev
    case Some(p) => Max3(bar.high - bar.low, Abs(bar.high - p), Abs(bar.low - p))
    case None => bar.high - bar.low
  }

  /** The bar range is never negative once there is a previous close, and never for a
      bar whose high is at least its low. */
  lemma BarRangeNonNegative(prev: Option<real>, bar: DataItem)
    requires prev.Some? || bar.low <= bar.high
    ensures BarRange(prev, bar) >= 0.0
  {
  }

  class TrueRange {
    /** The last value seen by either entry point: a scalar input or a bar's close. */
    var prevClose: Option<real>

    constructor ()
      ensures prevClose == None
    {
      prevClose := None;
    }

    static method Default() returns (t: TrueRange)
      ensures fresh(t) && t.prevClose == None
    {
      t := new TrueRange();
    }

    /** Returns the distance from the previous value and remembers the input. */
    method Next(input: real) returns (r: real)
      modifies this
      ensures r == Distance(old(prevClose), input)
      ensures prevClose == Some(input)
    {
      var distance: real;
      match prevClose {
        case Some(prev) =>
          distance := if input - prev < 0.0 then prev - input else input - prev;
        case None =>
          distance := 0.0;
      }
      prevClose := Some(input);
      r := distance;
    }

    /** Returns the true range of a bar and remembers its close. */
    method NextBar(bar: DataItem) returns (r: real)
      modifies this
      ensures r == BarRange(old(prevClose), bar)
      ensures prevClose == Some(bar.close)
    {
      var maxDist: real;
      match prevClose {
        case Some(prev) =>
          var dist1 := bar.high - bar.low;
          var dist2 := Abs(bar.high - prev);
          var dist3 := Abs(bar.low - prev);
          maxDist := Max3(dist1, dist2, dist3);
        case None =>
          maxDist := bar.high - bar.low;
      }
      prevClose := Some(bar.close);
      r := maxDist;
    }

    method Reset()
      modifies this
      ensures prevClose == None
    {
      prevClose := None;
    }
  }

  /** The scalar test sequence: 2.5, 3.6, 3.3. */
  lemma DistanceExample()
    ensures Distance(None, 2.5) == 0.0
    ensures Distance(Some(2.5), 3.6) == 1.1
    ensures Distance(Some(3.6), 3.3) == 0.3
  {
  }

  /** The bar test sequence, and the first bar after a reset. */
  lemma BarRangeExample()
    ensures BarRange(None, DataItem(0.0, 10.0, 7.5, 9.0, 0.0)) == 2.5
    ensures BarRange(Some(9.0), DataItem(0.0, 11.0, 9.0, 9.5, 0.0)) == 2.0
    ensures BarRange(Some(9.5), DataItem(0.0, 9.0, 5.0, 8.0, 0.0)) == 4.5
    ensures BarRange(None, DataItem(0.0, 60.0, 15.0, 51.0, 0.0)) == 45.0
  {
  }
}
