/** The OHLCV data item that indicators read, and the builder that validates it. */
module DataItems {
  import opened Wrappers

  /** One bar of market data. Indicators read its fields and never check them; only
      the builder below enforces consistency. */
  datatype DataItem = DataItem(open: real, high: real, low: real, close: real, volume: real)

  /** The consistency rule of a built item: the low is the smallest price and is not
      negative, the high is the largest price, and the volume is not negative. */
  predicate Consistent(open: real, high: real, low: real, close: real, volume: real)
  {
    low <= open && low <= close && low <= high &&
    high >= open && high >= close &&
    volume >= 0.0 && low >= 0.0
  }

  /** A data item under construction: every field starts unset. */
  datatype DataItemBuilder = DataItemBuilder(
    open: Option<real>, high: Option<real>, low: Option<real>,
    close: Option<real>, volume: Option<real>)
  {
    predicate Complete()
    {
      open.Some? && high.Some? && low.Some? && close.Some? && volume.Some?
    }

    function Open(val: real): (b: DataItemBuilder)
      ensures b.open == Some(val)
      ensures b.high == high && b.low == low && b.close == close && b.volume == volume
    {
      this.(open := Some(val))
    }

    function High(val: real): (b: DataItemBuilder)
      ensures b.high == Some(val)
      ensures b.open == open && b.low == low && b.close == close && b.volume == volume
    {
      this.(high := Some(val))
    }

    function Low(val: real): (b: DataItemBuilder)
      ensures b.low == Some(val)
      ensures b.open == open && b.high == high && b.close == close && b.volume == volume
    {
      this.(low := Some(val))
    }

    function Close(val: real): (b: DataItemBuilder)
      ensures b.close == Some(val)
      ensures b.open == open && b.high == high && b.low == low && b.volume == volume
    {
      this.(close := Some(val))
    }

    function Volume(val: real): (b: DataItemBuilder)
      ensures b.volume == Some(val)
      ensures b.open == open && b.high == high && b.low == low && b.close == close
    {
      this.(volume := Some(val))
    }

    /** An incomplete builder is reported before any validation; a complete one
        yields exactly the values it was given, or DataItemInvalid when they are
        inconsistent. */
    function Build(): (r: Result<DataItem>)
      ensures !Complete() <==> r == Err(DataItemIncomplete)
      ensures r.Ok? <==> Complete() && Consistent(open.value, high.value, low.value, close.value, volume.value)
      ensures r.Err? ==> r.error == DataItemIncomplete || r.error == DataItemInvalid
      ensures r.Ok? ==> r.value == DataItem(open.value, high.value, low.value, close.value, volume.value)
    {
      if Complete() then
        if Consistent(open.value, high.value, low.value, close.value, volume.value) then
          Ok(DataItem(open.value, high.value, low.value, close.value, volume.value))
        else
          Err(DataItemInvalid)
      else
        Err(DataItemIncomplete)
    }
  }

  function NewBuilder(): (b: DataItemBuilder)
    ensures b.open.None? && b.high.None? && b.low.None? && b.close.None? && b.volume.None?
  {
    DataItemBuilder(None, None, None, None, None)
  }

  /** Setting all five fields of a fresh builder, in any values, builds an item whose
      accessors return those values exactly when the values are consistent; leaving
      one out is always reported as incomplete. */
  lemma BuildAllFields(open: real, high: real, low: real, close: real, volume: real)
    ensures var r := NewBuilder().Open(open).High(high).Low(low).Close(close).Volume(volume).Build();
      (r.Ok? <==> Consistent(open, high, low, close, volume)) &&
      (r.Ok? ==> r.value.open == open && r.value.high == high && r.value.low == low &&
                 r.value.close == close && r.value.volume == volume) &&
      (r.Err? ==> r.error == DataItemInvalid)
    ensures NewBuilder().Open(open).High(high).Low(low).Close(close).Build() == Err(DataItemIncomplete)
  {
  }

  /** A later setter call overrides an earlier one for the same field. */
  lemma SetterOverrides(b: DataItemBuilder, x: real, y: real)
    ensures b.Open(x).Open(y) == b.Open(y)
    ensures b.Close(x).Close(y) == b.Close(y)
  {
  }

  function BuildRecord(open: real, high: real, low: real, close: real, volume: real): Result<DataItem>
  {
    NewBuilder().Open(open).High(high).Low(low).Close(close).Volume(volume).Build()
  }

  /** The builder's test records: three accepted, ten rejected. */
  lemma BuilderExamples()
    ensures BuildRecord(20.0, 25.0, 15.0, 21.0, 7500.0).Ok?
    ensures BuildRecord(10.0, 10.0, 10.0, 10.0, 10.0).Ok?
    ensures BuildRecord(0.0, 0.0, 0.0, 0.0, 0.0).Ok?
    ensures BuildRecord(-1.0, 25.0, 15.0, 21.0, 7500.0) == Err(DataItemInvalid)
    ensures BuildRecord(20.0, -1.0, 15.0, 21.0, 7500.0) == Err(DataItemInvalid)
    ensures BuildRecord(20.0, 25.0, -1.0, 21.0, 7500.0) == Err(DataItemInvalid)
    ensures BuildRecord(20.0, 25.0, 15.0, -1.0, 7500.0) == Err(DataItemInvalid)
    ensures BuildRecord(20.0, 25.0, 15.0, 21.0, -1.0) == Err(DataItemInvalid)
    ensures BuildRecord(14.9, 25.0, 15.0, 21.0, 7500.0) == Err(DataItemInvalid)
    ensures BuildRecord(25.1, 25.0, 15.0, 21.0, 7500.0) == Err(DataItemInvalid)
    ensures BuildRecord(20.0, 25.0, 15.0, 14.9, 7500.0) == Err(DataItemInvalid)
    ensures BuildRecord(20.0, 25.0, 15.0, 25.1, 7500.0) == Err(DataItemInvalid)
    ensures BuildRecord(20.0, 15.0, 25.0, 21.0, 7500.0) == Err(DataItemInvalid)
  {
  }
}
