# ta-rs indicators in Dafny

A model of the streaming technical-analysis library ta-rs. Each indicator is an
object that receives one price or one bar (open, high, low, close, volume) at a time.
Its `next` updates some internal state and returns the indicator's current value.
`reset` returns it to its newly constructed state. All indicators share a bar
record with a validating builder, a handful of numeric helpers and one error type.

Every indicator becomes one module holding a class with the source's own fields
(ring buffers stay `array`s, deques become `seq` fields, sub-indicators become object
fields). Each class also keeps a ghost `history`: the inputs seen since construction
or the last reset. The class invariant `Valid()` ties the concrete state to that
history, and every `Next` is proved to return a specification function of the history:

- `Mean(Window(history, n))` for the simple moving average;
- `SeqMin`/`SeqMax` of the window for the minimum and the maximum;
- the recursive `Ema` for the exponential average;
- `Sqrt(Variance(...))` for the standard deviation;
- and so on.

Lemmas then prove what those specification functions mean. They give bounds (an
average lies between the window's extremes; the oscillators lie in [0, 100]), inverses
(the rate of change applied to its anchor gives back the price), equivalences (the
smoothed average is the exponential average with factor 1/n), first outputs after a
reset, and a selection of the worked values of the library's own tests and doc
examples.

Numbers are Dafny `real`s, so results are exact where the library computes in
floating point. Where the library divides by a quantity that can be zero, the model
returns `Option<real>`: `None` stands for the infinite or NaN result the library
would produce. Constructors that take lengths are static `New` methods returning
`Result`, with `Err(InvalidParameter)` exactly where the library rejects the
parameters. `Default` gives the library's default parameters.

Shared modules:

- `Wrappers`: `Option`, `Result` and the library's error kinds.
- `DataItems`: the bar record and its builder.
- `Helpers`: `max`, `max3` and an absolute value.
- `Windows`: `Window(h, n)`, the last n elements of h, with the sums, means,
  extremes and ring-buffer invariants the indicators share.

## Model

| member | source | states |
|---|---|---|
| Helpers.Max | src/helpers.rs:9-18 | the result is one of the two arguments and at least both |
| Helpers.Max3 | src/helpers.rs:2-7 | the result is one of the three arguments and at least each of them |
| Helpers.Max3Examples | src/helpers.rs:24-29 | the largest of 3, 2, 1 in each position is 3 |
| Helpers.Abs | src/indicators/true_range.rs:84 | the absolute value is not negative and is x or -x |
| DataItems.DataItemBuilder.Open | src/data_item.rs:94-97 | sets the open and leaves every other field as it was |
| DataItems.DataItemBuilder.High | src/data_item.rs:99-102 | sets the high and leaves every other field as it was |
| DataItems.DataItemBuilder.Low | src/data_item.rs:104-107 | sets the low and leaves every other field as it was |
| DataItems.DataItemBuilder.Close | src/data_item.rs:109-112 | sets the close and leaves every other field as it was |
| DataItems.DataItemBuilder.Volume | src/data_item.rs:114-117 | sets the volume and leaves every other field as it was |
| DataItems.DataItemBuilder.Build | src/data_item.rs:119-146 | a builder missing a field gives DataItemIncomplete; a complete one succeeds exactly when low <= open, close, high, high >= open, close and volume, low >= 0, and gives a bar with the builder's values; otherwise DataItemInvalid |
| DataItems.NewBuilder | src/data_item.rs:84-92 | a new builder has every field unset |
| DataItems.BuildAllFields | src/data_item.rs:119-146 | setting all five fields builds exactly when the prices are consistent, with the given values; leaving out the volume gives DataItemIncomplete |
| DataItems.SetterOverrides | src/data_item.rs:94-112 | setting a field twice keeps the second value |
| DataItems.BuilderExamples | src/data_item.rs:153-201 | the valid bars of the builder test build, and each invalid one is rejected as DataItemInvalid |
| Windows.Window | src/indicators/simple_moving_average.rs:78-90 | the window has min(\|h\|, n) elements |
| Windows.WindowElements | src/indicators/simple_moving_average.rs:78-90 | the window is the tail of the history, element by element |
| Windows.WindowPush | src/indicators/simple_moving_average.rs:78-90 | one more input grows a short window and slides a full one over by one |
| Windows.WindowGrow | src/indicators/efficiency_ratio.rs:60-85 | a window one longer after one more input is the old window plus the input |
| Windows.WindowFirst | src/indicators/fast_stochastic.rs:73-84 | the first input is both the minimum and the maximum of its window |
| Windows.WindowSumStep | src/indicators/simple_moving_average.rs:78-90 | the window's sum changes by the new input less the evicted one, as the running sum does |
| Windows.WindowSumSqStep | src/indicators/standard_deviation.rs:111-133 | the window's sum of squares changes by the new square less the evicted square |
| Windows.SeqMin | src/indicators/minimum.rs:52-73 | the result is an element of the sequence and at most every element |
| Windows.SeqMax | src/indicators/maximum.rs:51-72 | the result is an element of the sequence and at least every element |
| Windows.SumSqDevNonNegative | src/indicators/standard_deviation.rs:111-133 | a sum of squared deviations is never negative |
| Windows.SumSqDevExpand | src/indicators/standard_deviation.rs:111-133 | the sum of squared deviations equals the expansion in the sum and the sum of squares |
| Windows.SumAppend | src/indicators/simple_moving_average.rs:78-90 | appending x adds x to the sum and x*x to the sum of squares |
| Windows.SumUpdate | src/indicators/simple_moving_average.rs:78-90 | overwriting one slot changes the sum by the new value less the old |
| Windows.OptionRingStep | src/indicators/minimum.rs:82-94 | writing the input at the next ring slot keeps the ring holding the last n inputs |
| Windows.ZeroRingStep | src/indicators/simple_moving_average.rs:78-90 | writing the input at the next ring slot keeps the zero-filled ring holding the last n inputs |
| Windows.ZeroRingEvicted | src/indicators/simple_moving_average.rs:78-90 | the slot about to be overwritten holds the input leaving the window, or 0 while the window is not full |
| Windows.OptionRingMin | src/indicators/minimum.rs:52-73 | the smallest value held in the ring is the minimum of the window |
| Windows.OptionRingNewest | src/indicators/minimum.rs:82-84 | the cursor slot holds the newest input |
| Windows.OptionRingMax | src/indicators/maximum.rs:51-72 | the largest value held in the ring is the maximum of the window |
| Windows.WindowPushMin | src/indicators/minimum.rs:82-94 | an input at most the current minimum is the new minimum |
| Windows.WindowPushMax | src/indicators/maximum.rs:81-93 | an input at least the current maximum is the new maximum |
| Windows.WindowNewest | src/indicators/fast_stochastic.rs:73-84 | the newest input lies between the window's minimum and maximum |
| Windows.SeqMaxSnoc | src/indicators/ichimoku.rs:109-121 | the maximum of a sequence extended by x is x when x is larger, else the old maximum |
| Windows.SeqMinSnoc | src/indicators/ichimoku.rs:109-121 | the minimum of a sequence extended by x is x when x is smaller, else the old minimum |
| Minimum.Minimum.New | src/indicators/minimum.rs:36-50 | a length of 0 is rejected with InvalidParameter; otherwise an empty minimum over n slots |
| Minimum.Minimum.Init | src/indicators/minimum.rs:36-50 | a new minimum has n empty slots, both indices at 0 and no history |
| Minimum.Minimum.Default | src/indicators/minimum.rs:121-123 | the default minimum has 14 slots and no history |
| Minimum.Minimum.FindMinIndex | src/indicators/minimum.rs:52-73 | None exactly when every slot is empty; otherwise the first slot holding the smallest value |
| Minimum.Minimum.Store | src/indicators/minimum.rs:82-84 | the input is written at the next slot of the ring, which keeps holding the last n inputs |
| Minimum.Minimum.Next | src/indicators/minimum.rs:82-94 | the result is the minimum of the last n inputs, and the tracked index points at it |
| Minimum.Minimum.NextBar | src/indicators/minimum.rs:104-106 | a bar contributes its low; the result is the minimum of the last n lows |
| Minimum.Minimum.Reset | src/indicators/minimum.rs:110-115 | every slot is emptied and the history forgotten; the cursor and index stay |
| Minimum.FastPathSound | src/indicators/minimum.rs:86-91 | an input below the tracked minimum is the new window minimum |
| Minimum.MinimumDocExample | src/indicators/minimum.rs:20-23 | the doc example's minima 10 and 11 |
| Minimum.MinimumTestExample | src/indicators/minimum.rs:146-158 | the test's minima 3 and -9 |
| Maximum.Maximum.New | src/indicators/maximum.rs:36-48 | a length of 0 is rejected with InvalidParameter; otherwise an empty maximum over n slots |
| Maximum.Maximum.Init | src/indicators/maximum.rs:36-48 | a new maximum has n empty slots, both indices at 0 and no history |
| Maximum.Maximum.Default | src/indicators/maximum.rs:120-122 | the default maximum has 14 slots and no history |
| Maximum.Maximum.FindMaxIndex | src/indicators/maximum.rs:51-72 | None exactly when every slot is empty; otherwise the first slot holding the largest value |
| Maximum.Maximum.Store | src/indicators/maximum.rs:81-83 | the input is written at the next slot of the ring, which keeps holding the last n inputs |
| Maximum.Maximum.Next | src/indicators/maximum.rs:81-93 | the result is the maximum of the last n inputs, and the tracked index points at it |
| Maximum.Maximum.NextBar | src/indicators/maximum.rs:103-105 | a bar contributes its high; the result is the maximum of the last n highs |
| Maximum.Maximum.Reset | src/indicators/maximum.rs:109-114 | every slot is emptied and the history forgotten; the cursor and index stay |
| Maximum.FastPathSound | src/indicators/maximum.rs:85-90 | an input above the tracked maximum is the new window maximum |
| Maximum.MaximumDocExample | src/indicators/maximum.rs:19-23 | the doc example's maxima 7, 5 and 8 |
| Maximum.MaximumTestExample | src/indicators/maximum.rs:145-170 | the test's maxima 4, -1 and, for bars, 3.5 |
| SimpleMovingAverage.SimpleMovingAverage.New | src/indicators/simple_moving_average.rs:55-69 | a length of 0 is rejected with InvalidParameter; otherwise an empty average of length n |
| SimpleMovingAverage.SimpleMovingAverage.Init | src/indicators/simple_moving_average.rs:55-69 | a new average has index, count and sum 0, n zero slots and no history |
| SimpleMovingAverage.SimpleMovingAverage.Default | src/indicators/simple_moving_average.rs:123-125 | the default average has length 9 |
| SimpleMovingAverage.SimpleMovingAverage.Store | src/indicators/simple_moving_average.rs:78-88 | the ring, count and running sum keep holding the last n inputs and their sum |
| SimpleMovingAverage.SimpleMovingAverage.Next | src/indicators/simple_moving_average.rs:78-90 | the result is the mean of the last n inputs (of all of them while fewer than n) |
| SimpleMovingAverage.SimpleMovingAverage.NextBar | src/indicators/simple_moving_average.rs:100-102 | a bar contributes its close |
| SimpleMovingAverage.SimpleMovingAverage.Reset | src/indicators/simple_moving_average.rs:109-117 | index, count and sum return to 0, every slot to 0, the history is forgotten |
| SimpleMovingAverage.SmaStep | src/indicators/simple_moving_average.rs:78-88 | one step of the ring update evicts exactly the input leaving the window and keeps the sum equal to the window's sum |
| SimpleMovingAverage.AllZeroSum | src/indicators/simple_moving_average.rs:109-117 | zeroed slots sum to 0 |
| SimpleMovingAverage.SimpleMovingAverageDocExample | src/indicators/simple_moving_average.rs:31-35 | the doc example's averages 10, 10.5, 11 and 12 for length 3 |
| SimpleMovingAverage.SimpleMovingAverageTestExample | src/indicators/simple_moving_average.rs:148-156 | the test's averages 4, 4.5, 5, 5.25, 5.75, 6 and 5 for length 4, the window sliding from the fifth input on |
| SimpleMovingAverage.SimpleMovingAverageBarExample | src/indicators/simple_moving_average.rs:159-182 | the bar test's averages 4, 4, 5 and 4 for length 3, and 99 alone after a reset |
| StandardDeviation.HeronStep | src/indicators/standard_deviation.rs:78-94 | one Heron step from above stays positive and above the root, never rises, and cuts the excess of its square over v at least fourfold |
| StandardDeviation.HeronBound | src/indicators/standard_deviation.rs:78-94 | ttl Heron steps from a seed at or above the root give a value between the root and the seed whose excess shrinks by 4 to the power ttl |
| StandardDeviation.HeronFixedPoint | src/indicators/standard_deviation.rs:78-94 | seeded with the exact root of a*a, the iteration stays at a |
| StandardDeviation.SqrtBound | src/indicators/standard_deviation.rs:96-103 | the square root of 0 is 0; for v > 0 the 32 iterations seeded with v give an over-approximation of the root whose excess has shrunk by 4^31 from that of (v+1)/2 |
| StandardDeviation.SqrtLowerBound | src/indicators/standard_deviation.rs:96-103 | the computed root is never negative, its square is at least v, and it is 0 exactly for v = 0 |
| StandardDeviation.VarianceNonNegative | src/indicators/standard_deviation.rs:111-133 | the population variance is never negative |
| StandardDeviation.StdDevBound | src/indicators/standard_deviation.rs:111-133 | the deviation is not negative, its square is at least the variance, and it is 0 exactly for a zero variance |
| StandardDeviation.VarianceFromSums | src/indicators/standard_deviation.rs:111-133 | the running mean and m2 kept by the indicator are the window's mean and n times its variance |
| StandardDeviation.FillStep | src/indicators/standard_deviation.rs:117-122 | Welford's update while the window fills keeps mean and m2 those of the inputs |
| StandardDeviation.SlideStep | src/indicators/standard_deviation.rs:123-129 | Welford's update for a full window, replacing the evicted input, keeps mean and m2 those of the window |
| StandardDeviation.UpdateMoments | src/indicators/standard_deviation.rs:117-129 | the count grows until n, and mean and m2 stay those of the window after the new input |
| StandardDeviation.FillMoments | src/indicators/standard_deviation.rs:117-122 | the filling branch keeps mean and m2 those of the inputs |
| StandardDeviation.SlideMoments | src/indicators/standard_deviation.rs:123-129 | the sliding branch keeps mean and m2 those of the window |
| StandardDeviation.SdStep | src/indicators/standard_deviation.rs:111-133 | the ring step evicts exactly the input leaving the window and keeps the sums those of the window |
| StandardDeviation.StandardDeviation.New | src/indicators/standard_deviation.rs:54-69 | a length of 0 is rejected with InvalidParameter; otherwise an empty deviation of length n |
| StandardDeviation.StandardDeviation.Init | src/indicators/standard_deviation.rs:54-69 | a new deviation has index, count, mean and m2 0, n zero slots and no history |
| StandardDeviation.StandardDeviation.Default | src/indicators/standard_deviation.rs:166-168 | the default deviation has length 9 |
| StandardDeviation.StandardDeviation.Mean | src/indicators/standard_deviation.rs:71-73 | the running mean is the mean of the window |
| StandardDeviation.StandardDeviation.Advance | src/indicators/standard_deviation.rs:112-115 | the ring takes the input and returns the input that left the window (0 while not full) |
| StandardDeviation.StandardDeviation.Store | src/indicators/standard_deviation.rs:112-129 | ring, count, mean and m2 keep describing the last n inputs |
| StandardDeviation.StandardDeviation.Next | src/indicators/standard_deviation.rs:111-133 | the result is the computed square root of the population variance of the last n inputs |
| StandardDeviation.StandardDeviation.NextBar | src/indicators/standard_deviation.rs:142-144 | a bar contributes its close |
| StandardDeviation.StandardDeviation.Reset | src/indicators/standard_deviation.rs:151-160 | index, count, mean and m2 return to 0, every slot to 0, the history is forgotten |
| StandardDeviation.VarianceDocExample | src/indicators/standard_deviation.rs:27-36 | the doc example's variances 0 and 25 (deviations 0 and 5) |
| StandardDeviation.VarianceTestExample | src/indicators/standard_deviation.rs:191-198 | the test's variances 200/3 and 50 |
| StandardDeviation.VarianceSlideExample | src/indicators/standard_deviation.rs:191-198 | the test's variances 50 and 1250 once the window slides |
| ExponentialMovingAverage.Alpha | src/indicators/exponential_moving_average.rs:71-86 | the factor 2/(n+1) lies in (0, 1], and is 1 exactly for length 1 |
| ExponentialMovingAverage.EmaAppend | src/indicators/exponential_moving_average.rs:114-124 | one more input blends the previous average towards it by the factor |
| ExponentialMovingAverage.BlendBetween | src/indicators/exponential_moving_average.rs:114-124 | a blend lies between the previous average and the input |
| ExponentialMovingAverage.BlendOne | src/indicators/exponential_moving_average.rs:114-124 | a factor of 1 passes the input through |
| ExponentialMovingAverage.EmaBounds | src/indicators/exponential_moving_average.rs:114-124 | the average lies between the smallest and the largest input |
| ExponentialMovingAverage.EmaNonNegative | src/indicators/exponential_moving_average.rs:114-124 | an average of inputs that are not negative is not negative |
| ExponentialMovingAverage.EmaSumPositive | src/indicators/exponential_moving_average.rs:114-124 | for a factor below 1 and inputs that are not negative, a positive first pair keeps the sum of two averages positive |
| ExponentialMovingAverage.EmaConstant | src/indicators/exponential_moving_average.rs:114-124 | a constant input gives that constant |
| ExponentialMovingAverage.BlendSumPositive | src/indicators/exponential_moving_average.rs:114-124 | blending two averages with a positive sum towards inputs that are not negative keeps the sum positive |
| ExponentialMovingAverage.EmaLengthOne | src/indicators/exponential_moving_average.rs:114-124 | length 1 returns the latest input |
| ExponentialMovingAverage.ExponentialMovingAverage.New | src/indicators/exponential_moving_average.rs:71-86 | a length of 0 is rejected with InvalidParameter; otherwise a new average of that length |
| ExponentialMovingAverage.ExponentialMovingAverage.Init | src/indicators/exponential_moving_average.rs:71-86 | a new average has no history and the next input starts it |
| ExponentialMovingAverage.ExponentialMovingAverage.Default | src/indicators/exponential_moving_average.rs:184-186 | the default average has length 9 |
| ExponentialMovingAverage.ExponentialMovingAverage.Length | src/indicators/exponential_moving_average.rs:88-90 | returns the length whose factor the average uses |
| ExponentialMovingAverage.ExponentialMovingAverage.Next | src/indicators/exponential_moving_average.rs:114-124 | the result is the exponential average of the history: the input itself first, then a value between the previous result and the input |
| ExponentialMovingAverage.ExponentialMovingAverage.NextBar | src/indicators/exponential_moving_average.rs:133-137 | a bar contributes its close |
| ExponentialMovingAverage.ExponentialMovingAverage.Reset | src/indicators/exponential_moving_average.rs:174-177 | the next input starts the average afresh |
| ExponentialMovingAverage.EmaDocExample | src/indicators/exponential_moving_average.rs:48-51 | the doc example's averages 2, 3.5, 2.25 and 4.25 for length 3 |
| ExponentialMovingAverage.EmaResetExample | src/indicators/exponential_moving_average.rs:254-264 | after a reset the first input is returned as it is |
| SmoothedOrModifiedMovingAverage.SmmaStepIsBlend | src/indicators/smoothed_or_modified_moving_average.rs:103-113 | one smoothing step is an exponential blend with factor 1/n |
| SmoothedOrModifiedMovingAverage.SmmaIsEma | src/indicators/smoothed_or_modified_moving_average.rs:103-113 | the smoothed average is the exponential average with factor 1/n |
| SmoothedOrModifiedMovingAverage.SmmaBounds | src/indicators/smoothed_or_modified_moving_average.rs:103-113 | the smoothed average lies between the smallest and the largest input |
| SmoothedOrModifiedMovingAverage.SmmaLengthOne | src/indicators/smoothed_or_modified_moving_average.rs:103-113 | length 1 returns the latest input |
| SmoothedOrModifiedMovingAverage.SmoothedOrModifiedMovingAverage.New | src/indicators/smoothed_or_modified_moving_average.rs:70-82 | a length of 0 is rejected with InvalidParameter; otherwise a new average of that length |
| SmoothedOrModifiedMovingAverage.SmoothedOrModifiedMovingAverage.Init | src/indicators/smoothed_or_modified_moving_average.rs:70-82 | a new average has no history and the next input starts it |
| SmoothedOrModifiedMovingAverage.SmoothedOrModifiedMovingAverage.Default | src/indicators/smoothed_or_modified_moving_average.rs:148-150 | the default average has length 9 |
| SmoothedOrModifiedMovingAverage.SmoothedOrModifiedMovingAverage.Length | src/indicators/smoothed_or_modified_moving_average.rs:86-88 | returns the length |
| SmoothedOrModifiedMovingAverage.SmoothedOrModifiedMovingAverage.Next | src/indicators/smoothed_or_modified_moving_average.rs:103-113 | the result is the smoothed average of the history: the input first, then a value between the previous result and the input |
| SmoothedOrModifiedMovingAverage.SmoothedOrModifiedMovingAverage.NextBar | src/indicators/smoothed_or_modified_moving_average.rs:129-131 | a bar contributes its close |
| SmoothedOrModifiedMovingAverage.SmoothedOrModifiedMovingAverage.Reset | src/indicators/smoothed_or_modified_moving_average.rs:138-141 | the next input starts the average afresh |
| SmoothedOrModifiedMovingAverage.SmmaExample | src/indicators/smoothed_or_modified_moving_average.rs:103-113 | for length 3 the inputs 2, 5, 1 give 2, 3 and 7/3 |
| TrueRange.Distance | src/indicators/true_range.rs:82-89 | the distance to the previous close is not negative, 0 for the first input or an unchanged one, and otherwise the absolute change |
| TrueRange.BarRange | src/indicators/true_range.rs:99-111 | the bar's spread for the first bar; afterwards the largest of the spread and the distances of high and low from the previous close |
| TrueRange.BarRangeNonNegative | src/indicators/true_range.rs:99-111 | the true range is not negative once a previous close exists, or for a bar whose low is at most its high |
| TrueRange.TrueRange.constructor | src/indicators/true_range.rs:59-61 | a new true range has no previous close |
| TrueRange.TrueRange.Default | src/indicators/true_range.rs:65-67 | the default true range has no previous close |
| TrueRange.TrueRange.Next | src/indicators/true_range.rs:82-89 | returns the distance to the previous close and remembers the input |
| TrueRange.TrueRange.NextBar | src/indicators/true_range.rs:99-111 | returns the bar's true range and remembers its close |
| TrueRange.TrueRange.Reset | src/indicators/true_range.rs:115-117 | forgets the previous close |
| TrueRange.DistanceExample | src/indicators/true_range.rs:128-132 | the test's distances 0, 1.1 and 0.3 |
| TrueRange.BarRangeExample | src/indicators/true_range.rs:136-160 | the test's true ranges 2.5, 2, 4.5 and, after a reset, 45 |
| AverageTrueRange.AverageTrueRange.New | src/indicators/average_true_range.rs:67-73 | a length of 0 is rejected with InvalidParameter; otherwise a new averager of that length |
| AverageTrueRange.AverageTrueRange.Init | src/indicators/average_true_range.rs:67-73 | a new true range without a previous close and an empty average of the length |
| AverageTrueRange.AverageTrueRange.Default | src/indicators/average_true_range.rs:113-115 | the default averages over 14 |
| AverageTrueRange.AverageTrueRange.Next | src/indicators/average_true_range.rs:82-84 | the average receives the distance to the previous input; the result is the exponential average of all distances so far |
| AverageTrueRange.AverageTrueRange.NextBar | src/indicators/average_true_range.rs:94-96 | the average receives the bar's true range |
| AverageTrueRange.AverageTrueRange.Reset | src/indicators/average_true_range.rs:103-106 | both parts return to their new state |
| AverageTrueRange.AtrTestExample | src/indicators/average_true_range.rs:140-149 | the test's averages 2.5, 2.25 and 3.375 for length 3 |
| AverageTrueRange.AtrResetExample | src/indicators/average_true_range.rs:153-164 | after a reset the first bar's range 45 is returned |
| RateOfChange.Anchor | src/indicators/rate_of_change.rs:76-82 | the price compared with is the one n inputs earlier, or the oldest one while fewer than n+1 have arrived |
| RateOfChange.RocInverse | src/indicators/rate_of_change.rs:70-87 | a defined rate applied to its anchor gives back the latest price, and the anchor is not zero |
| RateOfChange.RocZero | src/indicators/rate_of_change.rs:70-87 | the rate is 0 exactly when the latest price equals its anchor |
| RateOfChange.RateOfChange.New | src/indicators/rate_of_change.rs:50-61 | a length of 0 is rejected with InvalidParameter; otherwise an empty rate of that length |
| RateOfChange.RateOfChange.Init | src/indicators/rate_of_change.rs:50-61 | a new rate has an empty queue and no history |
| RateOfChange.RateOfChange.Default | src/indicators/rate_of_change.rs:102-104 | the default length is 9 |
| RateOfChange.RateOfChange.Next | src/indicators/rate_of_change.rs:70-87 | the queue never exceeds n prices and the result is 0 for the first input, else the percentage change from the anchor |
| RateOfChange.RateOfChange.NextBar | src/indicators/rate_of_change.rs:96-98 | a bar contributes its close |
| RateOfChange.RateOfChange.Reset | src/indicators/rate_of_change.rs:114-116 | the queue is emptied |
| RateOfChange.RocTestExample | src/indicators/rate_of_change.rs:134-142 | the test's rates 0, 4, 5.7 and 8 |
| RateOfChange.RocDocExample | src/indicators/rate_of_change.rs:33-36 | the doc example's rates -3 and 100 |
| EfficiencyRatio.Volatility | src/indicators/efficiency_ratio.rs:68-76 | the path length is never negative |
| EfficiencyRatio.Direction | src/indicators/efficiency_ratio.rs:78-80 | the net move is never negative |
| EfficiencyRatio.Er | src/indicators/efficiency_ratio.rs:59-90 | a defined ratio lies in [0, 1]; it is undefined exactly for more than two flat prices |
| EfficiencyRatio.DirectionBound | src/indicators/efficiency_ratio.rs:66-89 | the net move never exceeds the path (triangle inequality) |
| EfficiencyRatio.VolatilityZero | src/indicators/efficiency_ratio.rs:68-76 | the path is 0 exactly when all prices are equal |
| EfficiencyRatio.Kept | src/indicators/efficiency_ratio.rs:60-85 | between calls the deque holds at most max(length, 2) prices |
| EfficiencyRatio.EfficiencyRatio.New | src/indicators/efficiency_ratio.rs:40-50 | a length of 0 is rejected with InvalidParameter; otherwise an empty ratio |
| EfficiencyRatio.EfficiencyRatio.Init | src/indicators/efficiency_ratio.rs:40-50 | a new ratio has an empty deque and no history |
| EfficiencyRatio.EfficiencyRatio.Default | src/indicators/efficiency_ratio.rs:111-113 | the default length is 14 |
| EfficiencyRatio.EfficiencyRatio.Next | src/indicators/efficiency_ratio.rs:59-90 | the deque stays bounded and the result is the ratio over the last max(length, 2)+1 inputs |
| EfficiencyRatio.EfficiencyRatio.NextBar | src/indicators/efficiency_ratio.rs:99-101 | a bar contributes its close |
| EfficiencyRatio.EfficiencyRatio.Reset | src/indicators/efficiency_ratio.rs:105-107 | the deque is emptied |
| EfficiencyRatio.ErTestExample | src/indicators/efficiency_ratio.rs:136-152 | the test's ratios 1, 1, 0.2, 0, 2/3, 0.2 and 1 |
| EfficiencyRatio.ErTestWindows | src/indicators/efficiency_ratio.rs:136-152 | the test's later ratios are taken over the last four inputs |
| EfficiencyRatio.ErDocExample | src/indicators/efficiency_ratio.rs:26-31 | the doc example's ratios 0.5, 0.6, 0.8 and 0.75 |
| OnBalanceVolume.Flow | src/indicators/on_balance_volume.rs:87-95 | a rising close adds the volume, a falling one subtracts it, an unchanged one adds nothing |
| OnBalanceVolume.ObvAppend | src/indicators/on_balance_volume.rs:87-95 | one more bar adds its flow against the previous close |
| OnBalanceVolume.ObvBound | src/indicators/on_balance_volume.rs:87-95 | for volumes that are not negative the running total stays within plus or minus the total volume |
| OnBalanceVolume.OnBalanceVolume.constructor | src/indicators/on_balance_volume.rs:72-77 | a new indicator starts at 0 with previous close 0 |
| OnBalanceVolume.OnBalanceVolume.Default | src/indicators/on_balance_volume.rs:102-104 | the default indicator is a new one |
| OnBalanceVolume.OnBalanceVolume.Next | src/indicators/on_balance_volume.rs:87-95 | the result is the running total of the flows of all bars so far; the bar's close is remembered |
| OnBalanceVolume.OnBalanceVolume.Reset | src/indicators/on_balance_volume.rs:117-120 | the total and the previous close return to 0 |
| OnBalanceVolume.ObvTestExample | src/indicators/on_balance_volume.rs:129-146 | the test's totals 1000, 6000, -3000 and -3000 |
| OnBalanceVolume.ObvDocExample | src/indicators/on_balance_volume.rs:35-54 | the doc example's totals 1000 and 700 |
| OnBalanceVolume.ObvResetExample | src/indicators/on_balance_volume.rs:150-166 | the reset test's totals 1000, 3000 and 6000, the same before and after the reset |
| RelativeStrengthIndex.Gain | src/indicators/relative_strength_index.rs:116-123 | the up move is never negative |
| RelativeStrengthIndex.Loss | src/indicators/relative_strength_index.rs:116-123 | the down move is never negative |
| RelativeStrengthIndex.GainLossSplit | src/indicators/relative_strength_index.rs:116-123 | at most one of the moves is non-zero and their difference is the price change |
| RelativeStrengthIndex.UpsAppend | src/indicators/relative_strength_index.rs:110-131 | one more input adds the seed first and the move from the previous input afterwards |
| RelativeStrengthIndex.Ups | src/indicators/relative_strength_index.rs:113-123 | one up move per input |
| RelativeStrengthIndex.Downs | src/indicators/relative_strength_index.rs:113-123 | one down move per input |
| RelativeStrengthIndex.MovesNonNegative | src/indicators/relative_strength_index.rs:110-131 | all moves fed to the averages are not negative |
| RelativeStrengthIndex.RatioBounds | src/indicators/relative_strength_index.rs:130 | averages that are not negative with a positive sum give a defined index in [0, 100] |
| RelativeStrengthIndex.RsiOf | src/indicators/relative_strength_index.rs:110-131 | the index is the ratio of the two averages of the moves |
| RelativeStrengthIndex.RsiFirst | src/indicators/relative_strength_index.rs:113-116 | equal seeds make the first output 50 |
| RelativeStrengthIndex.RsiBounds | src/indicators/relative_strength_index.rs:18 | whenever defined, the index lies in [0, 100] |
| RelativeStrengthIndex.RsiDefined | src/indicators/relative_strength_index.rs:110-131 | from length 2 on the index is always defined |
| RelativeStrengthIndex.RsiFlatLengthOne | src/indicators/relative_strength_index.rs:110-131 | length 1 and a flat price divide zero by zero |
| RelativeStrengthIndex.RsiDocExample | src/indicators/relative_strength_index.rs:61-63 | the doc example's second output 600/7, about 86 |
| RelativeStrengthIndex.RelativeStrengthIndex.New | src/indicators/relative_strength_index.rs:84-93 | a length of 0 is rejected with InvalidParameter; otherwise an empty index |
| RelativeStrengthIndex.RelativeStrengthIndex.Init | src/indicators/relative_strength_index.rs:84-93 | two new averages of length n and no history |
| RelativeStrengthIndex.RelativeStrengthIndex.Default | src/indicators/relative_strength_index.rs:170-172 | the default length is 14 |
| RelativeStrengthIndex.RelativeStrengthIndex.Next | src/indicators/relative_strength_index.rs:110-131 | the result is the index of the whole history |
| RelativeStrengthIndex.RelativeStrengthIndex.NextBar | src/indicators/relative_strength_index.rs:149-151 | a bar contributes its close |
| RelativeStrengthIndex.RelativeStrengthIndex.Reset | src/indicators/relative_strength_index.rs:158-163 | both averages and the first-input flag return to their new state |
| RelativeStrengthIndexSmma.RsiSmmaOf | src/indicators/relative_strength_index_smma.rs:112-136 | the index is the ratio of the two smoothed averages of the moves |
| RelativeStrengthIndexSmma.RsiSmmaFirst | src/indicators/relative_strength_index_smma.rs:116-121 | the two unequal seeds make the first output 100/11, not 50 |
| RelativeStrengthIndexSmma.RsiSmmaBounds | src/indicators/relative_strength_index_smma.rs:112-136 | whenever defined, the index lies in [0, 100] |
| RelativeStrengthIndexSmma.RsiSmmaDefined | src/indicators/relative_strength_index_smma.rs:112-136 | from length 2 on the index is always defined |
| RelativeStrengthIndexSmma.RsiSmmaFlatLengthOne | src/indicators/relative_strength_index_smma.rs:112-136 | length 1 and a flat price divide zero by zero |
| RelativeStrengthIndexSmma.RelativeStrengthIndexSmma.New | src/indicators/relative_strength_index_smma.rs:86-95 | a length of 0 is rejected with InvalidParameter; otherwise an empty index |
| RelativeStrengthIndexSmma.RelativeStrengthIndexSmma.Init | src/indicators/relative_strength_index_smma.rs:86-95 | two new smoothed averages of length n and no history |
| RelativeStrengthIndexSmma.RelativeStrengthIndexSmma.Default | src/indicators/relative_strength_index_smma.rs:175-177 | the default length is 14 |
| RelativeStrengthIndexSmma.RelativeStrengthIndexSmma.Next | src/indicators/relative_strength_index_smma.rs:112-136 | the result is the index of the whole history |
| RelativeStrengthIndexSmma.RelativeStrengthIndexSmma.NextBar | src/indicators/relative_strength_index_smma.rs:154-156 | a bar contributes its close |
| RelativeStrengthIndexSmma.RelativeStrengthIndexSmma.Reset | src/indicators/relative_strength_index_smma.rs:163-168 | both averages and the first-input flag return to their new state |
| FastStochastic.StochBounds | src/indicators/fast_stochastic.rs:73-84 | an input between the low and the high gives a value in [0, 100] |
| FastStochastic.StochOf | src/indicators/fast_stochastic.rs:77-83 | the computed value is the position of the input in the range, 50 for an empty range |
| FastStochastic.StochEnds | src/indicators/fast_stochastic.rs:73-84 | the low maps to 0 and the high to 100 |
| FastStochastic.FastStochastic.New | src/indicators/fast_stochastic.rs:53-60 | a length of 0 is rejected with InvalidParameter; otherwise an empty oscillator |
| FastStochastic.FastStochastic.Init | src/indicators/fast_stochastic.rs:53-60 | a new minimum and maximum of the length, both without history |
| FastStochastic.FastStochastic.Default | src/indicators/fast_stochastic.rs:122-124 | the default length is 14 |
| FastStochastic.FastStochastic.Length | src/indicators/fast_stochastic.rs:62-64 | returns the length |
| FastStochastic.FastStochastic.Next | src/indicators/fast_stochastic.rs:73-84 | the result is the input's position between the minimum and the maximum of the last n inputs (Fast of the inputs when the two extremes have seen the same ones), always in [0, 100], and 50 first |
| FastStochastic.FastStochastic.NextBar | src/indicators/fast_stochastic.rs:94-105 | the close's position between the lowest low and the highest high of the last n bars, in [0, 100] when the close is within its bar |
| FastStochastic.FastStochastic.Reset | src/indicators/fast_stochastic.rs:112-115 | both extremes forget their history |
| FastStochastic.FastFrom | src/indicators/fast_stochastic.rs:73-84 | a member of the window no larger than any other and one no smaller than any other are the extremes Fast uses |
| FastStochastic.FastStochasticDocExample | src/indicators/fast_stochastic.rs:35-40 | the doc example's values 50, 100, 100, 75 and 0 for length 5, the last from the inputs themselves |
| FastStochastic.FastStochasticTestExample | src/indicators/fast_stochastic.rs:147-153 | the test's values 50, 100, 50, 20 and 75, the last from the inputs once the window has slid past 0 and 200 |
| FastStochastic.FastStochasticResetExample | src/indicators/fast_stochastic.rs:176-187 | the reset test's values 50, 100, 0, 25 and, after the reset, 50, 100, 25 |
| FastStochastic.FastStochasticBarExample | src/indicators/fast_stochastic.rs:157-173 | the bar test's values 50, 75, 20, 30, 40 and 75 |
| SlowStochastic.EmaOfPercentages | src/indicators/slow_stochastic.rs:64-66 | an exponential average of percentages is a percentage |
| SlowStochastic.SlowStochastic.New | src/indicators/slow_stochastic.rs:42-48 | either length being 0 is rejected with InvalidParameter; otherwise an empty oscillator |
| SlowStochastic.SlowStochastic.Init | src/indicators/slow_stochastic.rs:42-48 | a new fast oscillator and average of the given lengths, both without history |
| SlowStochastic.SlowStochastic.Default | src/indicators/slow_stochastic.rs:102-104 | the default lengths are 14 and 3 |
| SlowStochastic.SlowStochastic.Next | src/indicators/slow_stochastic.rs:64-66 | the average receives the fast value of the input; the result is the average of the fast values, a percentage, and 50 first |
| SlowStochastic.SlowStochastic.NextBar | src/indicators/slow_stochastic.rs:83-85 | the average receives the fast value of the bar; the result stays a percentage while closes lie within their bars |
| SlowStochastic.SlowStochastic.Reset | src/indicators/slow_stochastic.rs:92-95 | both parts forget their history |
| SlowStochastic.SlowStochasticTestInputs | src/indicators/slow_stochastic.rs:136-142 | the fast values 50, 100, 100, 0, 100 of the test's inputs 10, 50, 50, 30, 55, the last from the inputs themselves |
| SlowStochastic.SlowStochasticTestExample | src/indicators/slow_stochastic.rs:136-142 | the averages 50, 250/3, 850/9, 850/27 and 6250/81 of those fast values, rounding to the test's 50, 83, 94, 31 and 77 |
| SlowStochastic.SlowStochasticBarInputs | src/indicators/slow_stochastic.rs:145-161 | the fast values 75, 50, 20, 16, 40, 75 of the bar test's closes between the extremes of the last three highs and lows |
| SlowStochastic.SlowStochasticBarExample | src/indicators/slow_stochastic.rs:145-161 | the averages of those fast values, rounding to the bar test's 75, 58, 33, 22, 34 and 61 |
| MovingAverageConvergenceDivergence.Gaps | src/indicators/moving_average_convergence_divergence.rs:81-90 | one gap per input: the signal average receives one value per step |
| MovingAverageConvergenceDivergence.Macd | src/indicators/moving_average_convergence_divergence.rs:81-90 | signal plus histogram is the gap |
| MovingAverageConvergenceDivergence.GapsAppend | src/indicators/moving_average_convergence_divergence.rs:81-90 | one more input adds its gap to the signal's inputs |
| MovingAverageConvergenceDivergence.MacdFirst | src/indicators/moving_average_convergence_divergence.rs:81-90 | the first outputs after construction or a reset are all 0 |
| MovingAverageConvergenceDivergence.MacdConstant | src/indicators/moving_average_convergence_divergence.rs:81-90 | a constant price keeps all three outputs at 0 |
| MovingAverageConvergenceDivergence.GapsConstant | src/indicators/moving_average_convergence_divergence.rs:81-90 | a constant price makes every gap 0 |
| MovingAverageConvergenceDivergence.MacdEqualFactors | src/indicators/moving_average_convergence_divergence.rs:81-90 | equal fast and slow lengths keep all three outputs at 0 |
| MovingAverageConvergenceDivergence.GapsEqualFactors | src/indicators/moving_average_convergence_divergence.rs:81-90 | equal fast and slow factors make every gap 0 |
| MovingAverageConvergenceDivergence.MovingAverageConvergenceDivergence.New | src/indicators/moving_average_convergence_divergence.rs:65-72 | any length being 0 is rejected with InvalidParameter; otherwise three new averages of the given lengths |
| MovingAverageConvergenceDivergence.MovingAverageConvergenceDivergence.Init | src/indicators/moving_average_convergence_divergence.rs:65-72 | three distinct new averages of the given lengths without history |
| MovingAverageConvergenceDivergence.MovingAverageConvergenceDivergence.Default | src/indicators/moving_average_convergence_divergence.rs:120-122 | the default lengths are 12, 26 and 9 |
| MovingAverageConvergenceDivergence.MovingAverageConvergenceDivergence.Next | src/indicators/moving_average_convergence_divergence.rs:81-90 | the outputs are those of the whole history: the gap of the two price averages, the signal average of the gaps, and their difference; all 0 first |
| MovingAverageConvergenceDivergence.MovingAverageConvergenceDivergence.NextBar | src/indicators/moving_average_convergence_divergence.rs:100-102 | a bar contributes its close |
| MovingAverageConvergenceDivergence.MovingAverageConvergenceDivergence.Reset | src/indicators/moving_average_convergence_divergence.rs:109-113 | all three averages return to their new state |
| MovingAverageConvergenceDivergence.MacdTestExample | src/indicators/moving_average_convergence_divergence.rs:161-169 | the test's first outputs (0, 0, 0) and (3/14, 3/35, 9/70), about (0.21, 0.09, 0.13) |
| BollingerBands.Around | src/indicators/bollinger_bands.rs:91-101 | the bands are equally far above and below the average |
| BollingerBands.BandsOrdered | src/indicators/bollinger_bands.rs:91-101 | for a positive multiplier lower <= average <= upper, symmetric about the average |
| BollingerBands.BandsSingle | src/indicators/bollinger_bands.rs:91-101 | a single input gives three equal outputs |
| BollingerBands.BandsFirst | src/indicators/bollinger_bands.rs:91-101 | the first input after construction or a reset gives three equal outputs |
| BollingerBands.AverageBetween | src/indicators/bollinger_bands.rs:91-101 | the average lies between the window's extremes |
| BollingerBands.BollingerBands.New | src/indicators/bollinger_bands.rs:65-74 | a multiplier that is not positive or a length of 0 is rejected with InvalidParameter |
| BollingerBands.BollingerBands.Init | src/indicators/bollinger_bands.rs:65-74 | a new deviation of the length without history, and the multiplier |
| BollingerBands.BollingerBands.Default | src/indicators/bollinger_bands.rs:128-130 | the defaults are length 9 and multiplier 2 |
| BollingerBands.BollingerBands.Length | src/indicators/bollinger_bands.rs:76-78 | returns the length |
| BollingerBands.BollingerBands.Multiplier | src/indicators/bollinger_bands.rs:80-82 | returns the multiplier |
| BollingerBands.BollingerBands.Next | src/indicators/bollinger_bands.rs:91-101 | the outputs are the window's mean with the deviation times the multiplier above and below, ordered, and all equal to the input first |
| BollingerBands.BollingerBands.NextBar | src/indicators/bollinger_bands.rs:110-112 | a bar contributes its close |
| BollingerBands.BollingerBands.Reset | src/indicators/bollinger_bands.rs:119-121 | the deviation forgets its history |
| BollingerBands.BollingerBandsTestExample | src/indicators/bollinger_bands.rs:157-178 | the test's averages 2, 3.5, 8/3 and 49/12 |
| BollingerBands.BollingerBandsResetExample | src/indicators/bollinger_bands.rs:182-205 | the reset test's average 3 and variance 1/2 |
| HeikinAshi.PartialMax | src/indicators/heikin_ashi.rs:102-111 | the result is one of the arguments and at least both |
| HeikinAshi.PartialMin | src/indicators/heikin_ashi.rs:113-122 | the result is one of the arguments and at most both |
| HeikinAshi.Candle | src/indicators/heikin_ashi.rs:81-99 | the open is the previous body's midpoint (the close for the first bar), the close the average of the four prices, high and low cover the body and the real extremes and are each one of them, green exactly for a rising body |
| HeikinAshi.Candles | src/indicators/heikin_ashi.rs:81-99 | one candle per bar |
| HeikinAshi.Last | src/indicators/heikin_ashi.rs:81-99 | the previous body is absent exactly before the first candle |
| HeikinAshi.CandlesAppend | src/indicators/heikin_ashi.rs:81-99 | one more bar adds one candle, started from the last body |
| HeikinAshi.OpenBetweenPreviousBody | src/indicators/heikin_ashi.rs:81-99 | every candle after the first opens within the previous candle's body |
| HeikinAshi.CloseWithinBar | src/indicators/heikin_ashi.rs:81-99 | a consistent bar gives a close within the real bar |
| HeikinAshi.HeikinAshi.constructor | src/indicators/heikin_ashi.rs:63-65 | a new indicator has no previous candle |
| HeikinAshi.HeikinAshi.Default | src/indicators/heikin_ashi.rs:131-133 | the default indicator is a new one |
| HeikinAshi.HeikinAshi.Next | src/indicators/heikin_ashi.rs:81-99 | the result is the candle for the bar after the previous one, the last of the candles of all bars, and its body is remembered |
| HeikinAshi.HeikinAshi.Reset | src/indicators/heikin_ashi.rs:125-127 | the previous candle is forgotten |
| HeikinAshi.HeikinAshiTestExample | src/indicators/heikin_ashi.rs:160-191 | the test's three candles and colours |
| Ichimoku.RotatedIndex | src/indicators/ichimoku.rs:215-221 | the logical slot i of the queue is the stored slot (start + i) mod capacity |
| Ichimoku.RotatedUpdate | src/indicators/ichimoku.rs:224-231 | writing stored slot (start + i) mod capacity changes exactly logical slot i |
| Ichimoku.RotatedShift | src/indicators/ichimoku.rs:206-209 | blanking the start slot and advancing the start shifts the logical contents left and appends a blank |
| Ichimoku.CircularQueue.Init | src/indicators/ichimoku.rs:197-203 | a new queue of the given capacity holds blanks only |
| Ichimoku.CircularQueue.Shl | src/indicators/ichimoku.rs:206-209 | the contents shift left by one and a blank enters at the end |
| Ichimoku.CircularQueue.At | src/indicators/ichimoku.rs:215-221 | an index beyond capacity is OutOfBound; otherwise the logical element at that index |
| Ichimoku.CircularQueue.Modify | src/indicators/ichimoku.rs:224-231 | an index beyond capacity is OutOfBound and changes nothing; otherwise exactly that element is updated |
| Ichimoku.CircularQueueTestExample | src/indicators/ichimoku.rs:253-274 | the queue test's reads after each shift |
| Ichimoku.Stored | src/indicators/ichimoku.rs:132-146 | storing keeps the number of rows; StoredLayout and StoredShifts give where the bars go |
| Ichimoku.Highs | src/indicators/ichimoku.rs:109-121 | the highs of the bars, in order |
| Ichimoku.Lows | src/indicators/ichimoku.rs:109-121 | the lows of the bars, in order |
| Ichimoku.LayoutEmpty | src/indicators/ichimoku.rs:87-102 | an all-default queue holds no bar, which is the layout of an empty history |
| Ichimoku.StoredLayout | src/indicators/ichimoku.rs:132-146 | storing the next bar keeps the rows holding the last bars at the right places |
| Ichimoku.StoredShifts | src/indicators/ichimoku.rs:132-146 | once full, a new bar shifts the rows left, blanks the last and writes the bar at row s-1 |
| Ichimoku.LinesRows | src/indicators/ichimoku.rs:149-171 | tenkan and kijun go to row s-1, chikou to row s-k-1, span A (their midpoint), span B and the cloud colour (green exactly for A above B) to row s+k-1; nothing else changes |
| Ichimoku.Lines | src/indicators/ichimoku.rs:154-171 | drawing keeps the number of rows; LinesRows gives which rows receive which line |
| Ichimoku.Drawn | src/indicators/ichimoku.rs:148-171 | drawing keeps the number of rows; DrawnRows gives the midpoints drawn |
| Ichimoku.Advance | src/indicators/ichimoku.rs:131-173 | a step keeps the number of rows, only stores the bar before s bars have arrived and also draws the lines from then on; AdvanceLayout and AdvanceRows give the resulting rows |
| Ichimoku.DrawnRows | src/indicators/ichimoku.rs:149-171 | the drawn lines are the midpoints of the last t, k and s bars and the latest close |
| Ichimoku.LinesPrices | src/indicators/ichimoku.rs:149-171 | drawing lines never changes the stored prices |
| Ichimoku.AdvanceLayout | src/indicators/ichimoku.rs:131-173 | every step keeps the rows holding the last bars at the right places |
| Ichimoku.AdvanceRows | src/indicators/ichimoku.rs:131-173 | after a step from s-1 bars on, row s-1 holds the new bar, row s-k-1 holds the bar from k steps earlier with the new close as chikou, and row s+k-1 holds no bar |
| Ichimoku.LayoutSlot | src/indicators/ichimoku.rs:109-121 | the rows s-o to s-1 hold the highs and lows of the last o bars |
| Ichimoku.RunningMaxIsMax | src/indicators/ichimoku.rs:109-121 | the running maximum of the scan is the maximum of the prefix |
| Ichimoku.RunningMinIsMin | src/indicators/ichimoku.rs:109-121 | the running minimum of the scan is the minimum of the prefix |
| Ichimoku.ScanRows | src/indicators/ichimoku.rs:109-121 | scanning rows that hold prices computes their running extremes |
| Ichimoku.Higher | src/indicators/ichimoku.rs:113-115 | the running high is at least the new value and the previous high |
| Ichimoku.Lower | src/indicators/ichimoku.rs:116-118 | the running low is at most the new value and the previous low |
| Ichimoku.LayoutRows | src/indicators/ichimoku.rs:109-121 | the last o rows hold the highs and lows of the last o bars, in order |
| Ichimoku.ScanFull | src/indicators/ichimoku.rs:109-121 | a full scan finds the highest high and the lowest low |
| Ichimoku.ScanIsMid | src/indicators/ichimoku.rs:109-121 | the scan of the last o rows finds the extremes of the last o bars |
| Ichimoku.MidBetween | src/indicators/ichimoku.rs:109-121 | for bars with low <= high the midpoint lies between the lowest low and the highest high |
| Ichimoku.MidConstant | src/indicators/ichimoku.rs:109-121 | flat bars at price c give the midpoint c |
| Ichimoku.IchimokuTestExample | src/indicators/ichimoku.rs:281-360 | flat bars at 20 give midpoints 20; after the up bar (high 30) all three midpoints are 25 |
| Ichimoku.IchimokuCloudExample | src/indicators/ichimoku.rs:440-561 | the advanced test's clouds: equal spans give red; span A 27.5 over span B 25 gives green |
| Ichimoku.Ichimoku.New | src/indicators/ichimoku.rs:87-102 | lengths that are not 0 < t < k < s are rejected with InvalidParameter; otherwise an indicator with an all-default queue of k+s rows |
| Ichimoku.Ichimoku.Init | src/indicators/ichimoku.rs:87-102 | the three lengths, an all-default queue of k+s rows and no history |
| Ichimoku.Ichimoku.GetAverage | src/indicators/ichimoku.rs:109-121 | the midpoint of the highest high and the lowest low of the last o bars |
| Ichimoku.Ichimoku.Store | src/indicators/ichimoku.rs:132-146 | counts the bar and stores it at its row, shifting once the stored rows are full |
| Ichimoku.Ichimoku.Place | src/indicators/ichimoku.rs:133-146 | the queue part of storing: shift when full, write the prices at the bar's row |
| Ichimoku.Ichimoku.DrawLines | src/indicators/ichimoku.rs:148-171 | the rows get the lines computed from the last t, k and s bars and the latest close |
| Ichimoku.Ichimoku.Draw | src/indicators/ichimoku.rs:154-171 | the queue part of drawing: the given lines at their three rows, nothing else changed |
| Ichimoku.Ichimoku.Next | src/indicators/ichimoku.rs:131-173 | the queue becomes one step of the layout specification from the old queue and the whole history |
| Ichimoku.Ichimoku.Reset | src/indicators/ichimoku.rs:180-183 | a fresh all-default queue and no history |

## Left out

- Floating point: numbers are exact reals. Rounding, NaN and infinity are not modelled. A division the library can perform by zero yields `None` (rate of change, efficiency ratio, both relative strength indices).
- RateOfChange.Next: a zero anchor gives `None`, where the library returns an infinite or NaN value.
- EfficiencyRatio.Next: a flat window of more than two prices gives `None`, where the library returns NaN (0/0).
- RelativeStrengthIndex.RsiBounds: the bound holds whenever the index is defined; for length 1 and a flat price the library returns NaN.
- StandardDeviation.StandardDeviation.Next: the result is the model's 32 Heron iterations on reals. SqrtLowerBound and SqrtBound state how close it is to the true root; it is not claimed to equal it.
- The `eprintln!` of the square root on a zero seed is output only and is left out; the returned 0 is modelled.
- Lengths are `nat`. The `u32` parameter type and the `from_u32`/`from_f64` conversions are not modelled: they only matter beyond the range of `u32` or for rounding.
- The generic `Next`/`Reset`/`Default` traits become plain methods: `Next` for a scalar input, `NextBar` for a bar.
- The `Display` implementations (labels such as `SMA(9)`) are text output and are left out.
- `src/indicators/mod.rs` only re-exports the indicators. The money flow index it names is not part of this model.
- `src/traits.rs` and `src/test_helper.rs` hold the trait declarations and test macros; they have no behaviour of their own.
- Commented-out code and tests (the second exponential average and the tests of the smoothed average and the smoothed relative strength index) are left out.
- The Heikin-Ashi test's own `Candle` comparison type is replaced by the candle datatype.
- Ichimoku.Ichimoku.New: `new` panics on bad lengths; the model returns `Err(InvalidParameter)` instead.
- Ichimoku.CircularQueue.At: an out-of-range index panics in the library; the model returns `Err(OutOfBound)`.
- Ichimoku.CircularQueue.Modify: `index_mut` hands out a mutable reference; the model takes the update as a function argument instead.
- Ichimoku.CircularQueue.Shl: requires a capacity above 0. The indicator always builds a queue of at least three rows.
- Ichimoku.Ichimoku.GetAverage: requires at least s bars, the only state in which `next` calls it.
- Ichimoku.Ichimoku.Store, Ichimoku.Ichimoku.Place, Ichimoku.Ichimoku.DrawLines and Ichimoku.Ichimoku.Draw are parts of `next`, split out to keep the proofs small.
- Minimum.Minimum.Reset and Maximum.Maximum.Reset leave the cursor and the tracked index where they were, as the library does.
- Concurrency and allocation failure are not modelled.
