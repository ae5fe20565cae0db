# AlphaFlow: verified models of the streaming, replay and regime code

This project models the parts of AlphaFlow's Go service whose correctness is about whole runs or about two ways of
computing one thing, and proves that they do what they are for. The theorems are for all inputs, all runs or all
reachable states; where the code falls short of one, an equivalence says exactly when, or a concrete input shows it.

Verify everything with `dafny verify dfyconfig.toml`.

## What is modelled

**Fast forms against simple forms** (`indicatorcalc`). `MonotonicWindow` is the 256-slot deque with its in-place
compaction; `Stochastic`, `SqueezeMomentum` and `VixFix` are its clients, each stated at every period the deque admits
and, below its capacity, proved equal to the batch form that rescans every window. `VolumeFlow` is the quadratic Volume
Flow Indicator and `VolumeFlowStream` the ring-and-sums form and the stream, both proved to compute the same indicator.
`Regression` is the least-squares line the squeeze momentum ends in.
`Qqe` and `QqeStream` are the QQE pipeline in batch and close by close. `AiFeatures` is the feature cursor against the
brute-force features. `StreamEma`, `IndicatorMath`, `Numeric` and `TailBuffer` hold the averages, moments, rings and
shifting buffers they all rest on.

**The calculation window** (`indicatorcalc/window.go`). `CalculationWindow` holds klines, series, quality counters and
rolling windows that must stay in step through appends, trims, rebuilds and lazy previews; `DataQuality` proves that
counting is as good as rescanning, `RollingWindow` that the ring with running sums is the window, and `FeatureContext`
that the cached bands and channels are the batch ones.

**Replay engines** (`signalresearch`). `FirstTouch` is the brute-force specification of a signal's outcome: scan the
bars after it and see what is touched first. `CandidateLife` and `ReplayRun` carry it through single stops, candidates
and the active list, and `SignalReplay` is the engine that filters those lists while bars arrive. `SinglePosition` and
`SinglePositionBooks` are the one-position engine with its ratcheting stop, cooldown and books. `SwingPoints` is the
zigzag detector.

**Rolling window analyzer** (`indicatorwindow`). `IndicatorStats` has the one-pass and multi-pass statistics,
`RollingBoard` the ring of generation-tagged slots, `WindowAnalyzer` the ordered analyzer over both.

**Market regimes** (`marketregime`). `RegimeV1` is the seven-state detector with frozen breakout levels;
`ConfirmationFilter` the filter that V2, V4 and V5 share; `RegimeV2`, `RegimeV4` and `RegimeV5` the analyzers around it.

**Protective exits** (`position`). `TrailingExit` has profit guard, adaptive runner, trailing trigger and bar exits.

**Arithmetic with real bounds.** `VolatilityCluster` is the one-dimensional three-means loop, `VolumeBuckets`,
`VolumeProfile` and `SupplyDemand` the bucketed volume and its zones, `Psar`, `Supertrend` and `AdaptiveSupertrend` the
trailing lines, streaming forms included.

## How it is modelled

Go structs whose methods update fields are classes with those fields; loops are loops; arrays that are written in place
are arrays, and slices that grow are sequences the methods reassign. Ghost fields (`seen`, `fed`, `history`, `events`,
`log`, `ticks`) record everything an object was ever given, and `Valid()` ties the real fields to a plain function of
that record. A method's contract then only has to say how the record grows, and every theorem about the function is a
theorem about all runs. Floats are reals; `sqrt` and `log` are function parameters, so no property depends on their
values; texts that may not parse are options.

Two forms that agree could agree on the wrong thing. So the formulas both sides share are stated once more from outside,
in prices, volumes, counts and literal constants and without the functions that compute them: which bar decides a
replayed signal and at what price (`FirstTouch.OutcomeInPrices`), which volume a flow indicator adds and which it takes
off (`VolumeFlow.ValueIsRisenLessFallen`), that trailing bands are the best since they were last crossed
(`Qqe.TrendRatchets`, `Supertrend.LowerBandIsHighestSince`), what leaves each regime state
(`RegimeV1.LockLeavesExactly`), that published centroids are where the passes come to rest
(`VolatilityCluster.ClusterIsRestOfPasses`), what each average weighs (`IndicatorMath.EmaIsFadedSum`,
`Supertrend.WilderIsFadedSum`), that the regression is least squares (`Regression.LineIsLeastSquares`), and what every
score, verdict, statistic, feature, bucket share and fill means.

## What the proofs found

- The deque needs one slot more than its window: `canHold` admits period 256, and with 256 a falling input loses a value
  for good. Below that every deque form agrees with its batch form on every input; for the Vix Fix exactly below it.
- The classic QQE trend can never flip to -1: the bands are built around the very line they are compared with.
- Stream and batch QQE treat the first bar differently; the extra step changes nothing exactly when the range is not
  negative or the line before stays below the long band, and averaged absolute changes are never negative.
- A realtime preview counts one gap too many exactly when the limit is 1, one kline is stored and the new one leaves a
  gap.
- `Reset` leaves a pending preview pending, and the next reader puts the old klines back under the new counters. A reset
  window shows what it was reset to exactly when no preview was pending.
- The confirmation filter keeps its law exactly when at least two bars are asked for; with one, a stale pending pair is
  committed on a later single sighting.
- A direction has a fourth value, unset, at the start and for a mixed ribbon; the V4 permissions treat it as short.
- In V1 a lock re-entered from an active trend can take a single dormant tick, because old evidence is never cleared: in
  every configuration but those whose dormant run is one bar anyway.
- The batch adaptive Supertrend refuses a market whose range is zero where the stream answers; apart from that and from a
  one-bar training window they agree.
- The value area loop stops from every start exactly when no bucket is negative; next to a negative bucket it can walk
  past the end of the array and never return.
- Exit labels of the single-position engine name the protection really reached exactly when the configuration keeps the
  trailing stop apart from the break-even floor (or both triggers coincide above the initial stop).
- A long trailing trigger never loosens exactly when its trail is at most 100 percent or a guard holds the floor. A
  short's, once active, lasts exactly as long as no price drives its reference to zero or below.
- Supertrend bands can cross and the second bar of a run can retreat; from then on the line only tightens. A PSAR line
  retreats exactly after a bar that had already pierced it.
- The cached twenty-bar readings may replace the batch ones exactly when the window keeps all klines or at least twenty.
- Supply and demand boundaries stay apart on every distribution exactly for thresholds of at most 50 percent.
- V5 decides a breakout against the bars before the current one and appends the current bar afterwards.

## Model

| member | source | states |
|---|---|---|
| MonotonicWindow.ReportsExtremeExactlyBelowCapacity | backend/go-service/pkg/indicatorcalc/window_math.go:19-60 | Among the periods canHold admits, the head of the deque is the extreme of the last `period` values after every step of every input exactly when the period is below the capacity of 256; at 256 a falling input loses a value. |
| MonotonicWindow.RunIsFrontier | backend/go-service/pkg/indicatorcalc/window_math.go:19-60 | For every input and every period below 256, after any number of push-then-expire steps the deque holds exactly the undominated entries of the last `period` values: nothing dropped, nothing stale. |
| MonotonicWindow.StepIsFrontier | backend/go-service/pkg/indicatorcalc/window_math.go:23-60 | One push-then-expire step, compaction included, takes the undominated entries of one window to those of the next. |
| MonotonicWindow.RunNotEmpty | backend/go-service/pkg/indicatorcalc/window_math.go:23-60 | However full the deque gets, at every admitted period it still holds an entry of the window after each step, so its clients never fail to read. |
| MonotonicWindow.FrontierHead | backend/go-service/pkg/indicatorcalc/window_math.go:62-67 | The oldest undominated entry carries the maximum (minimum) of the window. |
| MonotonicWindow.FrontierPushed | backend/go-service/pkg/indicatorcalc/window_math.go:23-47 | Popping what a new value dominates and appending it gives the undominated entries of the longer window. |
| MonotonicWindow.FrontierExpired | backend/go-service/pkg/indicatorcalc/window_math.go:49-60 | Dropping entries older than an index gives the undominated entries of the shorter window. |
| MonotonicWindow.FallingFills | backend/go-service/pkg/indicatorcalc/window_math.go:23-47 | A falling input dominates nothing, so 256 values fill every slot. |
| MonotonicWindow.FallingLosesOne | backend/go-service/pkg/indicatorcalc/window_math.go:19-40 | With period 256 and a falling input the 257th value is lost: from then through the 512th value the deque misses exactly it. |
| MonotonicWindow.FallingMisreports | backend/go-service/pkg/indicatorcalc/window_math.go:19-67 | After 512 falling values at period 256 the deque reports the second largest value of the window instead of the largest. |
| MonotonicWindow.FloatMonotonicWindow.Push | backend/go-service/pkg/indicatorcalc/window_math.go:23-40 | The array, head and tail always hold the abstract pushed entries; a full array is compacted or, with no free slot, the value is dropped. |
| MonotonicWindow.FloatMonotonicWindow.PopDominated | backend/go-service/pkg/indicatorcalc/window_math.go:23-47 | The tail moves back over exactly the entries the new value dominates. |
| MonotonicWindow.FloatMonotonicWindow.Compact | backend/go-service/pkg/indicatorcalc/window_math.go:23-40 | Moving the live entries to the front in place changes none of them. |
| MonotonicWindow.FloatMonotonicWindow.ExpireBefore | backend/go-service/pkg/indicatorcalc/window_math.go:49-60 | The head moves over exactly the entries with an older index. |
| MonotonicWindow.FloatMonotonicWindow.Value | backend/go-service/pkg/indicatorcalc/window_math.go:62-67 | There is a value exactly when an entry is held, and it is the oldest entry's. |
| MonotonicWindow.HeldStrictlyMonotone | backend/go-service/pkg/indicatorcalc/window_math.go:23-47 | Below the capacity the values held fall (rise) strictly from the oldest to the youngest: an equal value is dropped for the younger one. |
| Numeric.RunningVarianceIsTwoPass | backend/go-service/pkg/indicatorcalc/rolling.go:60-70 | Mean of squares less square of mean is the two-pass population variance, on every window; so clamping it at zero never changes it. |
| IndicatorMath.Sma | backend/go-service/pkg/indicatorcalc/indicator_math.go:5-14 | The average of the last `period` values, refused exactly outside 1..length. |
| IndicatorMath.Ema | backend/go-service/pkg/indicatorcalc/indicator_math.go:16-27 | The loop computes the seed-then-blend average of the whole input, refused exactly outside 1..length. |
| IndicatorMath.EmaSeries | backend/go-service/pkg/indicatorcalc/indicator_math.go:29-43 | The series holds the exponential average of every prefix long enough to have one. |
| IndicatorMath.EmaNonNegative | backend/go-service/pkg/indicatorcalc/indicator_math.go:16-27 | The exponential average of non-negative values is non-negative. |
| IndicatorMath.EmaIsFadedSum | backend/go-service/pkg/indicatorcalc/indicator_math.go:16-27 | The exponential average written out: the plain average of the first `period` values and every value since, each weighing 2 / (period + 1) and fading by 1 - 2 / (period + 1) per step of its age. |
| IndicatorMath.StandardDeviation | backend/go-service/pkg/indicatorcalc/volatility_math.go:5-17 | The square root of the two-pass variance of the last `period` values. |
| Supertrend.TrueRangeSeries | backend/go-service/pkg/indicatorcalc/volatility_math.go:19-33 | One true range per bar, the first from its own high and low. |
| Supertrend.TrueRangeIsSpan | backend/go-service/pkg/indicatorcalc/volatility_math.go:19-33 | The true range is the longest of the bar and the ways from the previous close to its ends; for a bar with its low below its high, the span of all three prices. |
| Regression.LinearRegression | backend/go-service/pkg/indicatorcalc/volatility_math.go:35-59 | From four running sums the fit over the last `period` values, read `offset` places before the last, refused exactly for a period outside 2..length or an offset outside the window. |
| Regression.LineIsLeastSquares | backend/go-service/pkg/indicatorcalc/volatility_math.go:35-59 | The fitted line has the least sum of squared distances of all lines, and no other line reaches it. |
| Regression.StraightLineIsFound | backend/go-service/pkg/indicatorcalc/volatility_math.go:35-59 | Values that lie on a line are fitted by that line. |
| Regression.DenominatorSays | backend/go-service/pkg/indicatorcalc/volatility_math.go:35-59 | The denominator vanishes exactly for fewer than two points. |
| Supertrend.RangesMeasureFromClose | backend/go-service/pkg/indicatorcalc/volatility_math.go:19-33 | Every true range but the first measures from the close of the bar before. |
| TailBuffer.RingSnoc | backend/go-service/pkg/indicatorcalc/tradingview_vix_fix.go:127-129 | Writing the next value of a series into slot count mod length keeps the ring holding the last values of the longer series. |
| TailBuffer.ShiftIn | backend/go-service/pkg/indicatorcalc/tradingview_vix_fix.go:12-40 | Append while there is room, otherwise shift the oldest out: the buffer is the tail of everything shifted in. |
| VixFix.WilliamsVixFixSeries | backend/go-service/pkg/indicatorcalc/tradingview_vix_fix.go:166-180 | One value per full window: the distance of the low below the highest close of the window. |
| VixFix.WilliamsVixFix | backend/go-service/pkg/indicatorcalc/tradingview_vix_fix.go:148-164 | The batch form summarises the whole series, with bands of zero for a band length of zero or less, and refuses exactly when lengths, period or history do not fit, each condition spelled out. |
| VixFix.WilliamsVixFixCompact | backend/go-service/pkg/indicatorcalc/tradingview_vix_fix.go:99-146 | At every period the deque admits the ring form returns the summary of the series the deque reports, and below 256 exactly the batch result, refusals included. |
| VixFix.FormsAgreeExactlyBelowCapacity | backend/go-service/pkg/indicatorcalc/tradingview_vix_fix.go:99-164 | Among the periods the deque admits, deque form and batch form agree on every usable input exactly below 256; 512 falling closes tell them apart at 256. |
| VixFix.RingTailSum | backend/go-service/pkg/indicatorcalc/tradingview_vix_fix.go:199-206 | The sum over the ring is the sum of the last `length` values of the series. |
| VixFix.RingTailStandardDeviation | backend/go-service/pkg/indicatorcalc/tradingview_vix_fix.go:208-219 | The deviation over the ring is that of the last `length` values of the series. |
| VixFix.RingTailHighLow | backend/go-service/pkg/indicatorcalc/tradingview_vix_fix.go:221-234 | The extremes over the ring are those of the last `length` values of the series. |
| VixFix.TailSummary | backend/go-service/pkg/indicatorcalc/tradingview_vix_fix.go:42-72 | The last 50 values carry everything the summary of the whole series looks at. |
| VixFix.StreamVixFix.Append | backend/go-service/pkg/indicatorcalc/tradingview_vix_fix.go:12-40 | After any number of bars the shifting arrays hold the last closes and the last values of the series of all bars. |
| VixFix.StreamVixFix.Value | backend/go-service/pkg/indicatorcalc/tradingview_vix_fix.go:42-72 | The streamed result is the summary of the series of all bars appended, from the fiftieth value on. |
| VixFix.FixIsFallFromHighest | backend/go-service/pkg/indicatorcalc/tradingview_vix_fix.go:166-180 | Each value of the series is the fall of the low below the highest close of its window, in percent of that close. |
| VixFix.SummarySays | backend/go-service/pkg/indicatorcalc/tradingview_vix_fix.go:42-72 | The result is the last value, a mean with bands the multiple of the deviation above and below it, and the range of the last `lookback` values with its top cut to the percentile and its bottom raised by one percent. |
| VixFix.NoLengthNoBands | backend/go-service/pkg/indicatorcalc/tradingview_vix_fix.go:148-164 | A band length of zero or less collapses the bands to zero. |
| Stochastic.StochasticBatch | backend/go-service/pkg/indicatorcalc/momentum_stochastic.go:61-78 | %K of the last window and the mean of the last `smooth` of them. |
| Stochastic.KValuesCompact | backend/go-service/pkg/indicatorcalc/momentum_stochastic.go:25-59 | At every admitted period the loop yields, window end by window end, the %K of what the two deques report over the bars since warm-up. |
| Stochastic.DequeKsAreExact | backend/go-service/pkg/indicatorcalc/momentum_stochastic.go:25-78 | Below period 256 the reported %K values are those of rescanning every window. |
| Stochastic.StochasticCompact | backend/go-service/pkg/indicatorcalc/momentum_stochastic.go:25-59 | The deque form accepts exactly its admitted inputs and gives the last reported %K and the mean of the last `smooth`. |
| Stochastic.Stochastic | backend/go-service/pkg/indicatorcalc/momentum_stochastic.go:17-23 | The published oscillator accepts exactly when there is enough history and is the batch oscillator for every period but 256, where it is that of what the deques report when these are admitted. |
| Stochastic.KInRange | backend/go-service/pkg/indicatorcalc/momentum_stochastic.go:61-78 | A close inside its bar keeps %K between 0 and 100. |
| Stochastic.StochRsiFromSeries | backend/go-service/pkg/indicatorcalc/momentum_stochastic.go:91-161 | The stochastic of an RSI series is the same oscillator over that series, one value of history more asked for. |
| Stochastic.SkdjBatch | backend/go-service/pkg/indicatorcalc/momentum_stochastic.go:208-226 | The averaged %K, its average, and both values one bar earlier. |
| Stochastic.SkdjCompact | backend/go-service/pkg/indicatorcalc/momentum_stochastic.go:171-206 | The deque form accepts exactly its admitted inputs and gives the four values over the reported %K. |
| Stochastic.Skdj | backend/go-service/pkg/indicatorcalc/momentum_stochastic.go:163-169 | The published form accepts exactly from period + smooth bars on and gives the batch values for every period but 256, where they come from what the deques report when these are admitted. |
| Stochastic.KIsHeightInWindow | backend/go-service/pkg/indicatorcalc/momentum_stochastic.go:61-78 | %K is the height of the close above the lowest low of the window in percent of the window's range: 100 at its high, 0 at its low, 50 without a range. |
| SqueezeMomentum.MomentumBatch | backend/go-service/pkg/indicatorcalc/volatility.go:157-173 | The end of the least-squares line through the offsets of the last `period` closes from their own baselines, each window rescanned; a single offset has no line. |
| SqueezeMomentum.MomentumCompact | backend/go-service/pkg/indicatorcalc/volatility.go:120-155 | At every admitted period two deques and a running sum feed the same regression the offsets from what the deques report; nothing is answered outside the admitted inputs. |
| SqueezeMomentum.DequeOffsetsAreExact | backend/go-service/pkg/indicatorcalc/volatility.go:120-173 | Below period 256 these offsets are those of rescanning every window. |
| SqueezeMomentum.MomentumAt | backend/go-service/pkg/indicatorcalc/volatility.go:112-118 | Whatever path is taken the published momentum is the regression of the rescanned offsets for every period but 256, where it is that of the reported ones; nothing when the history is too short. |
| SqueezeMomentum.OffsetFromMiddle | backend/go-service/pkg/indicatorcalc/volatility.go:157-173 | A close is measured from halfway between its average and the middle of the highest high and lowest low of its window. |
| SqueezeMomentum.OffsetsInOrder | backend/go-service/pkg/indicatorcalc/volatility.go:157-173 | The regression is fed one offset for each window end, in order. |
| StreamEma.StreamEmaState.Append | backend/go-service/pkg/indicatorcalc/stream_ema.go:74-98 | After any number of values the state holds exactly the exponential averages of every prefix seen, the latest in `value` and the superseded ones in the shifting history. |
| StreamEma.StreamEmaState.HistoricalValue | backend/go-service/pkg/indicatorcalc/stream_ema.go:100-105 | The value `offset` steps back is the average of the prefix that much shorter, while the fixed history reaches. |
| VolumeFlow.FlowOfBar | backend/go-service/pkg/indicatorcalc/volume_flow.go:283-380 | The quadratic body of one bar computes the bar's flow and its two cutoffs from full rescans. |
| VolumeFlow.VolumeFlowIndicator | backend/go-service/pkg/indicatorcalc/volume_flow.go:283-380 | The quadratic implementation computes the reference indicator, refusals included. |
| VolumeFlowStream.VolumeFlowIndicatorCompact | backend/go-service/pkg/indicatorcalc/volume_flow.go:167-281 | Three rings, running sums and the invalid counter compute exactly the reference indicator for every input. |
| VolumeFlowStream.RunningFlow.Advance | backend/go-service/pkg/indicatorcalc/volume_flow.go:66-153 | One more bar, read from the market or from any arrays that end in its latest bars, takes the running state of any prefix to that of the longer prefix. |
| VolumeFlowStream.RunningFlow.SlideInter | backend/go-service/pkg/indicatorcalc/volume_flow.go:83-93 | The ring of log changes and its two sums describe the window that ends with the new change. |
| VolumeFlowStream.RunningFlow.CurrentFlow | backend/go-service/pkg/indicatorcalc/volume_flow.go:95-132 | The bar's flow from running sums is the flow a full rescan gives. |
| VolumeFlowStream.RunningFlow.SlideFlow | backend/go-service/pkg/indicatorcalc/volume_flow.go:134-146 | The flow rings, their sum and the counter of invalid flows describe the window that ends with the new flow. |
| VolumeFlowStream.RunningFlow.EmitIfComplete | backend/go-service/pkg/indicatorcalc/volume_flow.go:138-152 | A value is emitted exactly when no flow of the window is invalid and the volume before it is not zero. |
| VolumeFlowStream.StreamVolumeFlow.Append | backend/go-service/pkg/indicatorcalc/volume_flow.go:66-153 | Each accepted call extends the history by the last bar passed and leaves the state of the whole history, however much the caller has trimmed before the 131 bars one step reads; other calls change nothing. |
| VolumeFlowStream.StreamVolumeFlow.Value | backend/go-service/pkg/indicatorcalc/volume_flow.go:155-165 | Asked for its own settings the stream answers with the last points of its history; with positive coefficients that is the reference indicator; asked for others it refuses. |
| VolumeFlowStream.HistoryPrefix | backend/go-service/pkg/indicatorcalc/volume_flow.go:283-380 | Later bars change none of the changes, flows, volumes or points of earlier bars. |
| VolumeFlowStream.PointsBound | backend/go-service/pkg/indicatorcalc/volume_flow.go:167-180 | No value before two full windows, then at most one a bar: the stream needs no length guard of its own. |
| VolumeFlow.ValueIsRisenLessFallen | backend/go-service/pkg/indicatorcalc/volume_flow.go:283-380 | Each published value times the average volume of the bars before is the volume of the window's bars whose typical price rose past their cutoff, each at most the volume cutoff, less that of the bars that fell past it; no value is published otherwise than with every bar of the window usable. |
| VolumeFlow.SignFollowsThePrice | backend/go-service/pkg/indicatorcalc/volume_flow.go:283-380 | On positive volume the value is positive when every bar of the window rose past its cutoff and negative when every bar fell past it. |
| VolumeFlow.FlowMeans | backend/go-service/pkg/indicatorcalc/volume_flow.go:310-332 | A bar's flow is its capped volume with the sign of its typical price's move past coef times the deviation of the last thirty log changes times its close, and zero within it. |
| VolumeFlow.ResultMeans | backend/go-service/pkg/indicatorcalc/volume_flow.go:359-380 | The result is the last two values, their exponential averages and the distance between value and average. |
| VolumeFlow.IndicatorExistsExactly | backend/go-service/pkg/indicatorcalc/volume_flow.go:283-303 | There is an indicator exactly for positive settings, two windows and a signal's worth of bars, and more values than the signal averages. |
| Qqe.RsiSeries | backend/go-service/pkg/indicatorcalc/momentum_rsi.go:38-70 | The loop yields the smoothed relative strength of every prefix long enough to have one. |
| Qqe.StrengthIsShareOfGains | backend/go-service/pkg/indicatorcalc/momentum_rsi.go:38-78 | The strength is the averaged gain's share of averaged gain and loss in percent, 100 without losses, and always within 0 and 100. |
| Qqe.AverageMeans | backend/go-service/pkg/indicatorcalc/momentum_rsi.go:38-70 | The averaged gain and loss start as the sums of the first rises and falls over the period, and then take one part in `period` of each new one. |
| Qqe.StrengthOfOneWay | backend/go-service/pkg/indicatorcalc/momentum_rsi.go:38-78 | Closes that only rise have strength 100, and closes that only fall strength 0 while there is an averaged loss. |
| Qqe.Foundation | backend/go-service/pkg/indicatorcalc/tradingview_qqe.go:362-384 | The foundation is the average of the strengths and the average of its absolute changes, accepted exactly when both exist. |
| Qqe.TrendSeries | backend/go-service/pkg/indicatorcalc/tradingview_qqe.go:386-437 | For all ranges the loop yields the trailing line of every averaged change, as the step function defines it over all prefixes, the extra step on the first bar included. |
| Qqe.QqeModFromFoundation | backend/go-service/pkg/indicatorcalc/tradingview_qqe.go:479-526 | The classic line, trailing stop and their previous values over the twice averaged range, or nothing. |
| Qqe.QqeModEnhancedFromFoundation | backend/go-service/pkg/indicatorcalc/tradingview_qqe.go:306-347 | For all ranges the enhanced result from two trailing lines and the bands around the first, or nothing, exactly when a length or a factor does not fit. |
| Qqe.QqeMod | backend/go-service/pkg/indicatorcalc/tradingview_qqe.go:469-477 | The classic indicator of the closes is the composition RSI, average, absolute change, average, average, trailing line. |
| Qqe.QqeModEnhanced | backend/go-service/pkg/indicatorcalc/tradingview_qqe.go:287-304 | The enhanced indicator of the closes is the composition of the same stages with two factors and the bands. |
| Qqe.FirstStepIsStart | backend/go-service/pkg/indicatorcalc/tradingview_qqe.go:386-437 | The step the batch loop takes on the first bar, and the stream does not, changes nothing exactly when the range is not negative or the line before stays below the long band. |
| Qqe.AveragesNonNegative | backend/go-service/pkg/indicatorcalc/tradingview_qqe.go:362-384 | Averages of absolute changes never turn negative, so the two first bars agree on every range the pipeline can produce. |
| Qqe.ClassicNeverFlips | backend/go-service/pkg/indicatorcalc/tradingview_qqe.go:479-526 | Over every input the classic trend stays 1 and its trailing line is the long band: the flip to -1 can never fire. |
| QqeStream.StreamQqe.Append | backend/go-service/pkg/indicatorcalc/tradingview_qqe.go:194-251 | Fed close by close the stream's state is that of the batch stages over all closes so far. |
| QqeStream.StreamQqe.ClassicValue | backend/go-service/pkg/indicatorcalc/tradingview_qqe.go:253-258 | The streamed classic values are the batch values of all closes fed, including when there are none yet. |
| QqeStream.StreamQqe.EnhancedValue | backend/go-service/pkg/indicatorcalc/tradingview_qqe.go:260-285 | The streamed enhanced result is the batch result of all closes fed, including when there is none yet. |
| QqeStream.StreamQqe.AppendRange | backend/go-service/pkg/indicatorcalc/tradingview_qqe.go:194-251 | One more averaged change moves both trend trackers and the classic tracker to the longer history. |
| QqeStream.ClassicReady | backend/go-service/pkg/indicatorcalc/tradingview_qqe.go:253-258 | Two twice-averaged ranges imply every other length guard of the classic batch form. |
| QqeStream.EnhancedReady | backend/go-service/pkg/indicatorcalc/tradingview_qqe.go:260-285 | Fifty averaged changes imply every other length guard of the enhanced batch form. |
| Qqe.TrendRatchets | backend/go-service/pkg/indicatorcalc/tradingview_qqe.go:386-437 | On each side the band is the best `line - range * factor` (`line + range * factor`) since the line last came onto that side of it: it never falls (rises) while line and previous line stay beyond it. |
| Qqe.ClassicRatchets | backend/go-service/pkg/indicatorcalc/tradingview_qqe.go:479-526 | The same of the classic bands. |
| Qqe.TrendTurnsOnCross | backend/go-service/pkg/indicatorcalc/tradingview_qqe.go:386-437 | The direction is up exactly when the line crosses above the short band of the bar before, or was up and does not cross below the long one; the trailing value is the band of the direction. |
| Qqe.ClassicPublishesLongBand | backend/go-service/pkg/indicatorcalc/tradingview_qqe.go:479-526 | The classic result is the last two lines and the last two long bands over the twice averaged range. |
| Qqe.EnhancedMeans | backend/go-service/pkg/indicatorcalc/tradingview_qqe.go:306-347 | Histograms are distances from 50, the bands lie around the mean of the window's trend, and the signal and the zero cross are set exactly when the histogram passes threshold and band, or the line passes 50. |
| Qqe.ClassicExistsExactly | backend/go-service/pkg/indicatorcalc/tradingview_qqe.go:469-526 | The classic values exist exactly for a positive factor and the stated number of closes, the guards of all stages taken together. |
| Qqe.EnhancedExistsExactly | backend/go-service/pkg/indicatorcalc/tradingview_qqe.go:287-347 | The same of the enhanced values. |
| AiFeatures.AiSourceFeatures | backend/go-service/pkg/indicatorcalc/ai_source_features.go:165-202 | The brute-force features of a bar from full rescans, or a refusal. |
| AiFeatures.FeatureCursor.Next | backend/go-service/pkg/indicatorcalc/ai_source_features.go:41-79 | Visited in order, every bar's numbers (two averages, 30 and 20 bar moments, hundred-bar volatility extremes) are those of the brute-force scan; other positions change nothing. |
| AiFeatures.FeatureCursor.SlideMoments30 | backend/go-service/pkg/indicatorcalc/ai_source_features.go:41-79 | The running sums and moments describe the 30 bars that end here. |
| AiFeatures.FeatureCursor.SlideWindows | backend/go-service/pkg/indicatorcalc/ai_source_features.go:41-79 | The two deques report the volatility extremes of the last hundred bars that have a volatility. |
| AiFeatures.FeaturesAt | backend/go-service/pkg/indicatorcalc/ai_source_features.go:130-163 | Cursor then formula gives exactly the brute-force features of the bar, refusals included. |
| AiFeatures.RunningMoments | backend/go-service/pkg/indicatorcalc/ai_source_features.go:41-79 | The running moments are the two-pass ones, so the clamp at zero is never needed. |
| AiFeatures.FeaturesSay | backend/go-service/pkg/indicatorcalc/ai_source_features.go:137-163 | Each feature has its meaning: averages apart in units of ATR, distance below the mean in deviations, the change over fourteen bars in steps of five percent and over three in ATRs, each a third per unit and within -1 and 1; place of the deviation among the last hundred, and of the close in its bar. |
| AiFeatures.FeaturesExist | backend/go-service/pkg/indicatorcalc/ai_source_features.go:137-163 | A bar has features exactly from the hundredth on, with a positive ATR, a deviation that is not zero and a price fourteen bars back. |
| AiFeatures.PointAverages | backend/go-service/pkg/indicatorcalc/ai_source_features.go:165-202 | The averages and deviations of a bar are those of all closes, the last thirty and the last twenty up to it. |
| AiFeatures.PointExtremes | backend/go-service/pkg/indicatorcalc/ai_source_features.go:165-202 | The volatility extremes are the lowest and highest of the last hundred twenty-bar deviations. |
| AiFeatures.FeaturesOfBar | backend/go-service/pkg/indicatorcalc/ai_source_features.go:165-202 | The six features of a bar, in its own closes, highs, lows and averages. |
| AiFeatures.PointWarmsUp | backend/go-service/pkg/indicatorcalc/ai_source_features.go:41-79 | What a bar hands over before its windows are full: plain averages and zeros. |
| AiFeatures.WarmEmaIsEma | backend/go-service/pkg/indicatorcalc/ai_source_support.go:44-72 | From `period` values on the warming average is the exponential average of the same values. |
| VolatilityCluster.AdaptiveVolatilityCluster | backend/go-service/pkg/indicatorcalc/supertrend_adaptive.go:88-156 | The nested loops compute the iterated three-means of the values and the cluster of the current one. |
| VolatilityCluster.ClusterGuarantees | backend/go-service/pkg/indicatorcalc/supertrend_adaptive.go:88-156 | For every data set the published centroids lie in the data's range, are strictly ordered unless the data are constant, cost no more than the quartile start, and the current value gets its nearest centroid. |
| VolatilityCluster.PassKeepsOrder | backend/go-service/pkg/indicatorcalc/supertrend_adaptive.go:97-135 | Every pass keeps low, mid and high strictly ordered, empty clusters included. |
| VolatilityCluster.PassKeepsRange | backend/go-service/pkg/indicatorcalc/supertrend_adaptive.go:97-135 | Every pass keeps the centroids within the range of the data. |
| VolatilityCluster.PassOnConstant | backend/go-service/pkg/indicatorcalc/supertrend_adaptive.go:97-135 | On constant data nothing ever moves. |
| VolatilityCluster.PassCutsCost | backend/go-service/pkg/indicatorcalc/supertrend_adaptive.go:97-135 | No pass increases the total squared distance to the nearest centroid. |
| VolatilityCluster.MeanMinimises | backend/go-service/pkg/indicatorcalc/supertrend_adaptive.go:116-127 | The mean of a cluster minimises its squared distances over all centres. |
| VolatilityCluster.NearestByMidpoints | backend/go-service/pkg/indicatorcalc/supertrend_adaptive.go:100-115 | With ordered centroids the three clusters are intervals cut at the midpoints, ties going up. |
| VolatilityCluster.IterateKeeps | backend/go-service/pkg/indicatorcalc/supertrend_adaptive.go:97-135 | Any number of passes keeps range and order and never raises the cost. |
| AdaptiveSupertrend.Batch | backend/go-service/pkg/indicatorcalc/supertrend_adaptive.go:49-86 | The batch form is the Supertrend over the ATR of each bar's own cluster. |
| AdaptiveSupertrend.AssignAtr | backend/go-service/pkg/indicatorcalc/supertrend_adaptive.go:58-73 | Every bar past the training window gets the centroid its ATR falls to, from the bars before it only. |
| VolatilityCluster.ClusterIsRestOfPasses | backend/go-service/pkg/indicatorcalc/supertrend_adaptive.go:88-156 | There is a sequence of centroids from the quartile points of the range, each triple the means of the values nearest to the one before and no two earlier neighbours closer than 0.00000001 throughout; it ends with two that are, or after exactly twenty steps, in the published centroids, and the cluster is that of the centroid nearest to the current value. |
| AdaptiveSupertrend.ClusterFromTable | backend/go-service/pkg/indicatorcalc/supertrend_adaptive.go:49-86 | The cluster of a bar is that of the `training` Wilder ATR values ending at it, the last of them the current one. |
| AdaptiveSupertrend.FormsExistExactly | backend/go-service/pkg/indicatorcalc/supertrend_adaptive.go:49-86 | What each form asks for: bars past period and training window, and for the batch form two training bars and positive assigned widths throughout. |
| AdaptiveSupertrend.AtrSeries | backend/go-service/pkg/indicatorcalc/volatility_core.go:63-97 | One smoothed true range for every bar from `period` on. |
| Supertrend.WilderIsFadedSum | backend/go-service/pkg/indicatorcalc/volatility_core.go:63-97 | Wilder's ATR written out: the plain average of true ranges 1 to `period` and every true range since, weighing 1 / period and fading by 1 - 1 / period per bar of its age. |
| AdaptiveSupertrend.StreamAtr.Append | backend/go-service/pkg/indicatorcalc/stream_directional.go:38-55 | Fed bar by bar the state holds the ATR table of all true ranges so far. |
| AdaptiveSupertrend.StreamAdaptiveSupertrend.Append | backend/go-service/pkg/indicatorcalc/stream_adaptive_supertrend.go:25-65 | Fed bar by bar the bands, side, last two points and cluster are those of the definition over all bars so far. |
| AdaptiveSupertrend.StreamAdaptiveSupertrend.Publish | backend/go-service/pkg/indicatorcalc/stream_adaptive_supertrend.go:38-65 | A published bar opens the bands or follows the old ones, and shifts the points. |
| AdaptiveSupertrend.StreamAdaptiveSupertrend.Value | backend/go-service/pkg/indicatorcalc/stream_state.go:274-284 | What the stream publishes is the specified stream value of everything appended. |
| AdaptiveSupertrend.StreamIsEndOfBatch | backend/go-service/pkg/indicatorcalc/stream_state.go:274-284 | The batch form answers exactly when the stream does, the training window is longer than one bar and every ATR in use is positive; then the stream gives the last two points of the batch form and its cluster. |
| AdaptiveSupertrend.FlatMarketSplits | backend/go-service/pkg/indicatorcalc/stream_state.go:274-284 | On a market that never moves the stream answers and the batch form refuses, for every price, period and training window. |
| Psar.Batch | backend/go-service/pkg/indicatorcalc/trend_psar.go:121-171 | The loop computes the reading of the trail over all bars, or nothing. |
| Psar.StreamPsar.Append | backend/go-service/pkg/indicatorcalc/trend_psar.go:22-49 | Fed bar by bar the stream's fields are the trail over all bars so far. |
| Psar.StreamPsar.Advance | backend/go-service/pkg/indicatorcalc/trend_psar.go:51-84 | The line glides to the extreme, is held outside the last two bars when asked, and turns when pierced. |
| Psar.StreamPsar.Value | backend/go-service/pkg/indicatorcalc/trend_psar.go:86-94 | The streamed reading is the batch reading of everything appended. |
| Psar.ExtremeAndSpeedOfRun | backend/go-service/pkg/indicatorcalc/trend_psar.go:121-171 | The extreme point is the extreme of the whole run since its turn, and the acceleration counts the records the run has set, capped. |
| Psar.LineStaysOutside | backend/go-service/pkg/indicatorcalc/trend_psar.go:121-171 | From the third bar on the line is on the trend's side of the extreme, and while the trend is kept no low (high) of the last three bars reaches through it. |
| Psar.RetreatsOnlyAfterPiercing | backend/go-service/pkg/indicatorcalc/trend_psar.go:121-171 | While a trend is kept the line retreats exactly when the bar before had already pierced it. |
| Psar.NeverRetreatsInsideTrend | backend/go-service/pkg/indicatorcalc/trend_psar.go:121-171 | Two kept bars in a row: the line only moves with the trend and stays outside the last three bars. |
| Psar.LineInPrices | backend/go-service/pkg/indicatorcalc/trend_psar.go:121-171 | From the third bar on the line moves from where it was toward the extreme price of its run, by the step plus one more for each record up to the maximum, held outside the last two bars; the trend turns exactly when the bar pierces it there, and the line then jumps to that extreme. |
| Psar.SecondBarInPrices | backend/go-service/pkg/indicatorcalc/trend_psar.go:121-171 | The trend starts up exactly when the second close is not below the first, with the line one step from the far end of the first bar toward the near one. |
| Psar.ReadingExistsExactly | backend/go-service/pkg/indicatorcalc/trend_psar.go:121-171 | A reading needs three bars and a positive step up to the maximum, and is the line with its side. |
| Supertrend.Scalar | backend/go-service/pkg/indicatorcalc/supertrend.go:101-147 | The scalar form is the last point of the Wilder run, refused exactly when it has no second point. |
| Supertrend.FromTrueRanges | backend/go-service/pkg/indicatorcalc/supertrend.go:263-321 | The run yields every point from the first ATR on, or only the last two. |
| Supertrend.WithAtr | backend/go-service/pkg/indicatorcalc/supertrend.go:184-228 | The series over a given ATR, refused exactly when history is short or an ATR it uses is not positive. |
| Supertrend.AdvanceBands | backend/go-service/pkg/indicatorcalc/supertrend.go:184-328 | The shared loop body makes one specified step of bands and side. |
| Supertrend.FormsAgree | backend/go-service/pkg/indicatorcalc/supertrend.go:101-321 | Scalar, Wilder run and series over the tabulated Wilder ATR publish the same points. |
| Supertrend.SameAtrSameBands | backend/go-service/pkg/indicatorcalc/supertrend.go:184-321 | Any two ATR sources that agree bar by bar give the same bands. |
| Supertrend.LineIsRatchetInsideRun | backend/go-service/pkg/indicatorcalc/supertrend.go:184-328 | From the second bar of a run on the line is the best band seen since, so it only tightens. |
| Supertrend.RetreatsExactlyWhenClosedThrough | backend/go-service/pkg/indicatorcalc/supertrend.go:184-328 | While the trend is kept the line retreats exactly when the bar before closed through it and the latest band is worse. |
| Supertrend.KeptBarClosesOutside | backend/go-service/pkg/indicatorcalc/supertrend.go:184-328 | A bar that keeps the trend closes on the trend's side of its line. |
| Supertrend.BandsCrossAndSecondBarRetreats | backend/go-service/pkg/indicatorcalc/supertrend.go:184-328 | Three concrete bars on which the lower band rises above the upper one and the second bar of a run retreats. |
| Supertrend.TurnsExactlyOnCross | backend/go-service/pkg/indicatorcalc/supertrend.go:184-328 | The side turns exactly when a bar closes beyond the band it is held by, and the line is the lower band when up and the upper one when down. |
| Supertrend.LowerBandIsHighestSince | backend/go-service/pkg/indicatorcalc/supertrend.go:184-328 | The lower band is the highest of the latest lower bands since a bar last closed below it. |
| Supertrend.UpperBandIsLowestSince | backend/go-service/pkg/indicatorcalc/supertrend.go:184-328 | The upper band is the lowest of the latest upper bands since a bar last closed above it. |
| Supertrend.BandsHaveRenewals | backend/go-service/pkg/indicatorcalc/supertrend.go:184-328 | Every bar has such a last renewal of each band. |
| Supertrend.FreshIsWidthFromMiddle | backend/go-service/pkg/indicatorcalc/supertrend.go:184-328 | The latest bands lie the multiple of the ATR above and below the middle of the bar. |
| Supertrend.BandsOpenFresh | backend/go-service/pkg/indicatorcalc/supertrend.go:184-328 | The bands open with the latest ones, up exactly when the close is not below the middle of the bar. |
| Supertrend.AtrSays | backend/go-service/pkg/indicatorcalc/supertrend.go:230-321 | The width comes from Wilder's average, the plain average of the last `period` true ranges, or the value given. |
| VolumeBuckets.PriceVolumeBucketsInto | backend/go-service/pkg/indicatorcalc/volume_distribution.go:17-46 | Accepted exactly on a usable range, every bucket holds the shares of all lookback bars, the buckets sum to the landed volume, and cells past them are untouched. |
| VolumeBuckets.SpreadBar | backend/go-service/pkg/indicatorcalc/volume_distribution.go:33-44 | One bar adds its equal shares to the buckets from its low to its high and to no others. |
| VolumeBuckets.VolumeIsConserved | backend/go-service/pkg/indicatorcalc/volume_distribution.go:17-46 | The buckets together hold exactly the volume that landed. |
| VolumeBuckets.SaneBarsLand | backend/go-service/pkg/indicatorcalc/volume_distribution.go:17-46 | When every low is at most its high, all volume of the lookback lands. |
| VolumeBuckets.SharesAreWhole | backend/go-service/pkg/indicatorcalc/volume_distribution.go:33-44 | The shares of one bar add up to its whole volume, or to nothing when its buckets are reversed. |
| VolumeBuckets.BucketIndex | backend/go-service/pkg/indicatorcalc/volume_distribution.go:61-75 | Every price lands in an existing bucket. |
| VolumeBuckets.BucketIndexMonotone | backend/go-service/pkg/indicatorcalc/volume_distribution.go:61-75 | A higher price never lands in a lower bucket. |
| VolumeBuckets.RangeHighLow | backend/go-service/pkg/indicatorcalc/volume_distribution.go:48-59 | The extremes of a non-empty range inside both arrays, refused otherwise. |
| VolumeBuckets.PriceLiesInItsBucket | backend/go-service/pkg/indicatorcalc/volume_distribution.go:61-75 | A price lies in its bucket from the lower edge up to but not including the upper one; prices outside the range fall in the first and last. |
| VolumeBuckets.SharesInPrices | backend/go-service/pkg/indicatorcalc/volume_distribution.go:33-44 | Every bucket whose price interval the bar reaches gets the same share, no other gets any, and the shares make up the bar's volume. |
| VolumeBuckets.GridSpansRange | backend/go-service/pkg/indicatorcalc/volume_distribution.go:17-46 | The grid starts at the lowest low of the lookback, and the given number of equal buckets reaches its highest high. |
| VolumeProfile.ValueArea | backend/go-service/pkg/indicatorcalc/volume_profile.go:69-95 | Whenever the loop comes to an end, what it ends with is the greedy area: inside the array, contiguous around the point of control, meeting its target unless only empty neighbours are left, not without its last bucket, and on one hill the heaviest buckets. |
| VolumeProfile.StopsExactlyWithoutNegatives | backend/go-service/pkg/indicatorcalc/volume_profile.go:69-95 | On two buckets or more the loop stops from every start and for every target exactly when no bucket is negative. |
| VolumeProfile.StopsExactlyOnIsland | backend/go-service/pkg/indicatorcalc/volume_profile.go:69-95 | From one start the loop stops for every target exactly when the positive buckets around it border on empty ones or the ends of the array. |
| VolumeProfile.GreedyIsHeaviest | backend/go-service/pkg/indicatorcalc/volume_profile.go:69-95 | On a distribution with one hill no bucket outside the area grown so far holds more than one inside, whatever the target and however often the loop has run. |
| VolumeProfile.PointOfControl | backend/go-service/pkg/indicatorcalc/volume_profile.go:31-67 | The first bucket of the largest volume, and the total. |
| VolumeProfile.VolumeProfile | backend/go-service/pkg/indicatorcalc/volume_profile.go:31-67 | For every input whose value area comes to an end, the profile's levels are those of the point of control and the area's ends, ordered inside the range; refused exactly when nothing landed or the range is unusable. |
| VolumeProfile.VolumesStop | backend/go-service/pkg/indicatorcalc/volume_profile.go:31-95 | Bars without negative volume always give such an input. |
| VolumeProfile.TakesLargerNeighbour | backend/go-service/pkg/indicatorcalc/volume_profile.go:69-95 | Each step takes the larger neighbour, the upper one on a tie. |
| VolumeProfile.GoesOnExactlyWhileShort | backend/go-service/pkg/indicatorcalc/volume_profile.go:69-95 | It goes on exactly while the area holds less than the target and a neighbour holds something. |
| VolumeProfile.LevelsAndTargets | backend/go-service/pkg/indicatorcalc/volume_profile.go:31-95 | Levels are the lower edges of buckets, and the target is the percentage of the total. |
| SupplyDemand.SupplyBoundary | backend/go-service/pkg/indicatorcalc/supply_demand.go:77-104 | The first bucket from the top at which the accumulated volume reaches the target, with the volume-weighted price of the zone; refused only when there is no volume or target. |
| SupplyDemand.DemandBoundary | backend/go-service/pkg/indicatorcalc/supply_demand.go:77-104 | The same from the bottom. |
| SupplyDemand.SupplyAboveDemand | backend/go-service/pkg/indicatorcalc/supply_demand.go:35-75 | With a target of at most half the total the supply boundary is never below the demand boundary. |
| SupplyDemand.ZonesApartExactlyToHalf | backend/go-service/pkg/indicatorcalc/supply_demand.go:35-75 | A threshold keeps the boundaries apart on every distribution exactly when it is at most 50 percent. |
| SupplyDemand.CrossingLeavesTooLittle | backend/go-service/pkg/indicatorcalc/supply_demand.go:35-104 | Crossed boundaries leave less than two targets of volume in all. |
| SupplyDemand.AverageInZone | backend/go-service/pkg/indicatorcalc/supply_demand.go:77-104 | The volume-weighted average of adjacent buckets lies between their outer edges. |
| SupplyDemand.SupplyDemandRange | backend/go-service/pkg/indicatorcalc/supply_demand.go:35-75 | Zones exist exactly when the input is usable and volume landed; both come from the boundaries of the bucketed volume, contain their plain averages, do not cross up to 50 percent, and contain their weighted averages when no bucket is negative. |
| SupplyDemand.CentreIsMiddle | backend/go-service/pkg/indicatorcalc/supply_demand.go:77-104 | A bucket weighs in at the middle between its edges. |
| RollingWindow.RollingWindow.Append | backend/go-service/pkg/indicatorcalc/rolling.go:31-56 | After any number of values the ring and both sums describe exactly the last `period` of them, periodic re-sum included. |
| RollingWindow.RollingWindow.Resum | backend/go-service/pkg/indicatorcalc/rolling.go:48-54 | Adding up the slots in slot order gives the running sums. |
| RollingWindow.RollingWindow.MeanVariance | backend/go-service/pkg/indicatorcalc/rolling.go:60-70 | Mean and two-pass variance of the last `period` values, once there are that many. |
| RollingWindow.RollingWindow.RangeValues | backend/go-service/pkg/indicatorcalc/rolling.go:72-86 | Maximum and minimum of the last `period` values, once there are that many. |
| RollingWindow.RollingWindow.Clone | backend/go-service/pkg/indicatorcalc/rolling.go:22-29 | A fresh window with the same history. |
| RollingWindow.Rotation | backend/go-service/pkg/indicatorcalc/rolling.go:31-56 | A full ring is the last `period` values rotated: each slot holds the value of this turn or of the turn before. |
| RollingWindow.RingSum | backend/go-service/pkg/indicatorcalc/rolling.go:48-54 | Summing the slots is summing the window, whatever the rotation. |
| RollingWindow.RingExtremes | backend/go-service/pkg/indicatorcalc/rolling.go:72-86 | The extremes of the slots are those of the window. |
| DataQuality.AssessDataQuality | backend/go-service/pkg/indicatorcalc/calculator_quality.go:25-75 | The full rescan: the first unreadable or impossible kline decides, then gaps, then zero volume, then too few samples. |
| DataQuality.CountersGiveTheVerdict | backend/go-service/pkg/indicatorcalc/calculator_quality.go:121-138 | For every list of klines, counters with some gaps too many give the verdict of the full rescan exactly when there are none too many or a problem or real gap decides anyway. |
| DataQuality.CountsDecide | backend/go-service/pkg/indicatorcalc/calculator_quality.go:25-75 | Each counter is positive exactly when the rescan would find such a kline. |
| DataQuality.FirstSeriesQualityError | backend/go-service/pkg/indicatorcalc/calculator_quality.go:140-150 | The search reports the first kline whose prices or times are impossible. |
| DataQuality.VerdictSays | backend/go-service/pkg/indicatorcalc/calculator_quality.go:25-75 | Every verdict, exactly: some kline unreadable, with prices outside its bar or closing before it opens; none but a kline that does not open one millisecond after the one before closed; none but an empty volume; none but too few klines; or fine. |
| DataQuality.FirstProblemSays | backend/go-service/pkg/indicatorcalc/calculator_quality.go:25-75 | The reported reason is that of the first kline that is not sound. |
| DataQuality.ProblemSays | backend/go-service/pkg/indicatorcalc/calculator_quality.go:25-75 | A kline's reason is its first unreadable text, in the order open, high, low, close, volume, then prices, then times. |
| DataQuality.RecountSnoc | backend/go-service/pkg/indicatorcalc/window.go:394-451 | One more kline adds its own defects and the gap before it. |
| DataQuality.RecountDrop | backend/go-service/pkg/indicatorcalc/window.go:419-439 | Dropping the first klines takes off their defects and the gap that reaches out of them. |
| DataQuality.RemoveQualityPrefix | backend/go-service/pkg/indicatorcalc/window.go:419-439 | The loop subtracts exactly the counts of the dropped klines and the gap after them. |
| CalculationWindow.Window.Append | backend/go-service/pkg/indicatorcalc/window.go:161-203 | Only closed klines enter, the newest `limit` are kept, and series, counters and rolling windows match them; an unreadable kline forces a rebuild. |
| CalculationWindow.Window.AppendOne | backend/go-service/pkg/indicatorcalc/window.go:166-203 | One closed kline extends everything that matches the stored klines. |
| CalculationWindow.Window.AppendSeries | backend/go-service/pkg/indicatorcalc/window.go:353-392 | A readable kline joins the series, the counters and the rolling windows; any other only raises the parse error. |
| CalculationWindow.Window.AppendQuality | backend/go-service/pkg/indicatorcalc/window.go:394-407 | One stored kline's defects and the gap before it join the counters. |
| CalculationWindow.Window.Trim | backend/go-service/pkg/indicatorcalc/window.go:268-283 | The oldest klines beyond the limit leave the klines, the series and the counters together. |
| CalculationWindow.Window.RebuildSeries | backend/go-service/pkg/indicatorcalc/window.go:305-343 | Starting over from the stored klines matches them again; the error stays exactly when one is unreadable. |
| CalculationWindow.Window.Reset | backend/go-service/pkg/indicatorcalc/window.go:146-159 | The newest closed klines are stored and series, counters and rolling windows match them, with no spurious gap; a pending preview stays pending, and without one the window is consistent. |
| CalculationWindow.ResetFitsExactlyWithoutPreview | backend/go-service/pkg/indicatorcalc/window.go:146-222 | Whatever klines it is given, a reset leaves a window that shows them exactly when no preview is pending before it. |
| CalculationWindow.ResetUnderPreview | backend/go-service/pkg/indicatorcalc/window.go:146-222 | A concrete preview window that is reset: its counters call it fine while the klines it then shows have a bar without volume. |
| CalculationWindow.Window.AssessQuality | backend/go-service/pkg/indicatorcalc/calculator_quality.go:121-138 | The verdict of the counters for every window state the source accepts; on a consistent window without a parse error it is that of a full rescan exactly when no gap is counted too often or a worse defect or real gap decides anyway. |
| CalculationWindow.Window.Materialize | backend/go-service/pkg/indicatorcalc/window.go:210-222 | Turning a pending preview into stored klines changes nothing a reader sees. |
| CalculationWindow.Window.Clone | backend/go-service/pkg/indicatorcalc/window.go:43-83 | A disjoint window with the same klines, series, counters and rolling histories. |
| CalculationWindow.Window.RealtimePreview | backend/go-service/pkg/indicatorcalc/window.go:85-120 | A new window with the kline appended as closed, leaving this one's content alone; it counts one gap too many exactly when the limit of one drops the neighbour the gap was measured from. |
| CalculationWindow.PreviewAgainstAppend | backend/go-service/pkg/indicatorcalc/window.go:85-120 | From any consistent window: against appending to a clone the preview has the same klines and, without a parse error, the same series, and the same counters exactly unless the dropped neighbour leaves a gap behind; it keeps an error that appending clears when the unreadable kline leaves. |
| CalculationWindow.PreviewCounted | backend/go-service/pkg/indicatorcalc/window.go:85-120 | The preview's counters are a recount plus that one spurious gap. |
| CalculationWindow.KeptAreNewest | backend/go-service/pkg/indicatorcalc/window.go:268-283 | The newest klines are kept, `limit` of them where there are more. |
| CalculationWindow.ClosedRemain | backend/go-service/pkg/indicatorcalc/window.go:166-203 | Exactly the closed klines enter, each as often as it was passed. |
| CalculationWindow.ClosedInOrder | backend/go-service/pkg/indicatorcalc/window.go:166-203 | They enter in their order. |
| FeatureContext.Context.BollingerBands | backend/go-service/pkg/indicatorcalc/feature_context.go:71-90 | From the cache, the rolling sums or the batch loop: at any limit the bands read from what the rolling window was fed, which are the batch bands when the limit is off or at least 20. |
| FeatureContext.Context.DonchianChannel | backend/go-service/pkg/indicatorcalc/feature_context.go:92-110 | From the cache, the rolling ring or the batch scan: at any limit the channel read from what the rolling windows were fed, which is the batch channel when the limit is off or at least 20. |
| FeatureContext.SameMoments | backend/go-service/pkg/indicatorcalc/feature_context.go:71-90 | What the rolling window was fed and what the trimmed series holds have the same last twenty moments. |
| FeatureContext.RollingBands | backend/go-service/pkg/indicatorcalc/feature_context.go:71-90 | The bands over what the rolling window was fed are the batch bands, with the limit off or at least 20. |
| FeatureContext.AgreesExactlyFromTwenty | backend/go-service/pkg/indicatorcalc/feature_context.go:71-110 | The rolling bands and the rolling channel may stand for the batch ones on every input exactly when the limit is off or at least 20. |
| FeatureContext.RollingChannel | backend/go-service/pkg/indicatorcalc/feature_context.go:92-110 | The channel over what the rolling windows were fed is the batch channel. |
| FeatureContext.Bollinger | backend/go-service/pkg/indicatorcalc/indicator_math.go:60-73 | The batch bands lie the same multiple of the deviation above and below the mean. |
| FeatureContext.Donchian | backend/go-service/pkg/indicatorcalc/indicator_math.go:88-94 | The batch channel is the highest high and the lowest low of the last `period` bars. |
| FeatureContext.BandsSay | backend/go-service/pkg/indicatorcalc/indicator_math.go:60-73 | The bands lie the multiple of the deviation above and below the mean of the last `period` values, and exist exactly when there are that many. |
| FirstTouch.OutcomeIsFirstTouch | backend/go-service/pkg/signalresearch/replay.go:170-258 | What each outcome of the brute-force scan says: take profit, stop loss or expired, each with the first bar that decides it, stop before profit within a bar, expiry ending observation. |
| FirstTouch.First | backend/go-service/pkg/signalresearch/replay.go:170-258 | The first bar that touches, with no touch before it. |
| CandidateLife.StateSnoc | backend/go-service/pkg/signalresearch/replay.go:170-215 | Counting a bar in and stamping its hits turns the state of a history into that of the longer one. |
| CandidateLife.StoppedRow | backend/go-service/pkg/signalresearch/replay.go:234-258 | The row a touched stop writes is the brute-force outcome of its history. |
| CandidateLife.ExpiredRow | backend/go-service/pkg/signalresearch/replay.go:170-258 | The row an expired candidate writes is the brute-force outcome, the late bar unseen. |
| CandidateLife.FlushedRow | backend/go-service/pkg/signalresearch/replay.go:217-258 | The row a stop writes at the end of the data is the brute-force outcome of its history. |
| CandidateLife.OutcomeIsFinal | backend/go-service/pkg/signalresearch/replay.go:170-258 | Bars after a stop has ended change no outcome of it. |
| ReplayRun.StopsStep | backend/go-service/pkg/signalresearch/replay.go:170-215 | One bar over a candidate's stops leaves exactly the live ones of the longer history and writes exactly what ended. |
| ReplayRun.StopsExpire | backend/go-service/pkg/signalresearch/replay.go:170-232 | Past the expiry every live stop is written and none is left. |
| ReplayRun.ListStep | backend/go-service/pkg/signalresearch/replay.go:170-215 | One bar over the whole active list leaves exactly the live candidates of the longer histories and writes exactly what ended. |
| ReplayRun.ListFinish | backend/go-service/pkg/signalresearch/replay.go:217-258 | What was written during the run and what the end flushes are together all outcomes, each once. |
| ReplayRun.ListAdd | backend/go-service/pkg/signalresearch/replay.go:125-166 | A new signal joins as a live candidate with nothing written. |
| SignalReplay.NormalizedPositive | backend/go-service/pkg/signalresearch/replay.go:291-306 | The positive values, sorted, each once, and nothing else. |
| SignalReplay.HighestIsUnique | backend/go-service/pkg/signalresearch/replay.go:234-258 | In whatever order the hit map is walked, the reported highest tier is the same. |
| SignalReplay.Replay.New | backend/go-service/pkg/signalresearch/replay.go:99-119 | A replay exists exactly for a usable configuration, with all three level lists normalised. |
| SignalReplay.Replay.AddSignal | backend/go-service/pkg/signalresearch/replay.go:125-166 | A signal is refused, with no effect, exactly when its price, payload or stops are unusable; otherwise it starts its own empty history. |
| SignalReplay.Replay.Advance | backend/go-service/pkg/signalresearch/replay.go:170-215 | A bar that does not parse changes nothing; any other extends every signal's history by it and writes exactly the outcomes it ends. |
| SignalReplay.Replay.Sweep | backend/go-service/pkg/signalresearch/replay.go:170-215 | Filtering the active list in place, the write index never past the read index, leaves what the list step specifies and appends its rows in order. |
| SignalReplay.Replay.AdvanceStops | backend/go-service/pkg/signalresearch/replay.go:190-207 | Filtering one candidate's stops in place leaves the survivors and appends the rows of the struck ones. |
| SignalReplay.Replay.MarkHits | backend/go-service/pkg/signalresearch/replay.go:200-205 | Each tier not yet hit and now reached is stamped with this bar's time and count, no other entry changes. |
| SignalReplay.Replay.FinalizeStop | backend/go-service/pkg/signalresearch/replay.go:234-258 | One row per tier, in tier order. |
| SignalReplay.Replay.Finish | backend/go-service/pkg/signalresearch/replay.go:217-222 | Over any run of adds and bars the outcomes are, as a multiset, exactly one brute-force first-touch outcome for every accepted signal, stop and tier. |
| SignalReplay.Replay.Results | backend/go-service/pkg/signalresearch/replay.go:224-226 | The signals and outcomes recorded so far. |
| FirstTouch.OutcomeInPrices | backend/go-service/pkg/signalresearch/replay.go:170-258 | In prices alone: a take profit names the first bar that reaches entry times one plus (minus, for a sell) the tier's margin over the leverage, with no earlier or same bar at the stop price; a stop loss the first bar at the stop price; an expiry a horizon in which no bar reached either. |
| FirstTouch.FiguresInPrices | backend/go-service/pkg/signalresearch/replay.go:170-258 | The reported maxima are the extreme highs and lows among exactly the bars observed, the expiry return leads from the entry to the last observed close, and tier, stop and identity are those of the row. |
| FirstTouch.HighestTierIsBestWinner | backend/go-service/pkg/signalresearch/replay.go:234-258 | The highest hit tier is the highest tier whose own outcome is a take profit, or zero when none is. |
| FirstTouch.TouchesInPrices | backend/go-service/pkg/signalresearch/replay.go:190-207 | A bar touches a tier or a stop exactly when its high or low trades at that price. |
| ReplayRun.RowsOfRun | backend/go-service/pkg/signalresearch/replay.go:217-258 | A row is written exactly when it is the outcome of some signal's stop and tier over that signal's own bars. |
| ReplayRun.OneRowEach | backend/go-service/pkg/signalresearch/replay.go:217-258 | There are as many rows as signals times their stops times the tiers. |
| SignalReplay.StopDistances | backend/go-service/pkg/signalresearch/replay.go:125-166 | The fixed stops lie the margin over the leverage away, the ATR stops the multiple of the signal's ATR, and there are ATR stops only with a positive ATR. |
| SignalReplay.ExpiresAfterHorizon | backend/go-service/pkg/signalresearch/replay.go:125-166 | A candidate expires the horizon after its signal, in whole milliseconds. |
| Excursion.ExcursionWithin | backend/go-service/pkg/signalresearch/replay.go:312-317 | An excursion at least that of a bar bounds the bar's prices: favourable upward for a buy and downward for a sell, adverse the other way. |
| Excursion.FavorableIsTraded | backend/go-service/pkg/signalresearch/replay.go:312-317 | A favourable excursion that is not zero is reached at the bar's high for a buy, at its low for a sell. |
| Excursion.AdverseIsTraded | backend/go-service/pkg/signalresearch/replay.go:312-317 | The same of the adverse excursion, at the other end. |
| Excursion.ReturnInPrices | backend/go-service/pkg/signalresearch/replay.go:319-325 | The directional return leads from the entry to the close. |
| SignalReplay.AtrSays | backend/go-service/pkg/signalresearch/replay.go:125-166 | The indicator's ATR counts when it is positive, otherwise the window's where there is one. |
| SignalReplay.PlainSpace | backend/go-service/pkg/signalresearch/replay.go:99-119 | In a run identifier tabs, line ends and blanks count as empty, printable ASCII characters do not. |
| Excursion.CloseBeatsWorst | backend/go-service/pkg/signalresearch/single_position.go:419-424 | A close inside the bar never returns less than the worst price of the bar. |
| SinglePositionBooks.StopOnlyTightens | backend/go-service/pkg/signalresearch/single_position.go:135-182 | The stop is a fixed function of the peak so far, never below the initial stop, never loosened by a higher peak, and equal to what ratcheting gives. |
| SinglePositionBooks.LabelsAreHonest | backend/go-service/pkg/signalresearch/single_position.go:135-182 | The exit label names the protection level actually reached for every peak exactly when the configuration keeps the levels apart. |
| SinglePositionBooks.NetLossBound | backend/go-service/pkg/signalresearch/single_position.go:340-409 | A gross loss within the initial stop nets at worst notional times stop plus round-trip cost. |
| SinglePositionBooks.EquityIsProfitLessLoss | backend/go-service/pkg/signalresearch/single_position.go:357-396 | Equity is the initial equity plus the profits less the losses, over any list of trades. |
| SinglePositionBooks.DrawdownSnoc | backend/go-service/pkg/signalresearch/single_position.go:396-402 | One more trade updates the maximum fall over all pairs of the equity curve. |
| SinglePositionBooks.StreakSnoc | backend/go-service/pkg/signalresearch/single_position.go:359-367 | One more trade updates the longest losing streak; only a win resets it, a flat trade does not. |
| SinglePositionBooks.StreakIsWinFreeTail | backend/go-service/pkg/signalresearch/single_position.go:359-367 | The streak counts the losses since the last win. |
| SinglePositionBooks.LossKindsPartition | backend/go-service/pkg/signalresearch/single_position.go:363-381 | Every losing trade is filed under exactly one kind. |
| SinglePosition.SinglePositionReplay.New | backend/go-service/pkg/signalresearch/single_position.go:120-131 | A replay exists exactly for a valid configuration. |
| SinglePosition.SinglePositionReplay.Advance | backend/go-service/pkg/signalresearch/single_position.go:135-182 | A bar that does not parse changes nothing; an open position is closed exactly when and how the path of earlier bars says, or else extends that path. |
| SinglePosition.SinglePositionReplay.TryEnter | backend/go-service/pkg/signalresearch/single_position.go:184-228 | Exactly one of entered, skipped for one reason or refused happens, decided in the source's order, and only entering changes the position. |
| SinglePosition.SinglePositionReplay.Close | backend/go-service/pkg/signalresearch/single_position.go:340-409 | The trade joins the books, every running total again equals its definition over all trades, and the cooldown starts. |
| SinglePosition.SinglePositionReplay.SkipConflict | backend/go-service/pkg/signalresearch/single_position.go:246 | Only the conflict counter moves. |
| SinglePosition.SinglePositionReplay.OpenReturnBps | backend/go-service/pkg/signalresearch/single_position.go:257-266 | The open position's return at a close, an error for a close that is not positive, nothing when flat. |
| SinglePosition.SinglePositionReplay.CloseAtMarket | backend/go-service/pkg/signalresearch/single_position.go:268-281 | Closes at the bar's close, filed under the built-in label the reason text spells or else as itself, or changes nothing. |
| SinglePosition.SinglePositionReplay.Finish | backend/go-service/pkg/signalresearch/single_position.go:283-287 | What is open at the end is closed at the last accepted close, if there was one. |
| SinglePosition.FileProfit | backend/go-service/pkg/signalresearch/single_position.go:356-381 | Profit, loss and streak totals of the longer trade list. |
| SinglePosition.FileExit | backend/go-service/pkg/signalresearch/single_position.go:382-395 | Exactly the counter of the exit's kind moves. |
| SinglePosition.MoveEquity | backend/go-service/pkg/signalresearch/single_position.go:396-402 | Equity, peak and maximum drawdown of the longer trade list. |
| SinglePosition.LastTelling | backend/go-service/pkg/signalresearch/single_position.go:230-244 | The last reason with something to tell, or nothing when none has. |
| SinglePosition.ExitLossIsBounded | backend/go-service/pkg/signalresearch/single_position.go:135-182 | For bars with low at most close at most high every exit inside a bar loses at most the initial stop gross and stop plus cost net, and with levels kept apart its label is the level reached. |
| SinglePosition.StopNeverLoosens | backend/go-service/pkg/signalresearch/single_position.go:135-182 | Along any path of bars the stop in force never loosens and never falls below the initial stop. |
| SinglePosition.BooksBalance | backend/go-service/pkg/signalresearch/single_position.go:340-409 | At any point of any run equity, net result, profits, losses and loss kinds balance. |
| SinglePosition.EntriesWaitOutTheCooldown | backend/go-service/pkg/signalresearch/single_position.go:184-228 | In any run at least the configured number of accepted bars lies between an exit and any later entry. |
| SinglePositionBooks.StopLevels | backend/go-service/pkg/signalresearch/single_position.go:135-182 | The stop is the initial one below the break-even trigger, the floor up to the trailing trigger, and from there the better of the floor and the peak less the drawdown. |
| SinglePositionBooks.LabelSaysWhere | backend/go-service/pkg/signalresearch/single_position.go:135-182 | Each label is given exactly for its own interval of the stop and the bar's favourable excursion. |
| SinglePositionBooks.NetIsGrossLessCost | backend/go-service/pkg/signalresearch/single_position.go:340-356 | Net result plus cost is notional times gross, and the cost is notional times two fees and two slippages. |
| SinglePositionBooks.LossKindByProfit | backend/go-service/pkg/signalresearch/single_position.go:363-381 | A loss is a timeout or unfiled by its exit, and otherwise without, with small or with given-back profit by how far the trade had run. |
| SinglePositionBooks.FallPctOfPeak | backend/go-service/pkg/signalresearch/single_position.go:396-402 | The fall is counted in percent of the peak it falls from. |
| SinglePositionBooks.TotalsAreSums | backend/go-service/pkg/signalresearch/single_position.go:340-409 | Every running total is the sum of its figure over all trades. |
| SinglePositionBooks.ReasonsAreCounted | backend/go-service/pkg/signalresearch/single_position.go:382-395 | Each counter is the number of trades with that reason. |
| SinglePositionBooks.LossKindsAreCounted | backend/go-service/pkg/signalresearch/single_position.go:363-381 | Each loss counter is the number of losing trades of that kind. |
| SinglePosition.ExitInPrices | backend/go-service/pkg/signalresearch/single_position.go:135-182 | An open position closes exactly when the bar trades at the stop price of the peak so far, at the stop, or when it has been held too long, at the close. |
| SinglePosition.PeaksInPrices | backend/go-service/pkg/signalresearch/single_position.go:135-182 | The peaks are the extreme prices of the path since entry, each traded by some bar of it. |
| SinglePosition.TradeSays | backend/go-service/pkg/signalresearch/single_position.go:340-356 | What the written trade says of side, times, prices, net result, peaks and what was given back. |
| SinglePosition.AttemptSays | backend/go-service/pkg/signalresearch/single_position.go:184-228 | Each way an attempt can end, exactly: no regime, blocked by the regime, a position open, cooling down, entered at the quoted price, or refused. |
| SinglePosition.SkipReasonSays | backend/go-service/pkg/signalresearch/single_position.go:230-244 | A blocked signal is a countertrend one when only the other side is open, and otherwise carries the last reason with something to tell. |
| SinglePosition.TellingSays | backend/go-service/pkg/signalresearch/single_position.go:230-244 | A telling reason is one of V4, V5 or V6 other than the six that report permission. |
| SinglePosition.TallyCounts | backend/go-service/pkg/signalresearch/single_position.go:184-228 | A reason counts once and no other count moves. |
| SinglePositionBooks.ReasonTexts | backend/go-service/pkg/signalresearch/single_position.go:382-395 | Which six texts spell a built-in exit reason; any other is a reason of its own. |
| SwingPoints.DetectSwingPoints | backend/go-service/pkg/signalresearch/swing_review.go:314-384 | In points mode the result zigzags: alternating legs, a full first move, and each pivot the extreme through the first bar that reverses its leg; it is the only list detected, in either mode; failures are exactly the bars that do not parse. |
| SwingPoints.Detect | backend/go-service/pkg/signalresearch/swing_review.go:314-384 | The loop's points are those of the track in which every leg opens on the bar that confirms the point before and ends at its first sufficient reversal. |
| SwingPoints.DetectedIsUnique | backend/go-service/pkg/signalresearch/swing_review.go:314-384 | Two lists detected for the same bars are equal, in points and in ATR mode: no swing can be skipped, added or misplaced. |
| SwingPoints.TrackIsUnique | backend/go-service/pkg/signalresearch/swing_review.go:314-384 | After any number of bars at most one track from the same pivot fits them: first move, closing bars and extremes are all determined. |
| SwingPoints.DetectedPointsZigzag | backend/go-service/pkg/signalresearch/swing_review.go:314-384 | Whatever is detected in points mode zigzags, each pivot confirmed by the first bar that reverses its leg. |
| SwingPoints.ZigzagTimesIncrease | backend/go-service/pkg/signalresearch/swing_review.go:314-384 | With increasing bar times the point times increase from the second on. |
| SwingPoints.OpenFirstLeg | backend/go-service/pkg/signalresearch/swing_review.go:314-384 | The first bar a full move away from the start opens the first leg. |
| SwingPoints.KeepLeg | backend/go-service/pkg/signalresearch/swing_review.go:314-384 | A better extreme, or a bar that does not reverse, keeps the leg open. |
| SwingPoints.TurnLeg | backend/go-service/pkg/signalresearch/swing_review.go:314-384 | A reversal confirms the extreme and opens the next leg on the same bar. |
| SwingPoints.LegCloses | backend/go-service/pkg/signalresearch/swing_review.go:314-384 | A reversing bar that does not improve on the extreme ends the leg there, as its first reversal, and opens the next leg on itself. |
| SwingPoints.CausalAtr | backend/go-service/pkg/signalresearch/swing_review.go:393-430 | Every bar's ATR depends only on bars up to it; failures are exactly the bars that do not parse. |
| SwingPoints.AtrIsWilder | backend/go-service/pkg/signalresearch/swing_review.go:393-430 | On the same prices the causal ATR is the Wilder ATR of the Supertrend, so its closed form holds here too. |
| SwingPoints.LastPointIsFullMove | backend/go-service/pkg/signalresearch/swing_review.go:379-384 | The running extreme is published as a last point exactly when it lies a full move from the last confirmed one. |
| SwingPoints.AtrThresholds | backend/go-service/pkg/signalresearch/swing_review.go:386-391 | In ATR mode a leg opens a multiple of the opening bar's ATR away and ends at a fall back of a multiple of the reversing bar's. |
| IndicatorStats.AnalyzeNumericSeries | backend/go-service/pkg/indicatorwindow/numeric.go:116-156 | The multi-pass statistics of a series. |
| IndicatorStats.NumericStatsFromPoints | backend/go-service/pkg/indicatorwindow/numeric.go:158-211 | The one-pass loop over points gives the multi-pass statistics of the collected series, or nothing when no point has the key. |
| IndicatorStats.ConsecutiveNumericCount | backend/go-service/pkg/indicatorwindow/numeric.go:263-282 | The backward scan counts the streak at the end of the series. |
| IndicatorStats.StreakIsLongestRun | backend/go-service/pkg/indicatorwindow/numeric.go:263-282 | The streak is as long as possible: every step of it goes that way and the step before does not. |
| WindowAnalyzer.RollingWindow.NumericStatsOf | backend/go-service/pkg/indicatorwindow/numeric.go:213-237 | A key's statistics from the ring are those of scanning the last twenty points. |
| IndicatorStats.StatsSay | backend/go-service/pkg/indicatorwindow/numeric.go:116-156 | Every statistic from the values alone: change, change in percent of the previous value's size, slope per step, direction, extremes, and the latest value's place between them. |
| IndicatorStats.StreakCountsSteps | backend/go-service/pkg/indicatorwindow/numeric.go:251-282 | A rising, falling or stable count is the number of last steps that go up, down or nowhere by more than, or within, 0.000000001. |
| IndicatorStats.SeriesTakes | backend/go-service/pkg/indicatorwindow/numeric.go:96-114 | A point adds its typed value, or else its parsed text, or nothing; a signal series its signal. |
| IndicatorStats.AnalyzeSignalSeries | backend/go-service/pkg/indicatorwindow/signal.go:60-73 | The multi-pass statistics of a signal series. |
| IndicatorStats.SignalStatsFromPoints | backend/go-service/pkg/indicatorwindow/signal.go:75-109 | The one-pass loop gives the multi-pass statistics of the collected signals. |
| IndicatorStats.StableSignalCount | backend/go-service/pkg/indicatorwindow/signal.go:149-162 | The backward scan counts the run of the latest signal. |
| IndicatorStats.LastSignalChangedAgo | backend/go-service/pkg/indicatorwindow/signal.go:164-175 | The age of the last change, or zero. |
| IndicatorStats.StableRunIsMaximal | backend/go-service/pkg/indicatorwindow/signal.go:149-162 | The run is all the latest signal, and the point before it is not. |
| WindowAnalyzer.RollingWindow.SignalStatsFor | backend/go-service/pkg/indicatorwindow/signal.go:111-135 | A signal's statistics from the ring are those of scanning the last twenty points. |
| IndicatorStats.SignalStatsSay | backend/go-service/pkg/indicatorwindow/signal.go:60-73 | Latest and previous signal, the length of the latest one's run, and its age, from the signals alone. |
| RollingBoard.PutTells | backend/go-service/pkg/indicatorwindow/analyzer.go:230-272 | Writing a row's value with the new generation makes the slot tell of the longer list of rows. |
| RollingBoard.SkipTells | backend/go-service/pkg/indicatorwindow/analyzer.go:230-272 | A row without the key leaves no trace: no older cell can carry a live generation. |
| RollingBoard.BlankTells | backend/go-service/pkg/indicatorwindow/analyzer.go:210-228 | A slot created late tells of rows that never had its key. |
| RollingBoard.WroteOk | backend/go-service/pkg/indicatorwindow/analyzer.go:230-272 | A row written into every slot that has its key keeps the whole board telling the truth. |
| RollingBoard.ReadSlot | backend/go-service/pkg/indicatorwindow/numeric.go:213-237 | Walking the ring from the oldest row over cells of the right generation collects exactly the key's values in the last twenty rows. |
| WindowAnalyzer.CollectedSeries | backend/go-service/pkg/indicatorwindow/numeric.go:239-249 | Collecting a key from the ring's rows is collecting it from the points, typed values before parsed texts. |
| WindowAnalyzer.WriteValues | backend/go-service/pkg/indicatorwindow/analyzer.go:230-272 | The second loop of a row adds the parsed texts of keys without a typed value. |
| WindowAnalyzer.RollingWindow.Append | backend/go-service/pkg/indicatorwindow/analyzer.go:230-272 | One more point makes every slot of the ring tell of the longer history. |
| WindowAnalyzer.RollingWindow.EnsureNumericSlot | backend/go-service/pkg/indicatorwindow/analyzer.go:210-218 | A key gets one slot, created blank on first sight, and other slots stay. |
| WindowAnalyzer.RollingWindow.EnsureSignalSlot | backend/go-service/pkg/indicatorwindow/analyzer.go:220-228 | The same for signals. |
| WindowAnalyzer.OrderedAnalyzer.AppendTyped | backend/go-service/pkg/indicatorwindow/analyzer.go:121-163 | A snapshot that is not newer is refused and changes nothing; any other is appended. |
| WindowAnalyzer.OrderedAnalyzer.UpdateKeys | backend/go-service/pkg/indicatorwindow/analyzer.go:165-208 | Every key the point carries has a slot before it is written. |
| WindowAnalyzer.OrderedAnalyzer.AddNumeric | backend/go-service/pkg/indicatorwindow/analyzer.go:489-511 | After any run of snapshots, for every key, the ring and a scan of the held points give the same numeric statistics: those of the last twenty accepted points. |
| WindowAnalyzer.OrderedAnalyzer.AddSignals | backend/go-service/pkg/indicatorwindow/analyzer.go:513-535 | The same for every signal. |
| RegimeV1.Detector.New | backend/go-service/pkg/marketregime/state.go:145-150 | A detector exists exactly for a valid configuration, every bound of the validation included. |
| RegimeV1.Detector.Transition | backend/go-service/pkg/marketregime/state.go:300-370 | The fields make exactly one specified step. |
| RegimeV1.Detector.Update | backend/go-service/pkg/marketregime/state.go:182-230 | Nothing moves before the window is full or on an unusable bar; otherwise one step is taken on a tick classified by the range of the bars before and the efficiency of the closes of the window with this bar. |
| RegimeV1.Detector.PlatformRange | backend/go-service/pkg/marketregime/state.go:388-399 | The high and low of the last full window. |
| RegimeV1.RunStaysSane | backend/go-service/pkg/marketregime/state.go:300-370 | In every run the direction is set exactly while a breakout is pending, armed, active or failed, and the watch, unlock and failure counters stay in range. |
| RegimeV1.StateBarsIsRunLength | backend/go-service/pkg/marketregime/state.go:300-370 | In every run stateBars is the length of the current run of equal states. |
| RegimeV1.FailedBreakoutsCountsFailures | backend/go-service/pkg/marketregime/state.go:300-370 | In every run failedBreakouts counts exactly the pendings that failed. |
| RegimeV1.BreakoutIsAsLongAsItsCounter | backend/go-service/pkg/marketregime/state.go:300-370 | A pending or armed breakout started out of the lock, and has lasted exactly breakoutBars ticks, all closing outside the same frozen range. |
| RegimeV1.ArmedOnlyByConfirmedBreakout | backend/go-service/pkg/marketregime/state.go:300-370 | A trend is armed only after at least two and at least the configured number of consecutive closes outside the same frozen range on the same side, the last one supported. |
| RegimeV1.LockNeedsDormantRun | backend/go-service/pkg/marketregime/state.go:300-370 | A watch turns into a lock only after at least two and the configured number of consecutive dormant ticks. |
| RegimeV1.RelockNeedsDormantRunOnceLively | backend/go-service/pkg/marketregime/state.go:300-370 | Once an active trend has seen a lively tick, it locks again exactly after the configured dormant run. |
| RegimeV1.RelockConfirmedExactlyForOneBar | backend/go-service/pkg/marketregime/state.go:300-370 | For every valid configuration: a trend is locked again only after the configured dormant run, in every run, exactly when that run is one bar. |
| RegimeV1.RelockOnOneTick | backend/go-service/pkg/marketregime/state.go:300-370 | For every valid configuration that asks for more, a run in which one dormant tick locks an active trend, because the old evidence is never cleared. |
| RegimeV1.Permissions | backend/go-service/pkg/marketregime/state.go:232-245 | Entries are open on some side exactly when allowed at all; both sides only when normal, otherwise only along an armed or active trend. |
| RegimeV1.BreakoutSupported | backend/go-service/pkg/marketregime/state.go:372-382 | Supported exactly when some interval backs the direction. |
| RegimeV1.EfficiencyRatio | backend/go-service/pkg/marketregime/state.go:401-410 | The net move over the path of the closes, zero when nothing moved. |
| RegimeV1.EfficiencyOf | backend/go-service/pkg/marketregime/state.go:401-410 | The ratio is the net move over the path, between zero and one, and zero when nothing moved. |
| RegimeV1.NetMoveWithinPath | backend/go-service/pkg/marketregime/state.go:401-410 | The net move never exceeds the path. |
| RegimeV1.LockLeavesExactly | backend/go-service/pkg/marketregime/state.go:319-336 | In every run: a lock turns normal exactly on a lively tick that is no volume breakout and ends a run of lively ticks since the lock began at least unlockEvidenceBars long; it turns pending exactly on a volume breakout; a dormant tick never opens it. |
| RegimeV1.WatchLeavesExactly | backend/go-service/pkg/marketregime/state.go:303-318 | In every run: normal is watched exactly on a dormant tick, and a watch ends in normal exactly on a lively one and in the lock exactly after the configured dormant ticks. |
| RegimeV1.PendingLeavesExactly | backend/go-service/pkg/marketregime/state.go:337-346 | In every run: a pending breakout fails exactly on a close inside its frozen range, and is armed exactly when confirmed by number and support. |
| RegimeV1.TrendLeavesExactly | backend/go-service/pkg/marketregime/state.go:347-364 | In every run: an armed trend is active next, an active one leaves only for the lock and never on a lively tick, and a failed breakout returns to the lock exactly after the configured bars. |
| RegimeV1.TickMeans | backend/go-service/pkg/marketregime/state.go:182-230 | A tick is dormant exactly when enough intervals are and the market is inefficient and narrow, or when it stalls; supported exactly when an interval's momentum backs the direction beyond both bounds. |
| RegimeV1.DormantCountIsCardinality | backend/go-service/pkg/marketregime/state.go:182-230 | The dormant intervals are counted. |
| RegimeV1.StraightPathIsNetMove | backend/go-service/pkg/marketregime/state.go:401-410 | Closes that only rise or only fall go the shortest way: the path is the net move. |
| ConfirmationFilter.FilterTracksLaw | backend/go-service/pkg/marketregime/v2.go:203-221 | For at least two confirming bars and any history of targets and releases, what is committed is the most recent pair that was released or seen that often in a row, although a stale pending pair is never cleared. |
| ConfirmationFilter.LawfulExactlyFromTwo | backend/go-service/pkg/marketregime/v2.go:203-221 | The filter keeps that law on every history exactly when at least two confirming bars are asked for. |
| ConfirmationFilter.StalePendingCommits | backend/go-service/pkg/marketregime/v2.go:203-221 | With one confirming bar a stale pending pair is committed on a later single sighting: a concrete history. |
| ConfirmationFilter.RunIsMaximal | backend/go-service/pkg/marketregime/v2.go:203-221 | A run is as long as possible, and a release is a run of its own. |
| ConfirmationFilter.StateBarsIsAge | backend/go-service/pkg/marketregime/v2.go:203-221 | stateBars is the age of the committed pair. |
| ConfirmationFilter.Gate.Transition | backend/go-service/pkg/marketregime/v2.go:203-221 | The fields commit what the law says of all targets so far. |
| ConfirmationFilter.Gate.Count | backend/go-service/pkg/marketregime/v4.go:201-219 | One target makes exactly one step of the filter. |
| RegimeV2.Analyzer.Analyze | backend/go-service/pkg/marketregime/v2.go:66-109 | A bar is scored exactly when the window is full and the evidence is there; then the target scored from the evidence and the efficiency of the window goes through the filter, otherwise the filter does not move. |
| RegimeV2.ScoresInRange | backend/go-service/pkg/marketregime/v2.go:145-179 | The trend score stays within 0 and 100, and the direction score never reaches its clamp. |
| RegimeV2.UnsetTargetExactly | backend/go-service/pkg/marketregime/v2.go:181-201 | The target's direction is unset exactly for a mixed ribbon that is wide and expanding. |
| RegimeV2.TargetIsSymmetric | backend/go-service/pkg/marketregime/v2.go:145-201 | Turning the market upside down negates the direction score and flips the target. |
| RegimeV2.Permissions | backend/go-service/pkg/marketregime/v2.go:223-235 | Any state but a lock leaves entries open, on both sides unless a direction closes one. |
| RegimeV2.ScoresSay | backend/go-service/pkg/marketregime/v2.go:145-179 | The trend score grades efficiency to 0.6 for 40 points, ADX from 15 to 40 for 30 and ribbon spread to 1.2 for 20, adds 10 for an expanding ribbon, takes off 20 in noise and stops at 0; the direction score is 40 for the ribbon's side, up to 35 either way for the slope to 0.2, and 15 for the money flow. |
| RegimeV2.TargetSays | backend/go-service/pkg/marketregime/v2.go:181-201 | The target in full: lock, active trend or normal by the two bounds and whether there is a direction; the direction is the ribbon's while it is wide, expanding and not flat, and the score's where that is large enough. |
| RegimeV4.PercentileRank | backend/go-service/pkg/marketregime/v4.go:221-229 | The fraction of values at most the current one, duplicates included. |
| RegimeV4.SortFloats | backend/go-service/pkg/marketregime/v4.go:221-229 | The same values in order. |
| RegimeV4.SearchFloats | backend/go-service/pkg/marketregime/v4.go:221-229 | The boundary between smaller and not smaller values. |
| RegimeV4.TargetNeverContradictsBase | backend/go-service/pkg/marketregime/v4.go:116-170 | A target has a direction only if the base model has it, and arms a trend only with a release in that direction. |
| RegimeV4.GateTargetIsSymmetric | backend/go-service/pkg/marketregime/v4.go:116-175 | Flipping base and phase flips the target. |
| RegimeV4.UnsetCountsAsShort | backend/go-service/pkg/marketregime/v4.go:191-199 | The permissions treat an unset direction as short: they are symmetric exactly when the direction is set or nothing is allowed. |
| RegimeV4.GateAnalyzer.PhaseEvidence | backend/go-service/pkg/marketregime/v4.go:91-114 | Readiness and the rank of the current width among the last `widthWindow` widths. |
| RegimeV4.GateAnalyzer.Analyze | backend/go-service/pkg/marketregime/v4.go:67-89 | A result exactly when base and phase are ready; then one target goes through this filter, and each ready base reading through the base's own, scored from the efficiency of its window. |
| RegimeV4.GateTargetSays | backend/go-service/pkg/marketregime/v4.go:116-175 | The target in full: armed on a release the base agrees with, pending on one it does not; without one a lock when the base is locked or enough of four signs of compression are there, normal without a direction, pending while bands contract or momentum fades, otherwise the base's own. |
| RegimeV4.VotesAreCounted | backend/go-service/pkg/marketregime/v4.go:116-157 | The votes are the number of signs of compression that hold. |
| RegimeV5.FastReleaseIsBacked | backend/go-service/pkg/marketregime/v5.go:86-140 | A fast release is armed exactly out of a lock, in the direction of a close outside the window, with width, score, momentum and volume all agreeing. |
| RegimeV5.EveryChangeIsBacked | backend/go-service/pkg/marketregime/v5.go:45-140 | In every run, with at least two confirming bars, each change of the committed pair is either a confirmed run of targets or a release on a bar whose close lies outside all bars of the breakout window, with a lock before it. |
| RegimeV5.FastAnalyzer.BreakoutDirection | backend/go-service/pkg/marketregime/v5.go:108-125 | The side of the last `breakoutWindow` bars the close lies on, if outside all of them. |
| RegimeV5.FastAnalyzer.Decide | backend/go-service/pkg/marketregime/v5.go:86-106 | The branches decide the event specified for the breakout and the evidence. |
| RegimeV5.FastAnalyzer.AppendBar | backend/go-service/pkg/marketregime/v5.go:127-132 | The window keeps the newest bars. |
| RegimeV5.FastAnalyzer.Analyze | backend/go-service/pkg/marketregime/v5.go:45-80 | Each ready bar makes exactly one filter event, decided by the base reading, the phase and a breakout judged against the bars before it; every parsed bar joins the window, and the base model's bars and events grow as in V4. |
| ConfirmationFilter.Gate.Release | backend/go-service/pkg/marketregime/v5.go:45-80 | A release commits its pair at once and clears what was pending. |
| TrailingExit.TriggerNeverLoosensOverRun | backend/go-service/pkg/position/position.go:303-430 | Over any run of refreshes an active trailing trigger stays active and never loosens, across the switch to the wider runner trail too, exactly when no later price drives the reference of a short to zero or below. |
| TrailingExit.TriggerFollows | backend/go-service/pkg/position/position.go:303-342 | A better reference never loosens the trigger. |
| TrailingExit.ProtectedTrailFollows | backend/go-service/pkg/position/position.go:344-386 | Even across the switch to the runner the protected price follows the reference. |
| TrailingExit.NeverLoosensExactly | backend/go-service/pkg/position/position.go:236-386 | A short trigger never loosens; a long one never loosens exactly when the trail is at most 100 percent or a guard holds its floor. |
| TrailingExit.WideTrailLoosens | backend/go-service/pkg/position/position.go:236-241 | A long trail beyond 100 percent without a guard does loosen: two concrete references. |
| TrailingExit.GuardKeepsFloor | backend/go-service/pkg/position/position.go:303-342 | An active guarded trigger is never worse than entry plus (minus) the floor. |
| TrailingExit.RefreshPositionExtremesAt | backend/go-service/pkg/position/position.go:392-421 | The extremes widen to the price and every rule is overwritten accordingly; a price that does not parse changes nothing. |
| TrailingExit.RefreshPositionBarExtremesAt | backend/go-service/pkg/position/position.go:427-430 | A bar is a refresh with its high and then one with its low. |
| TrailingExit.ExtremesOfRun | backend/go-service/pkg/position/position.go:392-430 | After any run the extremes are those of the starting values and every parsed price. |
| TrailingExit.RiskExitBar | backend/go-service/pkg/position/position.go:153-258 | The plan and fill of the best eligible rule (stop loss before trailing before take profit, then list order), none exactly when the bar is unusable or nothing is touched. |
| TrailingExit.StopFillIsInsideBar | backend/go-service/pkg/position/position.go:153-194 | A stop is filled no better than its trigger, wherever the bar opened, and inside the bar when the open is. |
| TrailingExit.TrailIsBehind | backend/go-service/pkg/position/position.go:236-241 | The trailing trigger lies the trail percentage behind the reference. |
| TrailingExit.GainIsAhead | backend/go-service/pkg/position/position.go:303-342 | A gain in basis points lies that much ahead of the entry. |
| TrailingExit.TriggerStands | backend/go-service/pkg/position/position.go:303-342 | Without a guard the trigger is the plain trail; with one there is a trigger exactly once the reference passed the activation, and it is the better of the floor and the trail. |
| TrailingExit.TrailStands | backend/go-service/pkg/position/position.go:344-386 | The runner's trail takes over exactly when the reference passed its activation, and then the trigger is the better of the trail from there and the wider one from the reference. |
| TrailingExit.RuleFires | backend/go-service/pkg/position/position.go:212-258 | A take profit fires exactly when the bar reaches its trigger on the winning side, a stop loss on the losing side, a trailing stop where its trigger stands. |
| TrailingExit.RuleFills | backend/go-service/pkg/position/position.go:153-194 | A stop that the bar opens beyond fills at the open; everything else fills at its trigger. |
| TrailingExit.RuleCloses | backend/go-service/pkg/position/position.go:196-210 | The plan closes the rule's share of the position, all of it when the share is not proper, and carries the rule that fired. |
| TrailingExit.ChosenIsConservative | backend/go-service/pkg/position/position.go:153-194 | Whatever else fires on the bar, the chosen rule comes first: stop losses before trailing stops before take profits, then list order. |
| TrailingExit.HighTimeOfRun | backend/go-service/pkg/position/position.go:392-421 | With known times, the time of the highest price is that of the first price of the run that reached it, or the old one while nothing went beyond. |
| TrailingExit.LowTimeOfRun | backend/go-service/pkg/position/position.go:392-421 | The same of the lowest. |
| TrailingExit.TieKeepsKnownTime | backend/go-service/pkg/position/position.go:392-421 | A price that ties with an extreme leaves a known time and fills in an unknown one. |

## Left out

Deliberately weaker contracts:

- VolumeProfile.VolumeProfile: asks that the value area comes to an end, since the source's loop need not; when it does is stated exactly.
- VolumeProfile.ValueArea: the same.
- SupplyDemand.SupplyDemandRange: the weighted averages are placed in their zones only when no bucket is negative.
- SwingPoints.DetectSwingPoints: in ATR mode the thresholds move from bar to bar, so the result is unique but not said to zigzag by fixed thresholds.
- AdaptiveSupertrend.StreamAdaptiveSupertrend.Append: the stream is created on a first bar, which only the ghost record sees.

Not modelled:

- Floating-point rounding, NaN and infinity, and the periodic re-sum as a numerical measure: the arithmetic is over reals.
- The values of `sqrt` and `log`, which are parameters; a strength with no losses is the source's 100.
- JSON metadata, hashed identifiers, wall-clock creation times, float parsing and formatting: options or dropped.
- NATS, Redis, ClickHouse, HTTP, configuration, encryption and the frontend: I/O and user interface.
- `SignalReplay`: the lists are filtered in place, but their candidates and stops are values, not pointers; the sorting library is an insertion.
- `RollingBoard` and the analyzer's rolling window: fixed arrays are sequences of the same length, result maps and the order of key lists are dropped, and so are the semantic window labels.
- `CalculationWindow`: a missing rolling window is an empty one, the five parallel series are one record, and the basic-state prefix and its pointers are left out. A preview shares the storage of the window it came from in the source; here it holds the klines, so what a later reset of that window writes into the shared storage is not captured.
- The summary averages, percentiles and entry-regime fields of the single-position engine.
- `marketregime` V3 and V6, which copy the same filter; the vote that turns a timeframe into interval evidence, and V2's reading of its evidence from indicator names.
- The tick form of the risk exit, order planning around the exit plan, and exchange adapters.
- Label and threshold classifiers (states, zones, candle patterns), which one branch settles each.
- The AI indicator's training and source scoring: only the feature cursor and its brute-force form are modelled.
