# Turnip price forecasting, in Dafny

This project models the forecasting engine of a Telegram bot that predicts turnip prices (the
`forecast.go` file). A forecast is built from the Sunday purchase price (the "sell price", 90 to
110 bells) and twelve half-day observed prices (Monday morning to Saturday afternoon, 0 when
unknown, at most 660). The engine enumerates every configuration of the game's four price
patterns and tries each one:

- 56 Random configurations: five phases of lengths `inc1`, `dec1`, `inc2`, `dec2`, `inc3`;
- 7 BigSpike spike starts (1 to 7);
- the single Falling run;
- 8 SmallSpike spike starts (0 to 7).

Each try walks the twelve slots. It computes each slot's `[minPred, maxPred]` window from
fixed or decaying rates times the sell price, rounded outwards. It rejects the configuration
(`ErrNoMatch`) as soon as an observed price falls outside its window. Otherwise it collapses
the slot to the observed price, and re-seeds a decaying run's rates from it. The surviving
patterns are concatenated in the order Random, BigSpike, Falling, SmallSpike. They are then
merged into per-slot bounds: the lowest minimum and the highest maximum.

The model follows the program's shape:

- `Forecast` is a class whose fields are set once by `NewForecast`.
- The generators are methods that fill a twelve-slot `array` phase by phase with loops over the
  running rates and a `halfs` cursor.
- The enumerators append to a sequence in nested loops.
- `GenAllPatterns` folds the patterns into an array of bounds.

Each method is proved against a closed-form specification function:

- `RandomSpec`, `BigSpikeSpec`, `FallingSpec`, `SmallSpikeSpec` give each slot's window
  (`Windows` module).
- `Match` applies the shared per-slot rule (`Slots` module).
- `AllPatterns` and `MergedBounds` describe the enumeration and the merge (`Enumeration`
  module).

The lemmas state what those functions promise:

- the accept/reject rule;
- collapse to observed values;
- phases tiling the twelve slots;
- well-formed enumerations and the counts 56/7/1/8;
- the merged bounds being the exact extremes;
- every returned slot having `0 <= Min <= Max <= 660` (`Bounds` module).

Rates are exact reals. Every method computes on rates, as the engine does. The decaying runs
are specified on the exact prices (rates times the sell price), where a re-seed from an observed
price `b` gives `b - 0.5` and `b + 0.5`. The lemmas `DecayWindowOfRates` and `DecayNext` connect
the two views.

## Model

| member | source | states |
|---|---|---|
| Forecasting.NewForecast | forecast.go:54-69 | `ErrSellPrice` iff the sell price is outside `[90, 110]`; otherwise `ErrBuyPrice` iff some observed price exceeds 660; otherwise a fresh forecast holding both inputs unchanged |
| Forecasting.Forecast.constructor | forecast.go:65-68 | a forecast built from an accepted sell price and twelve accepted observations holds them unchanged and is valid |
| Rates.RateIntervalTight | forecast.go:73-87 | `[minRate(b), maxRate(b))` holds exactly the rates whose price `r * sellPrice` lies in `[b - 0.5, b + 0.5)` |
| Rates.MinRate | forecast.go:73-75 | the lowest rate for observed price `b`, scaled back by the sell price, is exactly `b - 0.5` |
| Rates.MaxRate | forecast.go:77-79 | the highest rate for observed price `b`, scaled back by the sell price, is exactly `b + 0.5` |
| Rates.Ceil | forecast.go:86 | `math.Ceil`: the least integer not below `x` |
| Rates.MinRatePrice | forecast.go:81-83 | the price of rate `r` rounded down: the integer `p` with `p <= r * sellPrice < p + 1` |
| Rates.MaxRatePrice | forecast.go:85-87 | the price of rate `r` rounded up: the integer `p` with `p - 1 < r * sellPrice <= p` |
| Rates.RatePriceOrder | forecast.go:81-87 | rounding a lower rate down never exceeds rounding a higher rate up |
| Rates.RatePriceMonotone | forecast.go:81-87 | both price bounds grow with the rate |
| Phases.RandomCheck | forecast.go:98-120 | the first failing check in source order, with uint8 wrap-around; an accepted configuration has a non-empty second increase and sums to 12, and the sum check never fires alone |
| Phases.RandomCheckExact | forecast.go:98-120 | the six phase checks pass exactly for `inc1 <= 6`, `dec1` in {2, 3}, `inc3 < 7 - inc1`, `inc2 == 7 - inc1 - inc3`, `dec2 == 5 - dec1` (with uint8 wrap-around) |
| Phases.BigSpikeCheck | forecast.go:276-278 | accepts exactly spike starts 1 to 7; any other start gives the spike-start range error |
| Phases.SmallSpikeCheck | forecast.go:433-435 | accepts exactly spike starts 0 to 7; any other start gives the spike-start range error |
| Phases.TilesPartition | forecast.go:123-243 | spans that tile `[0, n)` cover every slot exactly once |
| Phases.RandomPhasesTile | forecast.go:123-243 | a configuration passing the checks gives five phases that tile the twelve slots |
| Phases.SpikePhasesTile | forecast.go:284-352 | any accepted spike start gives decay, spike and tail phases that tile the twelve slots |
| Phases.FallingPhasesTile | forecast.go:383-406 | Falling's single decreasing run tiles the twelve slots |
| Slots.MatchExact | forecast.go:128-139 | a pattern iff every observed price lies in its window; otherwise `ErrNoMatch` and no pattern; observed slots collapse to `{b, b}`, the others keep their window |
| Slots.MatchOrdered | forecast.go:128-139 | a matched pattern has `Min <= Max` wherever the unobserved windows do |
| Slots.MatchNoObservations | forecast.go:128-139 | with nothing observed, every configuration matches and keeps its windows |
| Windows.DecayWindowOfRates | forecast.go:149-150 | a slot's window computed from running rates equals the one from the run's exact prices |
| Windows.DecayNext | forecast.go:152-171 | re-seeding (when observed) and decaying the running rates yields the next slot's exact prices |
| Windows.RandomWindowsByPhase | forecast.go:123-243 | Random's windows: static `[0.9, 1.4]`, a decaying run from `[0.6, 0.8]` by 0.1/0.04, static, a decaying run, static |
| Windows.BigSpikeWindowsByPhase | forecast.go:280-352 | BigSpike's windows: a decaying run from `[0.85, 0.9]` by 0.05/0.03, the spike table, a static `[0.4, 0.9]` tail |
| Windows.FallingWindowsRun | forecast.go:379-406 | Falling's windows are one twelve-slot decaying run from `[0.85, 0.9]` |
| Windows.SmallSpikeWindowsByPhase | forecast.go:436-526 | SmallSpike's windows: a decaying `[0.4, 0.9]` run; a spike of two `[0.9, 1.4]` slots, then three `[1.4, 2.0]` slots where the first and last lose 1 from the maximum and the peak's minimum is the previous slot's collapsed minimum; a decaying `[0.4, 0.9]` tail that starts afresh |
| Forecasting.Forecast.FillStatic | forecast.go:124-140 | a static phase succeeds iff each of its own observations fits; it then fills its slots with the collapsed windows; later slots are untouched |
| Forecasting.Forecast.FillDecay | forecast.go:147-172 | a decaying phase succeeds iff each of its own observations fits; it then fills its slots with the collapsed run windows; later slots are untouched |
| Forecasting.Forecast.DecaySlot | forecast.go:149-171 | one slot of a decaying phase: succeeds iff its observation fits its window; then the collapse and the re-seeded, decayed rates; later slots are untouched |
| Forecasting.Forecast.FillTable | forecast.go:309-331 | BigSpike's spike succeeds iff each of its five observations fits the table window; it then fills those slots; later slots are untouched |
| Forecasting.Forecast.FillSmallSpike | forecast.go:466-496 | SmallSpike's spike: offsets 2 and 4 lose 1 from the maximum, offset 3 takes the previous slot's stored minimum, both before the observation check; succeeds iff each of the five observations fits; later slots are untouched |
| Forecasting.Forecast.FilledMatch | forecast.go:128-139 | a fully filled array is what the per-slot rule returns |
| Forecasting.Forecast.FillRandom | forecast.go:123-245 | walking Random's five phases with the `halfs` cursor returns the match of its windows |
| Forecasting.Forecast.GenRandomPattern | forecast.go:92-246 | returns the constraint error of the first failing check, else the match of Random's windows |
| Forecasting.Forecast.GenBigSpikePattern | forecast.go:270-355 | spike start outside 1..7 is a constraint error, else the match of BigSpike's windows |
| Forecasting.Forecast.GenFallingPattern | forecast.go:375-409 | the match of Falling's windows |
| Forecasting.Forecast.GenSmallSpikePattern | forecast.go:427-529 | spike start above 7 is a constraint error, else the match of SmallSpike's windows |
| Forecasting.Forecast.GenRandomPatterns | forecast.go:249-267 | the successful outcomes over the 56 configurations, in loop order |
| Forecasting.Forecast.AddRandomPatterns | forecast.go:254-263 | the innermost loop keeps, after the earlier outcomes, the successes over every `inc3` for one `dec1` and `inc1` |
| Forecasting.Forecast.AddRandomPattern | forecast.go:255-260 | one configuration's pattern is kept exactly when its generator succeeds |
| Forecasting.Forecast.GenBigSpikePatterns | forecast.go:358-372 | the successful outcomes over spike starts 1..7, in order |
| Forecasting.Forecast.GenFallingPatterns | forecast.go:412-424 | the Falling pattern if it matches, else nothing |
| Forecasting.Forecast.GenSmallSpikePatterns | forecast.go:532-546 | the successful outcomes over spike starts 0..7, in order |
| Forecasting.Forecast.GenAllPatterns | forecast.go:549-574 | patterns in the order Random, BigSpike, Falling, SmallSpike; no bounds iff no pattern; otherwise the merged bounds |
| Forecasting.Forecast.MergePattern | forecast.go:567-570 | folding one more pattern into the bounds array keeps it equal to the fold over the patterns so far |
| Forecasting.Forecast.MergeBounds | forecast.go:562-571 | the bounds array starts at `{MaxUint32, 0}` per slot and ends as the fold over all patterns |
| Enumeration.RandomConfigsWellFormed | forecast.go:252-256 | every enumerated Random configuration passes all of the generator's checks |
| Enumeration.RandomConfigsCount | forecast.go:252-256 | the Random loops enumerate 56 configurations |
| Enumeration.BigSpikeStartsWellFormed | forecast.go:361-362 | the BigSpike loop tries 7 starts, each accepted by the generator's range check (lines 276-278) |
| Enumeration.SmallSpikeStartsWellFormed | forecast.go:535-536 | the SmallSpike loop tries 8 starts, each accepted by the generator's range check (lines 433-435) |
| Enumeration.EnumeratedErrorsAreNoMatch | forecast.go:257-261 | every error the enumerators can meet is `ErrNoMatch`, so the logging branch is unreachable |
| Enumeration.PatternCountBounds | forecast.go:249-546 | at most 56, 7, 1 and 8 patterns per family |
| Enumeration.RandomNoObservations | forecast.go:252-264 | with nothing observed, 56 Random patterns |
| Enumeration.BigSpikeNoObservations | forecast.go:361-369 | with nothing observed, 7 BigSpike patterns |
| Enumeration.FallingNoObservations | forecast.go:415-421 | with nothing observed, 1 Falling pattern |
| Enumeration.SmallSpikeNoObservations | forecast.go:535-543 | with nothing observed, 8 SmallSpike patterns |
| Enumeration.NoObservationsAllSurvive | forecast.go:549-556 | with nothing observed, 72 patterns in all |
| Enumeration.SurvivorsFrom | forecast.go:257-258 | every kept pattern comes from a successful outcome |
| Enumeration.SurvivorsKeepsOk | forecast.go:257-258 | every successful outcome's pattern is kept |
| Enumeration.SurvivorsExact | forecast.go:257-258 | a pattern is kept exactly when some outcome produced it |
| Enumeration.RandomResultsExact | forecast.go:255 | a pattern is among the outcomes exactly when `GenRandomPattern` returns it for some tried configuration |
| Enumeration.RandomPatternsExact | forecast.go:249-267 | a pattern is in the Random list exactly when some enumerated configuration produces it |
| Enumeration.BigSpikeResultsExact | forecast.go:362 | a pattern is among the outcomes exactly when `GenBigSpikePattern` returns it for some tried start |
| Enumeration.BigSpikePatternsExact | forecast.go:358-372 | a pattern is in the BigSpike list exactly when some enumerated spike start produces it |
| Enumeration.FallingPatternsExact | forecast.go:412-424 | a pattern is in the Falling list exactly when `GenFallingPattern` returns it |
| Enumeration.SmallSpikeResultsExact | forecast.go:536 | a pattern is among the outcomes exactly when `GenSmallSpikePattern` returns it for some tried start |
| Enumeration.SmallSpikePatternsExact | forecast.go:532-546 | a pattern is in the SmallSpike list exactly when some enumerated spike start produces it |
| Enumeration.SurvivorsAllOk | forecast.go:257-258 | when every outcome succeeds, none is dropped |
| Enumeration.SurvivorsAppend | forecast.go:553-556 | keeping the successes of a concatenation concatenates the kept patterns |
| Enumeration.AllPatternsOfOutcomes | forecast.go:549-556 | the four families' lists, appended in order, are exactly the successes of all generator outcomes in enumeration order |
| Enumeration.LowestMinIsMinimum | forecast.go:562-571 | a slot's folded minimum is at most every pattern's minimum and equals one of them or `MaxUint32` |
| Enumeration.HighestMaxIsMaximum | forecast.go:562-571 | a slot's folded maximum is at least every pattern's maximum and equals one of them or 0 |
| Enumeration.AllPatternsShaped | forecast.go:549-556 | every kept pattern has twelve slots |
| Bounds.RunPricesOrdered | forecast.go:144-171 | a decaying run's lower price never overtakes its upper one |
| Bounds.RunPricesFloor | forecast.go:144-171 | with admitted observations, a run's lower price loses at most the decay plus 1.5 per slot |
| Bounds.RunPricesCeiling | forecast.go:144-171 | with observations at most 660, a run's upper price stays at most 660 |
| Bounds.DecayRunBounded | forecast.go:144-171 | each slot of a decaying run within its budget that the generator reaches (every earlier observation fitted) lies in `0 <= Min <= Max <= 660` |
| Bounds.PriceWindowBounded | forecast.go:81-87 | the window of fixed rates between 0 and 6 lies in `0 <= Min <= Max <= 660` |
| Bounds.SmallSpikeRunBounded | forecast.go:466-496 | SmallSpike's adjusted spike windows that the generator reaches lie in `0 <= Min <= Max <= 660` |
| Bounds.RandomRunsBounded | forecast.go:123-243 | every slot of Random's five phases that the generator reaches lies in `0 <= Min <= Max <= 660` |
| Bounds.RandomWindowsBounded | forecast.go:123-243 | for a configuration passing the checks, every window Random computes before its first misfit, the misfit's included, lies in `0 <= Min <= Max <= 660` |
| Bounds.BigSpikeWindowsBounded | forecast.go:284-352 | for an accepted spike start, every window BigSpike computes before its first misfit, the misfit's included, lies in `0 <= Min <= Max <= 660` |
| Bounds.FallingWindowsBounded | forecast.go:383-406 | every window Falling computes before its first misfit, the misfit's included, lies in `0 <= Min <= Max <= 660` |
| Bounds.SmallSpikeWindowsBounded | forecast.go:437-526 | for an accepted spike start, every window SmallSpike computes before its first misfit, the misfit's included, lies in `0 <= Min <= Max <= 660` |
| Bounds.FitsReachesAll | forecast.go:128-139 | when every observation fits, the generator reaches every slot |
| Bounds.MatchBounded | forecast.go:128-139 | collapsing bounded windows to observed prices keeps them bounded |
| Bounds.RandomSpecBounded | forecast.go:92-246 | every Random pattern has twelve slots in `0 <= Min <= Max <= 660` |
| Bounds.BigSpikeSpecBounded | forecast.go:270-355 | every BigSpike pattern has twelve slots in `0 <= Min <= Max <= 660` |
| Bounds.FallingSpecBounded | forecast.go:375-409 | the Falling pattern has twelve slots in `0 <= Min <= Max <= 660` |
| Bounds.SmallSpikeSpecBounded | forecast.go:427-529 | every SmallSpike pattern has twelve slots in `0 <= Min <= Max <= 660` |
| Bounds.AllPatternsBounded | forecast.go:549-556 | every pattern the forecast keeps has twelve slots in `0 <= Min <= Max <= 660` |
| Bounds.MergedBoundsExact | forecast.go:558-573 | over a non-empty list of bounded patterns, each merged slot is the tightest range holding every pattern's range, both ends attained, never `MaxUint32` or a spurious 0 |

## Left out

- The rest of the bot is not part of this model: Telegram handlers, persistence, the network
  client, charts, configuration loading, texts and `parseUint32`. Only `forecast.go` is modelled.
- Pattern probabilities and the previous-week input are left out. Other files call a
  three-argument `NewForecast` and read fields such as `Probabilities`, but the `Forecast`
  type and constructor in `forecast.go` have neither.
- IEEE-754 `float64` arithmetic is modelled with exact reals. Repeated `-= 0.1` drift and the
  rounding of products such as `0.9 * sellPrice` at boundary values are not captured.
- The `uint32` conversion of `math.Floor`/`math.Ceil` results is taken as exact. A generator
  converts slot `i`'s rate prices only once every earlier slot's observation fitted.
  `Bounds.RandomWindowsBounded` and its BigSpike, Falling and SmallSpike siblings show every
  such window lies in `[0, 660]`, so no conversion wraps or truncates a negative value.
  Configurations and spike starts that fail their checks compute no window.
- `minUint32` and `maxUint32` are not part of this model. They are taken to be the ordinary
  minimum and maximum of two values.
- The `fmt.Printf` of non-`ErrNoMatch` errors in the enumerators is output only. It is modelled
  as ignoring the error, and `Enumeration.EnumeratedErrorsAreNoMatch` shows that branch is never
  reached.
- Error texts are not modelled; constraint errors carry which check failed. SmallSpike's range
  message says "between 1 and 7", but its check, which the model follows, admits 0 to 7.
- Generator results are values: the engine's `*Pattern` pointers and the returned pointers to
  the slice and bounds array are modelled as a `Result`, a `seq` and an `Option`.
- The `Forecast` constructor requires an accepted sell price and observations and establishes
  `Forecast.Valid`. The unexported struct is built only by `NewForecast`, after those checks,
  and the decaying-run bounds rely on them.
