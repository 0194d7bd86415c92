/** The forecasting engine: validation of the inputs, the four pattern generators, their
    enumerators and the merge of all surviving patterns into per-slot bounds. */
module Forecasting {
  import opened Types
  import opened Rates
  import opened Slots
  import opened Phases
  import opened Windows
  import opened Enumeration

  /** Builds a forecast after checking the sell price, then every observed price. */
  method NewForecast(sellPrice: U32, buyPrices: seq<U32>) returns (r: Result<Forecast>)
    requires |buyPrices| == Halfs
    ensures (sellPrice < 90 || sellPrice > 110) <==> r == Err(ErrSellPrice)
    ensures (90 <= sellPrice <= 110 && exists i :: 0 <= i < Halfs && buyPrices[i] > 660) <==> r == Err(ErrBuyPrice)
    ensures r.Ok? <==> 90 <= sellPrice <= 110 && forall i :: 0 <= i < Halfs ==> buyPrices[i] <= 660
    ensures r.Ok? ==> fresh(r.value) && r.value.sellPrice == sellPrice && r.value.buyPrices == buyPrices
    ensures r.Ok? ==> r.value.Valid()
  {
    if sellPrice < 90 || sellPrice > 110 {
      return Err(ErrSellPrice);
    }
    for i := 0 to Halfs
      invariant forall j :: 0 <= j < i ==> buyPrices[j] <= 660
    {
      if buyPrices[i] > 660 {
        return Err(ErrBuyPrice);
      }
    }
    var f := new Forecast(sellPrice, buyPrices);
    return Ok(f);
  }

  /** A week's sell price and its twelve observed half-day prices (0 = not known yet). */
  class Forecast {
    const sellPrice: int
    const buyPrices: seq<int>

    /** What `NewForecast` guarantees of every forecast it builds. */
    ghost predicate Valid() {
      Accepted(sellPrice, buyPrices)
    }

    constructor (sellPrice: int, buyPrices: seq<int>)
      requires Accepted(sellPrice, buyPrices)
      ensures this.sellPrice == sellPrice && this.buyPrices == buyPrices
      ensures Valid()
    {
      this.sellPrice := sellPrice;
      this.buyPrices := buyPrices;
    }

    /** Slots `[0, n)` of `prices` hold the collapsed windows `ws`, every one admitted. */
    ghost predicate Filled(prices: array<DayPrice>, ws: seq<DayPrice>, n: int)
      reads prices
      requires Valid() && prices.Length == Halfs && |ws| == Halfs && 0 <= n <= Halfs
    {
      forall i :: 0 <= i < n ==> Admits(ws[i], buyPrices[i]) && prices[i] == Collapse(ws[i], buyPrices[i])
    }

    /** A phase whose slots `[lo, hi)` all have the window of `rates`: each observed price is
        checked against the window and collapses its slot. Stops at the first mismatch. */
    method FillStatic(prices: array<DayPrice>, lo: int, hi: int, rates: RateWindow, ghost ws: seq<DayPrice>)
      returns (ok: bool)
      requires Valid() && prices.Length == Halfs && |ws| == Halfs && 0 <= lo <= hi <= Halfs
      requires StaticRun(sellPrice, ws, lo, hi, rates)
      requires Filled(prices, ws, lo)
      modifies prices
      ensures ok <==> forall j :: lo <= j < hi ==> Admits(ws[j], buyPrices[j])
      ensures ok ==> Filled(prices, ws, hi)
      ensures !ok ==> !Fits(ws, buyPrices)
      ensures forall j :: hi <= j < Halfs ==> prices[j] == old(prices[j])
    {
      for i := lo to hi
        invariant Filled(prices, ws, i)
        invariant forall j :: hi <= j < Halfs ==> prices[j] == old(prices[j])
      {
        var minPred := MinRatePrice(sellPrice, rates.lo);
        var maxPred := MaxRatePrice(sellPrice, rates.hi);
        if buyPrices[i] != 0 {
          if buyPrices[i] < minPred || buyPrices[i] > maxPred {
            assert !Admits(ws[i], buyPrices[i]);
            return false;
          }
          minPred := buyPrices[i];
          maxPred := buyPrices[i];
        }
        prices[i] := DayPrice(minPred, maxPred);
      }
      return true;
    }

    /** A decaying run over `[lo, hi)` whose slots have the windows of `DecayWindow`: the rates
        start at `init`, are re-seeded from each observed price and decay by `step` after every
        slot. Stops at the first mismatch. */
    method FillDecay(prices: array<DayPrice>, lo: int, hi: int, init: RateWindow, step: RateWindow, ghost ws: seq<DayPrice>)
      returns (ok: bool)
      requires Valid() && prices.Length == Halfs && |ws| == Halfs && 0 <= lo <= hi <= Halfs
      requires DecayRun(sellPrice, buyPrices, ws, lo, hi, init, step)
      requires Filled(prices, ws, lo)
      modifies prices
      ensures ok <==> forall j :: lo <= j < hi ==> Admits(ws[j], buyPrices[j])
      ensures ok ==> Filled(prices, ws, hi)
      ensures !ok ==> !Fits(ws, buyPrices)
      ensures forall j :: hi <= j < Halfs ==> prices[j] == old(prices[j])
    {
      var minRate := init.lo;
      var maxRate := init.hi;
      for i := lo to hi
        invariant Scaled(sellPrice, RateWindow(minRate, maxRate)) == RunPrices(sellPrice, buyPrices, lo, i, init, step)
        invariant Filled(prices, ws, i)
        invariant forall j :: hi <= j < Halfs ==> prices[j] == old(prices[j])
      {
        ok, minRate, maxRate := DecaySlot(prices, lo, i, init, step, ws, minRate, maxRate);
        if !ok {
          return false;
        }
      }
      return true;
    }

    /** One slot of a decaying run: its window comes from the running rates; an observed price
        must lie in it, collapses the slot and re-seeds the rates; the rates then decay. */
    method DecaySlot(prices: array<DayPrice>, lo: int, i: int, init: RateWindow, step: RateWindow,
                     ghost ws: seq<DayPrice>, minRate0: real, maxRate0: real)
      returns (ok: bool, minRate: real, maxRate: real)
      requires Valid() && prices.Length == Halfs && |ws| == Halfs && 0 <= lo <= i < Halfs
      requires ws[i] == DecayWindow(sellPrice, buyPrices, lo, i, init, step)
      requires Scaled(sellPrice, RateWindow(minRate0, maxRate0)) == RunPrices(sellPrice, buyPrices, lo, i, init, step)
      requires Filled(prices, ws, i)
      modifies prices
      ensures ok <==> Admits(ws[i], buyPrices[i])
      ensures ok ==> Filled(prices, ws, i + 1)
      ensures ok ==> Scaled(sellPrice, RateWindow(minRate, maxRate)) == RunPrices(sellPrice, buyPrices, lo, i + 1, init, step)
      ensures !ok ==> !Fits(ws, buyPrices)
      ensures forall j :: i < j < Halfs ==> prices[j] == old(prices[j])
    {
      minRate, maxRate := minRate0, maxRate0;
      DecayWindowOfRates(sellPrice, buyPrices, lo, i, init, step, RateWindow(minRate, maxRate));
      var minPred := MinRatePrice(sellPrice, minRate);
      var maxPred := MaxRatePrice(sellPrice, maxRate);
      if buyPrices[i] != 0 {
        if buyPrices[i] < minPred || buyPrices[i] > maxPred {
          assert !Admits(ws[i], buyPrices[i]);
          return false, minRate, maxRate;
        }
        minPred := buyPrices[i];
        maxPred := buyPrices[i];
        minRate := MinRate(sellPrice, buyPrices[i]);
        maxRate := MaxRate(sellPrice, buyPrices[i]);
        ScaledReseed(sellPrice, buyPrices[i]);
      }
      prices[i] := DayPrice(minPred, maxPred);
      DecayNext(sellPrice, buyPrices, lo, i, init, step, RateWindow(minRate, maxRate));
      minRate := minRate - step.lo;
      maxRate := maxRate - step.hi;
      ok := true;
    }

    /** Once every slot is filled, the array holds the pattern the model predicts. */
    lemma FilledMatch(prices: array<DayPrice>, ws: seq<DayPrice>, kind: PatternType)
      requires Valid() && prices.Length == Halfs && |ws| == Halfs
      requires Filled(prices, ws, Halfs)
      ensures Match(kind, ws, buyPrices) == Ok(Pattern(kind, prices[..]))
    {
      assert prices[..] == Collapsed(ws, buyPrices);
    }

    /** The Random pattern with the given phase lengths, or the first constraint they violate,
        or no match. */
    method GenRandomPattern(inc1Halfs: U8, dec1Halfs: U8, inc2Halfs: U8, dec2Halfs: U8, inc3Halfs: U8)
      returns (r: Result<Pattern>)
      requires Valid()
      ensures r == RandomSpec(sellPrice, buyPrices, RandomConfig(inc1Halfs, dec1Halfs, inc2Halfs, dec2Halfs, inc3Halfs))
    {
      if inc1Halfs > 6 {
        return Err(ErrConstraint(Inc1Range));
      }
      if dec1Halfs != 2 && dec1Halfs != 3 {
        return Err(ErrConstraint(Dec1Value));
      }
      if (7 - inc1Halfs - inc3Halfs) % 0x100 != inc2Halfs {
        return Err(ErrConstraint(Inc2Value));
      }
      if (5 - dec1Halfs) % 0x100 != dec2Halfs {
        return Err(ErrConstraint(Dec2Value));
      }
      if inc3Halfs >= (7 - inc1Halfs) % 0x100 {
        return Err(ErrConstraint(Inc3Range));
      }
      if (inc1Halfs + dec1Halfs + inc2Halfs + dec2Halfs + inc3Halfs) % 0x100 != 12 {
        return Err(ErrConstraint(PhaseSum));
      }
      var c := RandomConfig(inc1Halfs, dec1Halfs, inc2Halfs, dec2Halfs, inc3Halfs);
      RandomCheckExact(c);
      ghost var ws := RandomWindows(sellPrice, buyPrices, c);
      RandomWindowsByPhase(sellPrice, buyPrices, c);
      r := FillRandom(c, ws);
    }

    /** The five phases of a Random configuration that passed every check. */
    method FillRandom(c: RandomConfig, ghost ws: seq<DayPrice>) returns (r: Result<Pattern>)
      requires Valid() && |ws| == Halfs
      requires c.inc1 + c.dec1 + c.inc2 + c.dec2 + c.inc3 == Halfs
      requires RandomRuns(sellPrice, buyPrices, c, ws)
      ensures r == Match(Random, ws, buyPrices)
    {
      var inc1Halfs, dec1Halfs, inc2Halfs, dec2Halfs, inc3Halfs := c.inc1, c.dec1, c.inc2, c.dec2, c.inc3;
      var prices := new DayPrice[Halfs](_ => DayPrice(0, 0));

      // Increase phase 1
      var halfs := inc1Halfs;
      var ok := FillStatic(prices, halfs - inc1Halfs, halfs, IncreaseRates, ws);
      if !ok {
        return Err(ErrNoMatch);
      }

      // Decrease phase 1
      halfs := halfs + dec1Halfs;
      assert halfs - dec1Halfs == c.inc1 && halfs == c.inc1 + c.dec1;
      ok := FillDecay(prices, halfs - dec1Halfs, halfs, RandomDecayStart, RandomDecayStep, ws);
      if !ok {
        return Err(ErrNoMatch);
      }

      // Increase phase 2
      halfs := halfs + inc2Halfs;
      assert halfs - inc2Halfs == c.inc1 + c.dec1 && halfs == c.inc1 + c.dec1 + c.inc2;
      ok := FillStatic(prices, halfs - inc2Halfs, halfs, IncreaseRates, ws);
      if !ok {
        return Err(ErrNoMatch);
      }

      // Decrease phase 2
      halfs := halfs + dec2Halfs;
      assert halfs - dec2Halfs == c.inc1 + c.dec1 + c.inc2 && halfs == c.inc1 + c.dec1 + c.inc2 + c.dec2;
      ok := FillDecay(prices, halfs - dec2Halfs, halfs, RandomDecayStart, RandomDecayStep, ws);
      if !ok {
        return Err(ErrNoMatch);
      }

      // Increase phase 3
      halfs := halfs + inc3Halfs;
      assert halfs - inc3Halfs == c.inc1 + c.dec1 + c.inc2 + c.dec2 && halfs == Halfs;
      ok := FillStatic(prices, halfs - inc3Halfs, halfs, IncreaseRates, ws);
      if !ok {
        return Err(ErrNoMatch);
      }
      FilledMatch(prices, ws, Random);
      return Ok(Pattern(Random, prices[..]));
    }

    /** The five spike slots of BigSpike, each with its own pair of rates from the tables. */
    method FillTable(prices: array<DayPrice>, lo: int, mins: seq<real>, maxs: seq<real>, ghost ws: seq<DayPrice>)
      returns (ok: bool)
      requires Valid() && prices.Length == Halfs && |ws| == Halfs
      requires TableRun(sellPrice, ws, lo, mins, maxs)
      requires Filled(prices, ws, lo)
      modifies prices
      ensures ok <==> forall j :: lo <= j < lo + |mins| ==> Admits(ws[j], buyPrices[j])
      ensures ok ==> Filled(prices, ws, lo + |mins|)
      ensures !ok ==> !Fits(ws, buyPrices)
      ensures forall j :: lo + |mins| <= j < Halfs ==> prices[j] == old(prices[j])
    {
      for i := lo to lo + |mins|
        invariant Filled(prices, ws, i)
        invariant forall j :: lo + |mins| <= j < Halfs ==> prices[j] == old(prices[j])
      {
        var minPred := MinRatePrice(sellPrice, mins[i - lo]);
        var maxPred := MaxRatePrice(sellPrice, maxs[i - lo]);
        if buyPrices[i] != 0 {
          if buyPrices[i] < minPred || buyPrices[i] > maxPred {
            assert !Admits(ws[i], buyPrices[i]);
            return false;
          }
          minPred := buyPrices[i];
          maxPred := buyPrices[i];
        }
        prices[i] := DayPrice(minPred, maxPred);
      }
      return true;
    }

    /** The BigSpike pattern whose spike starts at `spikeStart`, or the violated constraint,
        or no match. */
    method GenBigSpikePattern(spikeStart: U8) returns (r: Result<Pattern>)
      requires Valid()
      ensures r == BigSpikeSpec(sellPrice, buyPrices, spikeStart)
    {
      if spikeStart < 1 || spikeStart > 7 {
        return Err(ErrConstraint(SpikeStartRange));
      }
      ghost var ws := BigSpikeWindows(sellPrice, buyPrices, spikeStart);
      BigSpikeWindowsByPhase(sellPrice, buyPrices, spikeStart);
      var prices := new DayPrice[Halfs](_ => DayPrice(0, 0));

      // Decrease phase
      var ok := FillDecay(prices, 0, spikeStart, HighDecayStart, SpikeDecayStep, ws);
      if !ok {
        return Err(ErrNoMatch);
      }

      // Sharp increase and sharp decrease
      ok := FillTable(prices, spikeStart, BigSpikeMins, BigSpikeMaxs, ws);
      if !ok {
        return Err(ErrNoMatch);
      }

      // Random decrease
      ok := FillStatic(prices, spikeStart + 5, Halfs, LowRates, ws);
      if !ok {
        return Err(ErrNoMatch);
      }
      FilledMatch(prices, ws, BigSpike);
      return Ok(Pattern(BigSpike, prices[..]));
    }

    /** The Falling pattern, or no match. */
    method GenFallingPattern() returns (r: Result<Pattern>)
      requires Valid()
      ensures r == FallingSpec(sellPrice, buyPrices)
    {
      ghost var ws := FallingWindows(sellPrice, buyPrices);
      FallingWindowsRun(sellPrice, buyPrices);
      var prices := new DayPrice[Halfs](_ => DayPrice(0, 0));
      var ok := FillDecay(prices, 0, Halfs, HighDecayStart, SpikeDecayStep, ws);
      if !ok {
        return Err(ErrNoMatch);
      }
      FilledMatch(prices, ws, Falling);
      return Ok(Pattern(Falling, prices[..]));
    }

    /** SmallSpike's five spike slots: the third and fifth lose 1 from their maximum, and the
        fourth takes as minimum the minimum just stored for the third. */
    method FillSmallSpike(prices: array<DayPrice>, spikeStart: int, ghost ws: seq<DayPrice>)
      returns (ok: bool)
      requires Valid() && prices.Length == Halfs
      requires SmallSpikeRun(sellPrice, buyPrices, ws, spikeStart)
      requires Filled(prices, ws, spikeStart)
      modifies prices
      ensures ok <==> forall j :: spikeStart <= j < spikeStart + 5 ==> Admits(ws[j], buyPrices[j])
      ensures ok ==> Filled(prices, ws, spikeStart + 5)
      ensures !ok ==> !Fits(ws, buyPrices)
      ensures forall j :: spikeStart + 5 <= j < Halfs ==> prices[j] == old(prices[j])
    {
      for i := spikeStart to spikeStart + 5
        invariant Filled(prices, ws, i)
        invariant forall j :: spikeStart + 5 <= j < Halfs ==> prices[j] == old(prices[j])
      {
        var minPred := MinRatePrice(sellPrice, SmallSpikeMins[i - spikeStart]);
        var maxPred := MaxRatePrice(sellPrice, SmallSpikeMaxs[i - spikeStart]);
        if i - spikeStart == 2 || i - spikeStart == 4 {
          maxPred := maxPred - 1;
        }
        if i - spikeStart == 3 {
          minPred := prices[i - 1].min;
        }
        if buyPrices[i] != 0 {
          if buyPrices[i] < minPred || buyPrices[i] > maxPred {
            assert !Admits(ws[i], buyPrices[i]);
            return false;
          }
          minPred := buyPrices[i];
          maxPred := buyPrices[i];
        }
        prices[i] := DayPrice(minPred, maxPred);
      }
      return true;
    }

    /** The SmallSpike pattern whose spike starts at `spikeStart`, or the violated constraint,
        or no match. */
    method GenSmallSpikePattern(spikeStart: U8) returns (r: Result<Pattern>)
      requires Valid()
      ensures r == SmallSpikeSpec(sellPrice, buyPrices, spikeStart)
    {
      if spikeStart > 7 {
        return Err(ErrConstraint(SpikeStartRange));
      }
      ghost var ws := SmallSpikeWindows(sellPrice, buyPrices, spikeStart);
      SmallSpikeWindowsByPhase(sellPrice, buyPrices, spikeStart);
      var prices := new DayPrice[Halfs](_ => DayPrice(0, 0));

      // Decrease phase 1
      var ok := FillDecay(prices, 0, spikeStart, LowRates, SpikeDecayStep, ws);
      if !ok {
        return Err(ErrNoMatch);
      }

      // Increase phase
      ok := FillSmallSpike(prices, spikeStart, ws);
      if !ok {
        return Err(ErrNoMatch);
      }

      // Decrease phase 2
      ok := FillDecay(prices, spikeStart + 5, Halfs, LowRates, SpikeDecayStep, ws);
      if !ok {
        return Err(ErrNoMatch);
      }
      FilledMatch(prices, ws, SmallSpike);
      return Ok(Pattern(SmallSpike, prices[..]));
    }

    /** Every Random pattern that matches, over all 56 configurations, in loop order. */
    method GenRandomPatterns() returns (patterns: seq<Pattern>)
      requires Valid()
      ensures patterns == RandomPatterns(sellPrice, buyPrices)
    {
      patterns := [];
      ghost var done: seq<RandomConfig> := [];
      for dec1: U8 := 2 to 4
        invariant done == RandomConfigsUpTo(dec1)
        invariant patterns == Survivors(RandomResults(sellPrice, buyPrices, done))
      {
        for inc1: U8 := 0 to 7
          invariant done == RandomConfigsUpTo(dec1) + RandomConfigsDec(dec1, inc1)
          invariant patterns == Survivors(RandomResults(sellPrice, buyPrices, done))
        {
          patterns := AddRandomPatterns(patterns, done, dec1, inc1);
          done := done + RandomConfigsFor(dec1, inc1, 7 - inc1);
          RandomConfigsDecNext(dec1, inc1);
        }
      }
    }

    /** The innermost loop of the Random enumeration: tries every `inc3` for the given `dec1`
        and `inc1`, after the configurations `done`. */
    method AddRandomPatterns(patterns: seq<Pattern>, ghost done: seq<RandomConfig>, dec1: U8, inc1: U8)
      returns (next: seq<Pattern>)
      requires Valid() && 2 <= dec1 <= 3 && inc1 <= 6
      requires patterns == Survivors(RandomResults(sellPrice, buyPrices, done))
      ensures next == Survivors(RandomResults(sellPrice, buyPrices, done + RandomConfigsFor(dec1, inc1, 7 - inc1)))
    {
      next := patterns;
      ghost var tried := done;
      assert done + RandomConfigsFor(dec1, inc1, 0) == done;
      for inc3: U8 := 0 to 7 - inc1
        invariant tried == done + RandomConfigsFor(dec1, inc1, inc3)
        invariant next == Survivors(RandomResults(sellPrice, buyPrices, tried))
      {
        var c := RandomConfig(inc1, dec1, 7 - inc1 - inc3, 5 - dec1, inc3);
        next := AddRandomPattern(next, tried, c);
        RandomConfigsForSnoc(done, dec1, inc1, inc3);
        tried := tried + [c];
      }
    }

    /** One step of the Random enumeration: tries configuration `c` after the configurations
        `done` and keeps its pattern if it matches. */
    method AddRandomPattern(patterns: seq<Pattern>, ghost done: seq<RandomConfig>, c: RandomConfig)
      returns (next: seq<Pattern>)
      requires Valid()
      requires patterns == Survivors(RandomResults(sellPrice, buyPrices, done))
      ensures next == Survivors(RandomResults(sellPrice, buyPrices, done + [c]))
    {
      var r := GenRandomPattern(c.inc1, c.dec1, c.inc2, c.dec2, c.inc3);
      RandomResultsSnoc(sellPrice, buyPrices, done, c);
      SurvivorsSnoc(RandomResults(sellPrice, buyPrices, done), r);
      next := patterns;
      if r.Ok? {
        next := patterns + [r.value];
      }
    }

    /** Every BigSpike pattern that matches, for spike starts 1 through 7. */
    method GenBigSpikePatterns() returns (patterns: seq<Pattern>)
      requires Valid()
      ensures patterns == BigSpikePatterns(sellPrice, buyPrices)
    {
      patterns := [];
      for spikeStart: U8 := 1 to 8
        invariant patterns == Survivors(BigSpikeResults(sellPrice, buyPrices, Starts(1, spikeStart)))
      {
        var r := GenBigSpikePattern(spikeStart);
        BigSpikeResultsNext(sellPrice, buyPrices, spikeStart);
        SurvivorsSnoc(BigSpikeResults(sellPrice, buyPrices, Starts(1, spikeStart)), r);
        if r.Ok? {
          patterns := patterns + [r.value];
        }
      }
    }

    /** The Falling pattern if it matches. */
    method GenFallingPatterns() returns (patterns: seq<Pattern>)
      requires Valid()
      ensures patterns == FallingPatterns(sellPrice, buyPrices)
    {
      patterns := [];
      var r := GenFallingPattern();
      SurvivorsSnoc([], r);
      if r.Ok? {
        patterns := patterns + [r.value];
      }
    }

    /** Every SmallSpike pattern that matches, for spike starts 0 through 7. */
    method GenSmallSpikePatterns() returns (patterns: seq<Pattern>)
      requires Valid()
      ensures patterns == SmallSpikePatterns(sellPrice, buyPrices)
    {
      patterns := [];
      for spikeStart: U8 := 0 to 8
        invariant patterns == Survivors(SmallSpikeResults(sellPrice, buyPrices, Starts(0, spikeStart)))
      {
        var r := GenSmallSpikePattern(spikeStart);
        SmallSpikeResultsNext(sellPrice, buyPrices, spikeStart);
        SurvivorsSnoc(SmallSpikeResults(sellPrice, buyPrices, Starts(0, spikeStart)), r);
        if r.Ok? {
          patterns := patterns + [r.value];
        }
      }
    }

    /** All matching patterns (Random, BigSpike, Falling, SmallSpike) and, unless there is none,
        each slot's lowest minimum and highest maximum over them. */
    method GenAllPatterns() returns (patterns: seq<Pattern>, maxMin: Option<seq<DayPrice>>)
      requires Valid()
      ensures patterns == AllPatterns(sellPrice, buyPrices)
      ensures maxMin.None? <==> patterns == []
      ensures maxMin.Some? ==> Shaped(patterns) && maxMin.value == MergedBounds(patterns)
    {
      patterns := [];
      var random := GenRandomPatterns();
      patterns := patterns + random;
      assert patterns == random;
      var bigSpike := GenBigSpikePatterns();
      patterns := patterns + bigSpike;
      var falling := GenFallingPatterns();
      patterns := patterns + falling;
      var smallSpike := GenSmallSpikePatterns();
      patterns := patterns + smallSpike;
      if |patterns| == 0 {
        return patterns, None;
      }
      AllPatternsShaped(sellPrice, buyPrices);
      var bounds := MergeBounds(patterns);
      return patterns, Some(bounds);
    }

    /** One pass of the merge loop: pattern `pat` lowers each slot's minimum and raises each
        slot's maximum. */
    method MergePattern(maxMin: array<DayPrice>, ghost done: seq<Pattern>, pat: Pattern)
      requires maxMin.Length == Halfs && Shaped(done) && |pat.prices| == Halfs
      requires forall j :: 0 <= j < Halfs ==> maxMin[j] == DayPrice(LowestMin(done, j), HighestMax(done, j))
      modifies maxMin
      ensures Shaped(done + [pat])
      ensures forall j :: 0 <= j < Halfs ==>
        maxMin[j] == DayPrice(LowestMin(done + [pat], j), HighestMax(done + [pat], j))
    {
      ghost var next := done + [pat];
      assert next[..|next| - 1] == done;
      for i := 0 to Halfs
        invariant forall j :: 0 <= j < i ==> maxMin[j] == DayPrice(LowestMin(next, j), HighestMax(next, j))
        invariant forall j :: i <= j < Halfs ==> maxMin[j] == DayPrice(LowestMin(done, j), HighestMax(done, j))
      {
        var p := pat.prices[i];
        var hi := if p.max > maxMin[i].max then p.max else maxMin[i].max;
        var lo := if p.min < maxMin[i].min then p.min else maxMin[i].min;
        maxMin[i] := DayPrice(lo, hi);
      }
    }

    /** The merge loop of `GenAllPatterns`: every minimum starts at `MaxUint32`, every maximum at
        0, and each pattern lowers the minimums and raises the maximums slot by slot. */
    method MergeBounds(patterns: seq<Pattern>) returns (bounds: seq<DayPrice>)
      requires Shaped(patterns)
      ensures bounds == MergedBounds(patterns)
    {
      var maxMin := new DayPrice[Halfs](_ => DayPrice(0, 0));
      for i := 0 to Halfs
        invariant forall j :: 0 <= j < i ==> maxMin[j] == DayPrice(MaxUint32, 0)
        invariant forall j :: i <= j < Halfs ==> maxMin[j] == DayPrice(0, 0)
      {
        maxMin[i] := maxMin[i].(min := MaxUint32);
      }
      for k := 0 to |patterns|
        invariant forall j :: 0 <= j < Halfs ==>
          maxMin[j] == DayPrice(LowestMin(patterns[..k], j), HighestMax(patterns[..k], j))
      {
        assert patterns[..k + 1] == patterns[..k] + [patterns[k]];
        MergePattern(maxMin, patterns[..k], patterns[k]);
      }
      assert patterns[..|patterns|] == patterns;
      bounds := maxMin[..];
    }
  }
}
