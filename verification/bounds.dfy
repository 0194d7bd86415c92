/** Every window a generator computes is a sensible price range: its minimum is not negative,
    its minimum does not exceed its maximum, and its maximum does not exceed 660. A generator
    computes slot `i`'s window, converting the rate prices to `uint32`, only once every earlier
    slot's observation fitted, so these are exactly the windows covered below; being in
    `[0, 660]`, their conversions neither wrap nor truncate a negative value. Every slot of
    every pattern a generator returns is within the same bounds. */
module Bounds {
  import opened Types
  import opened Rates
  import opened Slots
  import opened Phases
  import opened Windows
  import opened Enumeration

  /** Every slot before `i` admits its observation: the generator reaches slot `i`. */
  predicate FitsBefore(ws: seq<DayPrice>, buys: seq<int>, i: int) {
    |ws| == |buys| && forall j :: 0 <= j < i && j < |ws| ==> Admits(ws[j], buys[j])
  }

  /** A slot's range is ordered and lies within `[0, 660]`. */
  predicate InBounds(p: DayPrice) {
    0 <= p.min <= p.max <= 660
  }

  // ---------------------------------------------------------------- decaying runs

  /** Scaling by a positive sell price keeps the order of a window's two rates. */
  lemma ScaledOrder(sellPrice: int, w: RateWindow)
    requires sellPrice > 0
    ensures w.lo <= w.hi ==> Scaled(sellPrice, w).lo <= Scaled(sellPrice, w).hi
    ensures w.hi <= w.lo ==> Scaled(sellPrice, w).hi <= Scaled(sellPrice, w).lo
    ensures 0.0 <= w.lo ==> 0.0 <= Scaled(sellPrice, w).lo
  {
    var s := sellPrice as real;
    if w.lo <= w.hi {
      MulMonotone(w.lo, w.hi, s);
    } else {
      MulMonotone(w.hi, w.lo, s);
    }
    if 0.0 <= w.lo {
      MulMonotone(0.0, w.lo, s);
    }
  }

  /** The lower price of a run never overtakes the upper one: both start ordered, re-seeding
      gives `b - 0.5 <= b + 0.5`, and the lower one decays at least as fast. */
  lemma {:induction false} RunPricesOrdered(sellPrice: int, buys: seq<int>, start: int, i: int, init: RateWindow, step: RateWindow)
    requires sellPrice > 0 && 0 <= start <= i <= |buys|
    requires init.lo <= init.hi && step.hi <= step.lo
    ensures RunPrices(sellPrice, buys, start, i, init, step).lo <= RunPrices(sellPrice, buys, start, i, init, step).hi
    decreases i - start
  {
    ScaledOrder(sellPrice, init);
    ScaledOrder(sellPrice, step);
    if i > start && buys[i - 1] == 0 {
      RunPricesOrdered(sellPrice, buys, start, i - 1, init, step);
    }
  }

  /** Every observed price of the run's slots `[start, i)` lies in its slot's window. */
  predicate RunAdmitted(sellPrice: int, buys: seq<int>, start: int, i: int, init: RateWindow, step: RateWindow)
    requires 0 <= start <= i <= |buys|
  {
    forall j :: start <= j < i ==> Admits(DecayWindow(sellPrice, buys, start, j, init, step), buys[j])
  }

  /** One slot of a run costs the lower price at most the decay plus 1.5 when the previous
      slot's observation was admitted: such an observation is at least the floor of the previous
      lower price, and its re-seed sits half a unit below it. */
  lemma RunPricesStepDown(sellPrice: int, buys: seq<int>, start: int, i: int, init: RateWindow, step: RateWindow)
    requires 0 <= start < i <= |buys|
    requires Admits(DecayWindow(sellPrice, buys, start, i - 1, init, step), buys[i - 1])
    ensures RunPrices(sellPrice, buys, start, i, init, step).lo
      >= RunPrices(sellPrice, buys, start, i - 1, init, step).lo - (Scaled(sellPrice, step).lo + 1.5)
  {
  }

  /** `k` copies of `x` added up: `k * x`, written so that each step stays linear. */
  function Times(k: nat, x: real): real {
    if k == 0 then 0.0 else Times(k - 1, x) + x
  }

  lemma {:induction false} TimesIsProduct(k: nat, x: real)
    ensures Times(k, x) == k as real * x
  {
    if k > 0 {
      TimesIsProduct(k - 1, x);
      assert k as real * x == (k - 1) as real * x + x;
    }
  }

  lemma {:induction false} TimesMonotone(k: nat, n: nat, x: real)
    requires k <= n && x >= 0.0
    ensures Times(k, x) <= Times(n, x)
    decreases n
  {
    if k < n {
      TimesMonotone(k, n - 1, x);
    }
  }

  /** When every observation so far was admitted, the lower price loses at most the decay plus
      1.5 per slot. */
  lemma {:induction false} RunPricesFloor(sellPrice: int, buys: seq<int>, start: int, i: int, init: RateWindow, step: RateWindow)
    requires 0 <= start <= i <= |buys|
    requires RunAdmitted(sellPrice, buys, start, i, init, step)
    ensures RunPrices(sellPrice, buys, start, i, init, step).lo
      >= Scaled(sellPrice, init).lo - Times(i - start, Scaled(sellPrice, step).lo + 1.5)
    decreases i - start
  {
    if i > start {
      assert RunAdmitted(sellPrice, buys, start, i - 1, init, step);
      RunPricesFloor(sellPrice, buys, start, i - 1, init, step);
      assert Admits(DecayWindow(sellPrice, buys, start, i - 1, init, step), buys[i - 1]);
      RunPricesStepDown(sellPrice, buys, start, i, init, step);
    }
  }

  /** With every observation at most 660, a run whose upper price starts at most 660 and decays
      by at least one half per slot stays at most 660. */
  lemma {:induction false} RunPricesCeiling(sellPrice: int, buys: seq<int>, start: int, i: int, init: RateWindow, step: RateWindow)
    requires 0 <= start <= i <= |buys|
    requires forall j :: 0 <= j < |buys| ==> buys[j] <= 660
    requires Scaled(sellPrice, init).hi <= 660.0 && Scaled(sellPrice, step).hi >= 0.5
    ensures RunPrices(sellPrice, buys, start, i, init, step).hi <= 660.0
    decreases i - start
  {
    if i > start && buys[i - 1] == 0 {
      RunPricesCeiling(sellPrice, buys, start, i - 1, init, step);
    }
  }

  /** The constants of a decaying run keep it within bounds for runs of at most `n + 1` slots:
      the rates are ordered, the lower one decays at least as fast, the lower price cannot lose
      all of its start in `n` slots even when each re-seed costs a further 1.5, the upper price
      starts at most at 660 and each slot takes at least one half off it. */
  predicate DecayBudget(sellPrice: int, init: RateWindow, step: RateWindow, n: nat) {
    && init.lo <= init.hi && 0.0 <= step.hi <= step.lo
    && Scaled(sellPrice, init).lo - Times(n, Scaled(sellPrice, step).lo + 1.5) >= 0.0
    && Scaled(sellPrice, init).hi <= 660.0 && Scaled(sellPrice, step).hi >= 0.5
  }

  /** The engine's decaying runs fit their budgets at every accepted sell price: Random's runs
      have at most three slots, the high runs of BigSpike and Falling at most twelve, and the
      low runs of SmallSpike at most seven. */
  lemma DecayBudgets(sellPrice: int)
    requires 90 <= sellPrice <= 110
    ensures DecayBudget(sellPrice, RandomDecayStart, RandomDecayStep, 2)
    ensures DecayBudget(sellPrice, HighDecayStart, SpikeDecayStep, 11)
    ensures DecayBudget(sellPrice, LowRates, SpikeDecayStep, 6)
  {
    TimesIsProduct(2, 0.1 * sellPrice as real + 1.5);
    TimesIsProduct(11, 0.05 * sellPrice as real + 1.5);
    TimesIsProduct(6, 0.05 * sellPrice as real + 1.5);
  }

  /** Slot `i` of a run within its budget is within bounds once the run's earlier observations
      were admitted. */
  lemma DecaySlotBounded(sellPrice: int, buys: seq<int>, start: int, i: int, init: RateWindow, step: RateWindow, n: nat)
    requires Accepted(sellPrice, buys) && 0 <= start <= i < Halfs && i - start <= n
    requires RunAdmitted(sellPrice, buys, start, i, init, step)
    requires DecayBudget(sellPrice, init, step, n)
    ensures InBounds(DecayWindow(sellPrice, buys, start, i, init, step))
  {
    ScaledOrder(sellPrice, step);
    RunPricesFloor(sellPrice, buys, start, i, init, step);
    TimesMonotone(i - start, n, Scaled(sellPrice, step).lo + 1.5);
    RunPricesOrdered(sellPrice, buys, start, i, init, step);
    RunPricesCeiling(sellPrice, buys, start, i, init, step);
  }

  /** Every slot of a decaying run within its budget that the generator reaches is within
      bounds. */
  lemma DecayRunBounded(sellPrice: int, buys: seq<int>, ws: seq<DayPrice>, lo: int, hi: int,
                        init: RateWindow, step: RateWindow, n: nat)
    requires Accepted(sellPrice, buys) && |ws| == Halfs
    requires DecayRun(sellPrice, buys, ws, lo, hi, init, step) && hi - lo <= n + 1
    requires DecayBudget(sellPrice, init, step, n)
    ensures forall i :: lo <= i < hi && FitsBefore(ws, buys, i) ==> InBounds(ws[i])
  {
    forall i | lo <= i < hi && FitsBefore(ws, buys, i)
      ensures InBounds(ws[i])
    {
      assert RunAdmitted(sellPrice, buys, lo, i, init, step) by {
        forall j | lo <= j < i
          ensures Admits(DecayWindow(sellPrice, buys, lo, j, init, step), buys[j])
        {
          assert Admits(ws[j], buys[j]);
        }
      }
      DecaySlotBounded(sellPrice, buys, lo, i, init, step, n);
    }
  }

  // ---------------------------------------------------------------- fixed rates

  /** The window of fixed rates between 0 and 6 is within bounds at any sell price up to 110. */
  lemma PriceWindowBounded(sellPrice: int, rates: RateWindow)
    requires 0 < sellPrice <= 110 && 0.0 <= rates.lo <= rates.hi <= 6.0
    ensures InBounds(PriceWindow(sellPrice, rates))
  {
    ScaledOrder(sellPrice, rates);
    ScaledOrder(sellPrice, RateWindow(rates.hi, 6.0));
    var x := Scaled(sellPrice, rates);
    assert 0.0 <= x.lo <= x.hi <= 660.0;
    assert PriceWindow(sellPrice, rates) == DayPrice(x.lo.Floor, Ceil(x.hi));
  }

  lemma StaticRunBounded(sellPrice: int, ws: seq<DayPrice>, lo: int, hi: int, rates: RateWindow)
    requires 0 < sellPrice <= 110 && 0.0 <= rates.lo <= rates.hi <= 6.0
    requires StaticRun(sellPrice, ws, lo, hi, rates)
    ensures forall i :: lo <= i < hi ==> InBounds(ws[i])
  {
    PriceWindowBounded(sellPrice, rates);
  }

  lemma TableRunBounded(sellPrice: int, ws: seq<DayPrice>, lo: int, mins: seq<real>, maxs: seq<real>)
    requires 0 < sellPrice <= 110
    requires TableRun(sellPrice, ws, lo, mins, maxs)
    requires forall k :: 0 <= k < |mins| ==> 0.0 <= mins[k] <= maxs[k] <= 6.0
    ensures forall i :: lo <= i < lo + |mins| ==> InBounds(ws[i])
  {
    forall i | lo <= i < lo + |mins|
      ensures InBounds(ws[i])
    {
      PriceWindowBounded(sellPrice, RateWindow(mins[i - lo], maxs[i - lo]));
    }
  }

  // ---------------------------------------------------------------- windows per generator

  /** Every slot of Random's five phases that the generator reaches is within bounds: its
      decaying runs have two or three slots. */
  lemma RandomRunsBounded(sellPrice: int, buys: seq<int>, c: RandomConfig, ws: seq<DayPrice>)
    requires Accepted(sellPrice, buys) && |ws| == Halfs
    requires c.inc1 + c.dec1 + c.inc2 + c.dec2 + c.inc3 == Halfs
    requires (c.dec1 == 2 || c.dec1 == 3) && c.dec2 == 5 - c.dec1
    requires RandomRuns(sellPrice, buys, c, ws)
    ensures forall i :: 0 <= i < Halfs && FitsBefore(ws, buys, i) ==> InBounds(ws[i])
  {
    DecayBudgets(sellPrice);
    var b := c.inc1 + c.dec1;
    var d := b + c.inc2;
    var e := d + c.dec2;
    StaticRunBounded(sellPrice, ws, 0, c.inc1, IncreaseRates);
    DecayRunBounded(sellPrice, buys, ws, c.inc1, b, RandomDecayStart, RandomDecayStep, 2);
    StaticRunBounded(sellPrice, ws, b, d, IncreaseRates);
    DecayRunBounded(sellPrice, buys, ws, d, e, RandomDecayStart, RandomDecayStep, 2);
    StaticRunBounded(sellPrice, ws, e, Halfs, IncreaseRates);
  }

  lemma RandomWindowsBounded(sellPrice: int, buys: seq<int>, c: RandomConfig)
    requires Accepted(sellPrice, buys) && RandomCheck(c).None?
    ensures forall i :: 0 <= i < Halfs && FitsBefore(RandomWindows(sellPrice, buys, c), buys, i) ==> InBounds(RandomWindows(sellPrice, buys, c)[i])
  {
    RandomCheckExact(c);
    RandomWindowsByPhase(sellPrice, buys, c);
    RandomRunsBounded(sellPrice, buys, c, RandomWindows(sellPrice, buys, c));
  }

  lemma BigSpikeWindowsBounded(sellPrice: int, buys: seq<int>, spikeStart: U8)
    requires Accepted(sellPrice, buys) && BigSpikeCheck(spikeStart).None?
    ensures forall i :: 0 <= i < Halfs && FitsBefore(BigSpikeWindows(sellPrice, buys, spikeStart), buys, i) ==> InBounds(BigSpikeWindows(sellPrice, buys, spikeStart)[i])
  {
    var ws := BigSpikeWindows(sellPrice, buys, spikeStart);
    BigSpikeWindowsByPhase(sellPrice, buys, spikeStart);
    DecayBudgets(sellPrice);
    DecayRunBounded(sellPrice, buys, ws, 0, spikeStart, HighDecayStart, SpikeDecayStep, 11);
    TableRunBounded(sellPrice, ws, spikeStart, BigSpikeMins, BigSpikeMaxs);
    StaticRunBounded(sellPrice, ws, spikeStart + 5, Halfs, LowRates);
  }

  lemma FallingWindowsBounded(sellPrice: int, buys: seq<int>)
    requires Accepted(sellPrice, buys)
    ensures forall i :: 0 <= i < Halfs && FitsBefore(FallingWindows(sellPrice, buys), buys, i) ==> InBounds(FallingWindows(sellPrice, buys)[i])
  {
    FallingWindowsRun(sellPrice, buys);
    DecayBudgets(sellPrice);
    DecayRunBounded(sellPrice, buys, FallingWindows(sellPrice, buys), 0, Halfs, HighDecayStart, SpikeDecayStep, 11);
  }

  /** SmallSpike's spike slots that the generator reaches are within bounds; the fourth slot's
      minimum is the third's collapsed minimum, which the third's admitted observation keeps at
      most at the third's maximum, one less than the fourth's. */
  lemma SmallSpikeRunBounded(sellPrice: int, buys: seq<int>, ws: seq<DayPrice>, spikeStart: int)
    requires Accepted(sellPrice, buys) && SmallSpikeRun(sellPrice, buys, ws, spikeStart)
    ensures forall i :: spikeStart <= i < spikeStart + 5 && FitsBefore(ws, buys, i) ==> InBounds(ws[i])
  {
    var s := spikeStart;
    assert 0 <= MinRatePrice(sellPrice, 0.9) <= MaxRatePrice(sellPrice, 1.4) <= 660;
    assert 0 <= MinRatePrice(sellPrice, 1.4) && MinRatePrice(sellPrice, 1.4) + 1 <= MaxRatePrice(sellPrice, 2.0) <= 660;
    if FitsBefore(ws, buys, s + 3) {
      assert Admits(ws[s + 2], buys[s + 2]);
    }
  }

  lemma SmallSpikeWindowsBounded(sellPrice: int, buys: seq<int>, spikeStart: U8)
    requires Accepted(sellPrice, buys) && SmallSpikeCheck(spikeStart).None?
    ensures forall i :: 0 <= i < Halfs && FitsBefore(SmallSpikeWindows(sellPrice, buys, spikeStart), buys, i) ==> InBounds(SmallSpikeWindows(sellPrice, buys, spikeStart)[i])
  {
    var ws := SmallSpikeWindows(sellPrice, buys, spikeStart);
    SmallSpikeWindowsByPhase(sellPrice, buys, spikeStart);
    DecayBudgets(sellPrice);
    DecayRunBounded(sellPrice, buys, ws, 0, spikeStart, LowRates, SpikeDecayStep, 6);
    SmallSpikeRunBounded(sellPrice, buys, ws, spikeStart);
    DecayRunBounded(sellPrice, buys, ws, spikeStart + 5, Halfs, LowRates, SpikeDecayStep, 6);
  }

  // ---------------------------------------------------------------- outcomes

  /** When every observation fits, the generator reaches every slot. */
  lemma FitsReachesAll(ws: seq<DayPrice>, buys: seq<int>)
    requires |ws| == |buys| && Fits(ws, buys)
    ensures forall i :: 0 <= i < |ws| ==> FitsBefore(ws, buys, i)
  {
  }

  /** Twelve slots, each within bounds. */
  predicate PatternBounded(p: Pattern) {
    |p.prices| == Halfs && forall i :: 0 <= i < Halfs ==> InBounds(p.prices[i])
  }

  /** A match of windows within bounds is within bounds: unobserved slots keep their windows and
      observed slots collapse to their price, which is at most 660. */
  lemma MatchBounded(kind: PatternType, ws: seq<DayPrice>, buys: seq<int>)
    requires |ws| == |buys| == Halfs && forall i :: 0 <= i < Halfs ==> 0 <= buys[i] <= 660
    requires forall i :: 0 <= i < Halfs ==> InBounds(ws[i])
    ensures Match(kind, ws, buys).Ok? ==> PatternBounded(Match(kind, ws, buys).value)
  {
    MatchExact(kind, ws, buys);
  }

  lemma RandomSpecBounded(sellPrice: int, buys: seq<int>, c: RandomConfig)
    requires Accepted(sellPrice, buys)
    ensures RandomSpec(sellPrice, buys, c).Ok? ==> PatternBounded(RandomSpec(sellPrice, buys, c).value)
  {
    var ws := RandomWindows(sellPrice, buys, c);
    if RandomCheck(c).None? && Fits(ws, buys) {
      RandomWindowsBounded(sellPrice, buys, c);
      FitsReachesAll(ws, buys);
      MatchBounded(Random, ws, buys);
    }
  }

  lemma BigSpikeSpecBounded(sellPrice: int, buys: seq<int>, spikeStart: U8)
    requires Accepted(sellPrice, buys)
    ensures BigSpikeSpec(sellPrice, buys, spikeStart).Ok? ==> PatternBounded(BigSpikeSpec(sellPrice, buys, spikeStart).value)
  {
    var ws := BigSpikeWindows(sellPrice, buys, spikeStart);
    if BigSpikeCheck(spikeStart).None? && Fits(ws, buys) {
      BigSpikeWindowsBounded(sellPrice, buys, spikeStart);
      FitsReachesAll(ws, buys);
      MatchBounded(BigSpike, ws, buys);
    }
  }

  lemma FallingSpecBounded(sellPrice: int, buys: seq<int>)
    requires Accepted(sellPrice, buys)
    ensures FallingSpec(sellPrice, buys).Ok? ==> PatternBounded(FallingSpec(sellPrice, buys).value)
  {
    var ws := FallingWindows(sellPrice, buys);
    if Fits(ws, buys) {
      FallingWindowsBounded(sellPrice, buys);
      FitsReachesAll(ws, buys);
      MatchBounded(Falling, ws, buys);
    }
  }

  lemma SmallSpikeSpecBounded(sellPrice: int, buys: seq<int>, spikeStart: U8)
    requires Accepted(sellPrice, buys)
    ensures SmallSpikeSpec(sellPrice, buys, spikeStart).Ok? ==> PatternBounded(SmallSpikeSpec(sellPrice, buys, spikeStart).value)
  {
    var ws := SmallSpikeWindows(sellPrice, buys, spikeStart);
    if SmallSpikeCheck(spikeStart).None? && Fits(ws, buys) {
      SmallSpikeWindowsBounded(sellPrice, buys, spikeStart);
      FitsReachesAll(ws, buys);
      MatchBounded(SmallSpike, ws, buys);
    }
  }

  // ---------------------------------------------------------------- the forecast

  lemma SurvivorsBounded(rs: seq<Result<Pattern>>)
    requires forall k :: 0 <= k < |rs| && rs[k].Ok? ==> PatternBounded(rs[k].value)
    ensures forall p :: p in Survivors(rs) ==> PatternBounded(p)
  {
    SurvivorsFrom(rs);
  }

  /** Every pattern the forecast keeps, of any family, is within bounds. */
  lemma AllPatternsBounded(sellPrice: int, buys: seq<int>)
    requires Accepted(sellPrice, buys)
    ensures forall p :: p in AllPatterns(sellPrice, buys) ==> PatternBounded(p)
  {
    var rr := RandomResults(sellPrice, buys, RandomConfigs());
    forall k | 0 <= k < |rr| && rr[k].Ok?
      ensures PatternBounded(rr[k].value)
    {
      RandomSpecBounded(sellPrice, buys, RandomConfigs()[k]);
    }
    SurvivorsBounded(rr);
    var br := BigSpikeResults(sellPrice, buys, BigSpikeStarts());
    forall k | 0 <= k < |br| && br[k].Ok?
      ensures PatternBounded(br[k].value)
    {
      BigSpikeSpecBounded(sellPrice, buys, BigSpikeStarts()[k]);
    }
    SurvivorsBounded(br);
    FallingSpecBounded(sellPrice, buys);
    SurvivorsBounded([FallingSpec(sellPrice, buys)]);
    var sr := SmallSpikeResults(sellPrice, buys, SmallSpikeStarts());
    forall k | 0 <= k < |sr| && sr[k].Ok?
      ensures PatternBounded(sr[k].value)
    {
      SmallSpikeSpecBounded(sellPrice, buys, SmallSpikeStarts()[k]);
    }
    SurvivorsBounded(sr);
  }

  /** Over a non-empty list of bounded patterns, each merged slot `i` is the tightest range
      holding every pattern's range for that slot: no pattern goes below its minimum or above
      its maximum, and some pattern reaches each. The `MaxUint32` and 0 the fold starts from
      never show through. */
  lemma MergedBoundsExact(ps: seq<Pattern>, i: int)
    requires ps != [] && forall k :: 0 <= k < |ps| ==> PatternBounded(ps[k])
    requires 0 <= i < Halfs
    ensures Shaped(ps)
    ensures InBounds(MergedBounds(ps)[i])
    ensures forall k :: 0 <= k < |ps| ==>
      MergedBounds(ps)[i].min <= ps[k].prices[i].min && ps[k].prices[i].max <= MergedBounds(ps)[i].max
    ensures exists k :: 0 <= k < |ps| && MergedBounds(ps)[i].min == ps[k].prices[i].min
    ensures exists k :: 0 <= k < |ps| && MergedBounds(ps)[i].max == ps[k].prices[i].max
  {
    LowestMinIsMinimum(ps, i);
    HighestMaxIsMaximum(ps, i);
    assert InBounds(ps[0].prices[i]);
    assert MergedBounds(ps)[i] == DayPrice(LowestMin(ps, i), HighestMax(ps, i));
    if HighestMax(ps, i) == 0 {
      assert HighestMax(ps, i) == ps[0].prices[i].max;
    }
  }
}
