/** The model window of every slot under each generator's configuration, in closed form, and
    the outcome each generator must produce for a configuration. */
module Windows {
  import opened Types
  import opened Rates
  import opened Slots
  import opened Phases

  /** A pair of rates: the lower one gives a slot's minimum, the upper one its maximum. */
  datatype RateWindow = RateWindow(lo: real, hi: real)

  /** Rates of the increase phases of Random. */
  const IncreaseRates := RateWindow(0.9, 1.4)
  /** Start and per-slot decay of the decrease phases of Random. */
  const RandomDecayStart := RateWindow(0.6, 0.8)
  const RandomDecayStep := RateWindow(0.1, 0.04)
  /** Start of the decreasing runs of BigSpike and Falling. */
  const HighDecayStart := RateWindow(0.85, 0.9)
  /** Rates of SmallSpike's runs and BigSpike's tail. */
  const LowRates := RateWindow(0.4, 0.9)
  /** Per-slot decay of the BigSpike, Falling and SmallSpike runs. */
  const SpikeDecayStep := RateWindow(0.05, 0.03)
  /** The five spike slots of BigSpike and SmallSpike. */
  const BigSpikeMins: seq<real> := [0.9, 1.4, 2.0, 1.4, 0.9]
  const BigSpikeMaxs: seq<real> := [1.4, 2.0, 6.0, 2.0, 1.4]
  const SmallSpikeMins: seq<real> := [0.9, 0.9, 1.4, 1.4, 1.4]
  const SmallSpikeMaxs: seq<real> := [1.4, 1.4, 2.0, 2.0, 2.0]

  /** Price window of a rate window. */
  function PriceWindow(sellPrice: int, w: RateWindow): DayPrice {
    DayPrice(MinRatePrice(sellPrice, w.lo), MaxRatePrice(sellPrice, w.hi))
  }

  /** A rate window multiplied by the sell price: the exact, unrounded prices. */
  function Scaled(sellPrice: int, w: RateWindow): RateWindow {
    RateWindow(w.lo * sellPrice as real, w.hi * sellPrice as real)
  }

  /** The rates a decaying run starting at slot `start` uses at slot `i`, multiplied by the sell
      price: the run starts from `init` and after each slot decays by `step` from that slot's
      rates, which are re-seeded from the observed price `b` (the rates `MinRate(b)` and
      `MaxRate(b)`, whose scaled values are `b - 0.5` and `b + 0.5`) when the slot is observed. */
  function RunPrices(sellPrice: int, buys: seq<int>, start: int, i: int, init: RateWindow, step: RateWindow): RateWindow
    requires 0 <= start <= i <= |buys|
    decreases i - start
  {
    if i == start then Scaled(sellPrice, init)
    else
      var prev :=
        if buys[i - 1] != 0 then RateWindow(buys[i - 1] as real - 0.5, buys[i - 1] as real + 0.5)
        else RunPrices(sellPrice, buys, start, i - 1, init, step);
      var d := Scaled(sellPrice, step);
      RateWindow(prev.lo - d.lo, prev.hi - d.hi)
  }

  /** Price window of slot `i` of a decaying run: the exact prices rounded outwards. */
  function DecayWindow(sellPrice: int, buys: seq<int>, start: int, i: int, init: RateWindow, step: RateWindow): DayPrice
    requires 0 <= start <= i <= |buys|
  {
    var p := RunPrices(sellPrice, buys, start, i, init, step);
    DayPrice(p.lo.Floor, Ceil(p.hi))
  }

  /** One slot of a decaying run, as the engine computes it on rates: if the running rates
      scale to the run's exact prices at slot `i`, the slot's window is the one of those rates. */
  lemma DecayWindowOfRates(sellPrice: int, buys: seq<int>, start: int, i: int, init: RateWindow, step: RateWindow, rates: RateWindow)
    requires 0 <= start <= i <= |buys|
    requires Scaled(sellPrice, rates) == RunPrices(sellPrice, buys, start, i, init, step)
    ensures DecayWindow(sellPrice, buys, start, i, init, step) == PriceWindow(sellPrice, rates)
  {
  }

  /** Scaling commutes with the decay step. */
  lemma ScaledDecay(sellPrice: int, cur: RateWindow, step: RateWindow)
    ensures Scaled(sellPrice, RateWindow(cur.lo - step.lo, cur.hi - step.hi))
      == RateWindow(Scaled(sellPrice, cur).lo - Scaled(sellPrice, step).lo, Scaled(sellPrice, cur).hi - Scaled(sellPrice, step).hi)
  {
    var s := sellPrice as real;
    assert (cur.lo - step.lo) * s == cur.lo * s - step.lo * s;
    assert (cur.hi - step.hi) * s == cur.hi * s - step.hi * s;
  }

  /** The re-seeded rates scale back to the observed price minus and plus one half. */
  lemma ScaledReseed(sellPrice: int, b: int)
    requires sellPrice > 0
    ensures Scaled(sellPrice, RateWindow(MinRate(sellPrice, b), MaxRate(sellPrice, b)))
      == RateWindow(b as real - 0.5, b as real + 0.5)
  {
  }

  /** Re-seeding the running rates from slot `i`'s observation (if any) and decaying them gives
      rates that scale to the run's exact prices at slot `i + 1`. */
  lemma DecayNext(sellPrice: int, buys: seq<int>, start: int, i: int, init: RateWindow, step: RateWindow, cur: RateWindow)
    requires 0 <= start <= i < |buys|
    requires buys[i] == 0 ==> Scaled(sellPrice, cur) == RunPrices(sellPrice, buys, start, i, init, step)
    requires buys[i] != 0 ==> Scaled(sellPrice, cur) == RateWindow(buys[i] as real - 0.5, buys[i] as real + 0.5)
    ensures Scaled(sellPrice, RateWindow(cur.lo - step.lo, cur.hi - step.hi)) == RunPrices(sellPrice, buys, start, i + 1, init, step)
  {
    ScaledDecay(sellPrice, cur, step);
  }

  /** Predicate shared by the window functions: a positive sell price and twelve observations. */
  predicate Inputs(sellPrice: int, buys: seq<int>) {
    sellPrice > 0 && |buys| == Halfs
  }

  /** The inputs a forecast can hold: a sell price in `[90, 110]` and twelve observed prices,
      each 0 (unknown) or at most 660. */
  predicate Accepted(sellPrice: int, buys: seq<int>) {
    90 <= sellPrice <= 110 && |buys| == Halfs && forall i :: 0 <= i < Halfs ==> 0 <= buys[i] <= 660
  }

  // ---------------------------------------------------------------- Random

  function RandomWindow(sellPrice: int, buys: seq<int>, c: RandomConfig, i: int): DayPrice
    requires Inputs(sellPrice, buys) && 0 <= i < Halfs
  {
    var ph := RandomPhases(c);
    if i < ph[0].hi then PriceWindow(sellPrice, IncreaseRates)
    else if i < ph[1].hi then DecayWindow(sellPrice, buys, ph[1].lo, i, RandomDecayStart, RandomDecayStep)
    else if i < ph[2].hi then PriceWindow(sellPrice, IncreaseRates)
    else if i < ph[3].hi then DecayWindow(sellPrice, buys, ph[3].lo, i, RandomDecayStart, RandomDecayStep)
    else PriceWindow(sellPrice, IncreaseRates)
  }

  function RandomWindows(sellPrice: int, buys: seq<int>, c: RandomConfig): (ws: seq<DayPrice>)
    requires Inputs(sellPrice, buys)
    ensures |ws| == Halfs
  {
    seq(Halfs, i requires 0 <= i < Halfs => RandomWindow(sellPrice, buys, c, i))
  }

  /** Slots `[lo, hi)` of `ws` all have the window of the fixed rates `rates`. */
  predicate StaticRun(sellPrice: int, ws: seq<DayPrice>, lo: int, hi: int, rates: RateWindow) {
    0 <= lo <= hi <= |ws| && forall i :: lo <= i < hi ==> ws[i] == PriceWindow(sellPrice, rates)
  }

  /** Slots `[lo, hi)` of `ws` are a decaying run starting at `lo` from `init` by `step`. */
  predicate DecayRun(sellPrice: int, buys: seq<int>, ws: seq<DayPrice>, lo: int, hi: int, init: RateWindow, step: RateWindow) {
    0 <= lo <= hi <= |ws| && hi <= |buys| &&
    forall i :: lo <= i < hi ==> ws[i] == DecayWindow(sellPrice, buys, lo, i, init, step)
  }

  /** Slots `[lo, lo + |mins|)` of `ws` have the windows of the rate tables `mins` and `maxs`,
      one entry per slot. */
  predicate TableRun(sellPrice: int, ws: seq<DayPrice>, lo: int, mins: seq<real>, maxs: seq<real>) {
    0 <= lo && lo + |mins| <= |ws| && |maxs| == |mins| &&
    forall i :: lo <= i < lo + |mins| ==> ws[i] == PriceWindow(sellPrice, RateWindow(mins[i - lo], maxs[i - lo]))
  }

  /** Which window each slot of a well-formed Random configuration gets, phase by phase. */
  lemma RandomWindowsByPhase(sellPrice: int, buys: seq<int>, c: RandomConfig)
    requires Inputs(sellPrice, buys) && c.inc1 + c.dec1 + c.inc2 + c.dec2 + c.inc3 == Halfs
    ensures RandomRuns(sellPrice, buys, c, RandomWindows(sellPrice, buys, c))
  {
  }

  /** The phases of Random configuration `c` over the windows `ws`: fixed increase rates,
      a decaying run, fixed increase rates, a decaying run, fixed increase rates. */
  predicate RandomRuns(sellPrice: int, buys: seq<int>, c: RandomConfig, ws: seq<DayPrice>) {
    && StaticRun(sellPrice, ws, 0, c.inc1, IncreaseRates)
    && DecayRun(sellPrice, buys, ws, c.inc1, c.inc1 + c.dec1, RandomDecayStart, RandomDecayStep)
    && StaticRun(sellPrice, ws, c.inc1 + c.dec1, c.inc1 + c.dec1 + c.inc2, IncreaseRates)
    && DecayRun(sellPrice, buys, ws, c.inc1 + c.dec1 + c.inc2, c.inc1 + c.dec1 + c.inc2 + c.dec2,
                RandomDecayStart, RandomDecayStep)
    && StaticRun(sellPrice, ws, c.inc1 + c.dec1 + c.inc2 + c.dec2, Halfs, IncreaseRates)
  }

  /** What the Random generator returns for configuration `c`. */
  function RandomSpec(sellPrice: int, buys: seq<int>, c: RandomConfig): Result<Pattern>
    requires Inputs(sellPrice, buys)
  {
    match RandomCheck(c)
    case Some(k) => Err(ErrConstraint(k))
    case None => Match(Random, RandomWindows(sellPrice, buys, c), buys)
  }

  // ---------------------------------------------------------------- BigSpike

  function BigSpikeWindow(sellPrice: int, buys: seq<int>, spikeStart: int, i: int): DayPrice
    requires Inputs(sellPrice, buys) && 0 <= spikeStart && 0 <= i < Halfs
  {
    var ph := SpikePhases(spikeStart);
    if i < ph[0].hi then DecayWindow(sellPrice, buys, ph[0].lo, i, HighDecayStart, SpikeDecayStep)
    else if i < ph[1].hi then PriceWindow(sellPrice, RateWindow(BigSpikeMins[i - ph[1].lo], BigSpikeMaxs[i - ph[1].lo]))
    else PriceWindow(sellPrice, LowRates)
  }

  function BigSpikeWindows(sellPrice: int, buys: seq<int>, spikeStart: int): (ws: seq<DayPrice>)
    requires Inputs(sellPrice, buys) && 0 <= spikeStart
    ensures |ws| == Halfs
  {
    seq(Halfs, i requires 0 <= i < Halfs => BigSpikeWindow(sellPrice, buys, spikeStart, i))
  }

  /** Which window each slot gets for an accepted BigSpike spike start. */
  lemma BigSpikeWindowsByPhase(sellPrice: int, buys: seq<int>, spikeStart: int)
    requires Inputs(sellPrice, buys) && 1 <= spikeStart <= 7
    ensures var ws := BigSpikeWindows(sellPrice, buys, spikeStart);
      && DecayRun(sellPrice, buys, ws, 0, spikeStart, HighDecayStart, SpikeDecayStep)
      && TableRun(sellPrice, ws, spikeStart, BigSpikeMins, BigSpikeMaxs)
      && StaticRun(sellPrice, ws, spikeStart + 5, Halfs, LowRates)
  {
  }

  /** What the BigSpike generator returns for spike start `spikeStart`. */
  function BigSpikeSpec(sellPrice: int, buys: seq<int>, spikeStart: U8): Result<Pattern>
    requires Inputs(sellPrice, buys)
  {
    match BigSpikeCheck(spikeStart)
    case Some(k) => Err(ErrConstraint(k))
    case None => Match(BigSpike, BigSpikeWindows(sellPrice, buys, spikeStart), buys)
  }

  // ---------------------------------------------------------------- Falling

  function FallingWindows(sellPrice: int, buys: seq<int>): (ws: seq<DayPrice>)
    requires Inputs(sellPrice, buys)
    ensures |ws| == Halfs
  {
    var ph := FallingPhases();
    seq(Halfs, i requires 0 <= i < Halfs => DecayWindow(sellPrice, buys, ph[0].lo, i, HighDecayStart, SpikeDecayStep))
  }

  /** Falling is one decaying run over the whole week. */
  lemma FallingWindowsRun(sellPrice: int, buys: seq<int>)
    requires Inputs(sellPrice, buys)
    ensures DecayRun(sellPrice, buys, FallingWindows(sellPrice, buys), 0, Halfs, HighDecayStart, SpikeDecayStep)
  {
  }

  /** What the Falling generator returns. */
  function FallingSpec(sellPrice: int, buys: seq<int>): Result<Pattern>
    requires Inputs(sellPrice, buys)
  {
    Match(Falling, FallingWindows(sellPrice, buys), buys)
  }

  // ---------------------------------------------------------------- SmallSpike

  /** SmallSpike's windows: the third and fifth spike slots lose 1 from their maximum, and the
      fourth spike slot takes as minimum the third's minimum after its observation. */
  function SmallSpikeWindow(sellPrice: int, buys: seq<int>, spikeStart: int, i: int): DayPrice
    requires Inputs(sellPrice, buys) && 0 <= spikeStart && 0 <= i < Halfs
    decreases i
  {
    var ph := SpikePhases(spikeStart);
    if i < ph[0].hi then DecayWindow(sellPrice, buys, ph[0].lo, i, LowRates, SpikeDecayStep)
    else if i < ph[1].hi then
      var k := i - ph[1].lo;
      var lo :=
        if k == 3 then Collapse(SmallSpikeWindow(sellPrice, buys, spikeStart, i - 1), buys[i - 1]).min
        else MinRatePrice(sellPrice, SmallSpikeMins[k]);
      var hi := MaxRatePrice(sellPrice, SmallSpikeMaxs[k]) - (if k == 2 || k == 4 then 1 else 0);
      DayPrice(lo, hi)
    else DecayWindow(sellPrice, buys, ph[2].lo, i, LowRates, SpikeDecayStep)
  }

  function SmallSpikeWindows(sellPrice: int, buys: seq<int>, spikeStart: int): (ws: seq<DayPrice>)
    requires Inputs(sellPrice, buys) && 0 <= spikeStart
    ensures |ws| == Halfs
  {
    seq(Halfs, i requires 0 <= i < Halfs => SmallSpikeWindow(sellPrice, buys, spikeStart, i))
  }

  /** Slots `[spikeStart, spikeStart + 5)` of `ws` are SmallSpike's spike: two slots at rates
      `[0.9, 1.4]`, then three at `[1.4, 2.0]` where the first and last of those lose 1 from
      their maximum and the middle one, the peak, takes as minimum the previous slot's minimum
      after its observation. */
  predicate SmallSpikeRun(sellPrice: int, buys: seq<int>, ws: seq<DayPrice>, spikeStart: int) {
    var s := spikeStart;
    && Inputs(sellPrice, buys) && |ws| == Halfs && 0 <= s <= 7
    && ws[s] == DayPrice(MinRatePrice(sellPrice, 0.9), MaxRatePrice(sellPrice, 1.4))
    && ws[s + 1] == DayPrice(MinRatePrice(sellPrice, 0.9), MaxRatePrice(sellPrice, 1.4))
    && ws[s + 2] == DayPrice(MinRatePrice(sellPrice, 1.4), MaxRatePrice(sellPrice, 2.0) - 1)
    && ws[s + 3] == DayPrice(Collapse(ws[s + 2], buys[s + 2]).min, MaxRatePrice(sellPrice, 2.0))
    && ws[s + 4] == DayPrice(MinRatePrice(sellPrice, 1.4), MaxRatePrice(sellPrice, 2.0) - 1)
  }

  /** Which window each slot gets for an accepted SmallSpike spike start. */
  lemma SmallSpikeWindowsByPhase(sellPrice: int, buys: seq<int>, spikeStart: int)
    requires Inputs(sellPrice, buys) && 0 <= spikeStart <= 7
    ensures var ws := SmallSpikeWindows(sellPrice, buys, spikeStart);
      && DecayRun(sellPrice, buys, ws, 0, spikeStart, LowRates, SpikeDecayStep)
      && SmallSpikeRun(sellPrice, buys, ws, spikeStart)
      && DecayRun(sellPrice, buys, ws, spikeStart + 5, Halfs, LowRates, SpikeDecayStep)
  {
  }

  /** What the SmallSpike generator returns for spike start `spikeStart`. */
  function SmallSpikeSpec(sellPrice: int, buys: seq<int>, spikeStart: U8): Result<Pattern>
    requires Inputs(sellPrice, buys)
  {
    match SmallSpikeCheck(spikeStart)
    case Some(k) => Err(ErrConstraint(k))
    case None => Match(SmallSpike, SmallSpikeWindows(sellPrice, buys, spikeStart), buys)
  }
}
