/** The configurations each enumerator tries, in the order it tries them, the patterns that
    survive, and how the survivors of all four families are merged into per-slot bounds. */
module Enumeration {
  import opened Types
  import opened Slots
  import opened Phases
  import opened Windows

  // ---------------------------------------------------------------- configurations

  /** Random configurations with the given `dec1` and `inc1` and `inc3` in `[0, n)`. */
  function RandomConfigsFor(dec1: int, inc1: int, n: int): (cs: seq<RandomConfig>)
    requires 2 <= dec1 <= 3 && 0 <= inc1 <= 6 && 0 <= n <= 7 - inc1
    ensures |cs| == n
  {
    seq(n, inc3 requires 0 <= inc3 < n => RandomConfig(inc1, dec1, 7 - inc1 - inc3, 5 - dec1, inc3))
  }

  /** Random configurations with the given `dec1` and `inc1` in `[0, m)`. */
  function RandomConfigsDec(dec1: int, m: int): seq<RandomConfig>
    requires 2 <= dec1 <= 3 && 0 <= m <= 7
  {
    if m == 0 then [] else RandomConfigsDec(dec1, m - 1) + RandomConfigsFor(dec1, m - 1, 8 - m)
  }

  /** Random configurations with `dec1` in `[2, d)`. */
  function RandomConfigsUpTo(d: int): seq<RandomConfig>
    requires 2 <= d <= 4
  {
    if d == 2 then [] else RandomConfigsUpTo(d - 1) + RandomConfigsDec(d - 1, 7)
  }

  /** Every Random configuration the enumerator tries, in its loop order (`dec1`, then `inc1`,
      then `inc3`). */
  function RandomConfigs(): seq<RandomConfig> {
    RandomConfigsUpTo(4)
  }

  /** The spike starts `lo` up to but excluding `hi`, in increasing order. */
  function Starts(lo: int, hi: int): (ss: seq<U8>)
    requires 0 <= lo <= hi <= 0x100
    ensures |ss| == hi - lo && forall k :: 0 <= k < |ss| ==> ss[k] == lo + k
  {
    seq(hi - lo, k requires 0 <= k < hi - lo => lo + k)
  }

  /** BigSpike tries spike starts 1 through 7. */
  function BigSpikeStarts(): seq<U8> {
    Starts(1, 8)
  }

  /** SmallSpike tries spike starts 0 through 7. */
  function SmallSpikeStarts(): seq<U8> {
    Starts(0, 8)
  }

  // ---------------------------------------------------------------- outcomes

  function RandomResults(sellPrice: int, buys: seq<int>, cs: seq<RandomConfig>): (rs: seq<Result<Pattern>>)
    requires Inputs(sellPrice, buys)
    ensures |rs| == |cs|
  {
    seq(|cs|, k requires 0 <= k < |cs| => RandomSpec(sellPrice, buys, cs[k]))
  }

  function BigSpikeResults(sellPrice: int, buys: seq<int>, starts: seq<U8>): (rs: seq<Result<Pattern>>)
    requires Inputs(sellPrice, buys)
    ensures |rs| == |starts|
  {
    seq(|starts|, k requires 0 <= k < |starts| => BigSpikeSpec(sellPrice, buys, starts[k]))
  }

  function SmallSpikeResults(sellPrice: int, buys: seq<int>, starts: seq<U8>): (rs: seq<Result<Pattern>>)
    requires Inputs(sellPrice, buys)
    ensures |rs| == |starts|
  {
    seq(|starts|, k requires 0 <= k < |starts| => SmallSpikeSpec(sellPrice, buys, starts[k]))
  }

  /** The patterns of the successful outcomes, in order; failures are dropped. */
  function Survivors(rs: seq<Result<Pattern>>): (ps: seq<Pattern>)
    ensures |ps| <= |rs|
  {
    if rs == [] then []
    else
      var last := rs[|rs| - 1];
      Survivors(rs[..|rs| - 1]) + (if last.Ok? then [last.value] else [])
  }

  lemma {:induction false} SurvivorsAppend(a: seq<Result<Pattern>>, b: seq<Result<Pattern>>)
    ensures Survivors(a + b) == Survivors(a) + Survivors(b)
    decreases |b|
  {
    if b == [] {
      assert a + b == a;
    } else {
      var front := b[..|b| - 1];
      assert (a + b)[..|a + b| - 1] == a + front;
      SurvivorsAppend(a, front);
    }
  }

  /** When every outcome succeeds, nothing is dropped. */
  lemma {:induction false} SurvivorsAllOk(rs: seq<Result<Pattern>>)
    requires forall k :: 0 <= k < |rs| ==> rs[k].Ok?
    ensures |Survivors(rs)| == |rs|
    decreases |rs|
  {
    if rs != [] {
      SurvivorsAllOk(rs[..|rs| - 1]);
    }
  }

  /** Every survivor comes from a successful outcome. */
  lemma {:induction false} SurvivorsFrom(rs: seq<Result<Pattern>>)
    ensures forall p :: p in Survivors(rs) ==> Ok(p) in rs
    decreases |rs|
  {
    if rs != [] {
      var front := rs[..|rs| - 1];
      SurvivorsFrom(front);
      forall p | p in Survivors(rs)
        ensures Ok(p) in rs
      {
        if p in Survivors(front) {
          assert Ok(p) in front;
        }
      }
    }
  }

  /** Every successful outcome's pattern survives. */
  lemma {:induction false} SurvivorsKeepsOk(rs: seq<Result<Pattern>>, k: int)
    requires 0 <= k < |rs| && rs[k].Ok?
    ensures rs[k].value in Survivors(rs)
    decreases |rs|
  {
    var front := rs[..|rs| - 1];
    if k < |rs| - 1 {
      assert rs[k] == front[k];
      SurvivorsKeepsOk(front, k);
    }
  }

  /** A pattern survives exactly when some outcome produced it. */
  lemma SurvivorsExact(rs: seq<Result<Pattern>>)
    ensures forall p :: p in Survivors(rs) <==> Ok(p) in rs
  {
    SurvivorsFrom(rs);
    forall p | Ok(p) in rs
      ensures p in Survivors(rs)
    {
      var k :| 0 <= k < |rs| && rs[k] == Ok(p);
      SurvivorsKeepsOk(rs, k);
    }
  }

  function RandomPatterns(sellPrice: int, buys: seq<int>): seq<Pattern>
    requires Inputs(sellPrice, buys)
  {
    Survivors(RandomResults(sellPrice, buys, RandomConfigs()))
  }

  function BigSpikePatterns(sellPrice: int, buys: seq<int>): seq<Pattern>
    requires Inputs(sellPrice, buys)
  {
    Survivors(BigSpikeResults(sellPrice, buys, BigSpikeStarts()))
  }

  function FallingPatterns(sellPrice: int, buys: seq<int>): seq<Pattern>
    requires Inputs(sellPrice, buys)
  {
    Survivors([FallingSpec(sellPrice, buys)])
  }

  function SmallSpikePatterns(sellPrice: int, buys: seq<int>): seq<Pattern>
    requires Inputs(sellPrice, buys)
  {
    Survivors(SmallSpikeResults(sellPrice, buys, SmallSpikeStarts()))
  }

  /** All surviving patterns: Random, then BigSpike, then Falling, then SmallSpike. */
  function AllPatterns(sellPrice: int, buys: seq<int>): seq<Pattern>
    requires Inputs(sellPrice, buys)
  {
    RandomPatterns(sellPrice, buys) + BigSpikePatterns(sellPrice, buys)
      + FallingPatterns(sellPrice, buys) + SmallSpikePatterns(sellPrice, buys)
  }

  /** A pattern is among the outcomes exactly when some tried configuration produced it. */
  lemma RandomResultsExact(sellPrice: int, buys: seq<int>, cs: seq<RandomConfig>)
    requires Inputs(sellPrice, buys)
    ensures forall p :: Ok(p) in RandomResults(sellPrice, buys, cs) <==>
      exists c :: c in cs && RandomSpec(sellPrice, buys, c) == Ok(p)
  {
    var rs := RandomResults(sellPrice, buys, cs);
    forall p | exists c :: c in cs && RandomSpec(sellPrice, buys, c) == Ok(p)
      ensures Ok(p) in rs
    {
      var c :| c in cs && RandomSpec(sellPrice, buys, c) == Ok(p);
      var k :| 0 <= k < |cs| && cs[k] == c;
      assert rs[k] == Ok(p);
    }
  }

  /** Random keeps exactly the patterns some enumerated configuration produces. */
  lemma RandomPatternsExact(sellPrice: int, buys: seq<int>)
    requires Inputs(sellPrice, buys)
    ensures forall p :: p in RandomPatterns(sellPrice, buys) <==>
      exists c :: c in RandomConfigs() && RandomSpec(sellPrice, buys, c) == Ok(p)
  {
    SurvivorsExact(RandomResults(sellPrice, buys, RandomConfigs()));
    RandomResultsExact(sellPrice, buys, RandomConfigs());
  }

  /** A pattern is among the outcomes exactly when some tried spike start produced it. */
  lemma BigSpikeResultsExact(sellPrice: int, buys: seq<int>, ss: seq<U8>)
    requires Inputs(sellPrice, buys)
    ensures forall p :: Ok(p) in BigSpikeResults(sellPrice, buys, ss) <==>
      exists s :: s in ss && BigSpikeSpec(sellPrice, buys, s) == Ok(p)
  {
    var rs := BigSpikeResults(sellPrice, buys, ss);
    forall p | exists s :: s in ss && BigSpikeSpec(sellPrice, buys, s) == Ok(p)
      ensures Ok(p) in rs
    {
      var s :| s in ss && BigSpikeSpec(sellPrice, buys, s) == Ok(p);
      var k :| 0 <= k < |ss| && ss[k] == s;
      assert rs[k] == Ok(p);
    }
  }

  /** BigSpike keeps exactly the patterns some enumerated spike start produces. */
  lemma BigSpikePatternsExact(sellPrice: int, buys: seq<int>)
    requires Inputs(sellPrice, buys)
    ensures forall p :: p in BigSpikePatterns(sellPrice, buys) <==>
      exists s :: s in BigSpikeStarts() && BigSpikeSpec(sellPrice, buys, s) == Ok(p)
  {
    SurvivorsExact(BigSpikeResults(sellPrice, buys, BigSpikeStarts()));
    BigSpikeResultsExact(sellPrice, buys, BigSpikeStarts());
  }

  /** Falling keeps its pattern exactly when the generator succeeds. */
  lemma FallingPatternsExact(sellPrice: int, buys: seq<int>)
    requires Inputs(sellPrice, buys)
    ensures forall p :: p in FallingPatterns(sellPrice, buys) <==> FallingSpec(sellPrice, buys) == Ok(p)
  {
    SurvivorsExact([FallingSpec(sellPrice, buys)]);
  }

  /** A pattern is among the outcomes exactly when some tried spike start produced it. */
  lemma SmallSpikeResultsExact(sellPrice: int, buys: seq<int>, ss: seq<U8>)
    requires Inputs(sellPrice, buys)
    ensures forall p :: Ok(p) in SmallSpikeResults(sellPrice, buys, ss) <==>
      exists s :: s in ss && SmallSpikeSpec(sellPrice, buys, s) == Ok(p)
  {
    var rs := SmallSpikeResults(sellPrice, buys, ss);
    forall p | exists s :: s in ss && SmallSpikeSpec(sellPrice, buys, s) == Ok(p)
      ensures Ok(p) in rs
    {
      var s :| s in ss && SmallSpikeSpec(sellPrice, buys, s) == Ok(p);
      var k :| 0 <= k < |ss| && ss[k] == s;
      assert rs[k] == Ok(p);
    }
  }

  /** SmallSpike keeps exactly the patterns some enumerated spike start produces. */
  lemma SmallSpikePatternsExact(sellPrice: int, buys: seq<int>)
    requires Inputs(sellPrice, buys)
    ensures forall p :: p in SmallSpikePatterns(sellPrice, buys) <==>
      exists s :: s in SmallSpikeStarts() && SmallSpikeSpec(sellPrice, buys, s) == Ok(p)
  {
    SurvivorsExact(SmallSpikeResults(sellPrice, buys, SmallSpikeStarts()));
    SmallSpikeResultsExact(sellPrice, buys, SmallSpikeStarts());
  }

  /** Every generator outcome of the forecast, in the order the four enumerators run. */
  function AllResults(sellPrice: int, buys: seq<int>): seq<Result<Pattern>>
    requires Inputs(sellPrice, buys)
  {
    RandomResults(sellPrice, buys, RandomConfigs()) + BigSpikeResults(sellPrice, buys, BigSpikeStarts())
      + [FallingSpec(sellPrice, buys)] + SmallSpikeResults(sellPrice, buys, SmallSpikeStarts())
  }

  /** Concatenating the four families' lists keeps exactly the successes of all outcomes, in
      enumeration order. */
  lemma AllPatternsOfOutcomes(sellPrice: int, buys: seq<int>)
    requires Inputs(sellPrice, buys)
    ensures AllPatterns(sellPrice, buys) == Survivors(AllResults(sellPrice, buys))
  {
    var a := RandomResults(sellPrice, buys, RandomConfigs());
    var b := BigSpikeResults(sellPrice, buys, BigSpikeStarts());
    var c := [FallingSpec(sellPrice, buys)];
    var d := SmallSpikeResults(sellPrice, buys, SmallSpikeStarts());
    SurvivorsAppend(a, b);
    SurvivorsAppend(a + b, c);
    SurvivorsAppend(a + b + c, d);
  }

  // ---------------------------------------------------------------- enumeration facts

  /** Appending one outcome appends its pattern if it succeeded. */
  lemma SurvivorsSnoc(rs: seq<Result<Pattern>>, r: Result<Pattern>)
    ensures Survivors(rs + [r]) == Survivors(rs) + (if r.Ok? then [r.value] else [])
  {
    assert (rs + [r])[..|rs|] == rs;
  }

  lemma RandomResultsSnoc(sellPrice: int, buys: seq<int>, cs: seq<RandomConfig>, c: RandomConfig)
    requires Inputs(sellPrice, buys)
    ensures RandomResults(sellPrice, buys, cs + [c]) == RandomResults(sellPrice, buys, cs) + [RandomSpec(sellPrice, buys, c)]
  {
  }

  /** The BigSpike enumerator's next spike start adds its outcome. */
  lemma BigSpikeResultsNext(sellPrice: int, buys: seq<int>, s: int)
    requires Inputs(sellPrice, buys) && 1 <= s < 8
    ensures BigSpikeResults(sellPrice, buys, Starts(1, s + 1))
      == BigSpikeResults(sellPrice, buys, Starts(1, s)) + [BigSpikeSpec(sellPrice, buys, s)]
  {
    assert Starts(1, s + 1) == Starts(1, s) + [s];
  }

  /** The SmallSpike enumerator's next spike start adds its outcome. */
  lemma SmallSpikeResultsNext(sellPrice: int, buys: seq<int>, s: int)
    requires Inputs(sellPrice, buys) && 0 <= s < 8
    ensures SmallSpikeResults(sellPrice, buys, Starts(0, s + 1))
      == SmallSpikeResults(sellPrice, buys, Starts(0, s)) + [SmallSpikeSpec(sellPrice, buys, s)]
  {
    assert Starts(0, s + 1) == Starts(0, s) + [s];
  }

  /** The enumerator's inner loop adds one configuration to `RandomConfigsFor`. */
  lemma RandomConfigsForSnoc(prefix: seq<RandomConfig>, dec1: int, inc1: int, n: int)
    requires 2 <= dec1 <= 3 && 0 <= inc1 <= 6 && 0 <= n < 7 - inc1
    ensures prefix + RandomConfigsFor(dec1, inc1, n + 1)
      == prefix + RandomConfigsFor(dec1, inc1, n) + [RandomConfig(inc1, dec1, 7 - inc1 - n, 5 - dec1, n)]
  {
    var c := RandomConfig(inc1, dec1, 7 - inc1 - n, 5 - dec1, n);
    assert RandomConfigsFor(dec1, inc1, n + 1) == RandomConfigsFor(dec1, inc1, n) + [c];
  }

  /** The enumerator's middle loop: finishing `inc3` for one `inc1` completes that `inc1`. */
  lemma RandomConfigsDecNext(dec1: int, inc1: int)
    requires 2 <= dec1 <= 3 && 0 <= inc1 <= 6
    ensures RandomConfigsUpTo(dec1) + RandomConfigsDec(dec1, inc1) + RandomConfigsFor(dec1, inc1, 7 - inc1)
      == RandomConfigsUpTo(dec1) + RandomConfigsDec(dec1, inc1 + 1)
  {
  }

  /** Every Random configuration the enumerator tries passes every check of the generator. */
  lemma RandomConfigsWellFormed()
    ensures forall c :: c in RandomConfigs() ==> RandomCheck(c).None?
  {
    forall d, m, c | 2 <= d <= 3 && 0 <= m <= 7 && c in RandomConfigsDec(d, m)
      ensures RandomCheck(c).None?
    {
      RandomConfigsDecWellFormed(d, m, c);
    }
    assert RandomConfigs() == RandomConfigsDec(2, 7) + RandomConfigsDec(3, 7);
  }

  lemma {:induction false} RandomConfigsDecWellFormed(dec1: int, m: int, c: RandomConfig)
    requires 2 <= dec1 <= 3 && 0 <= m <= 7 && c in RandomConfigsDec(dec1, m)
    ensures RandomCheck(c).None?
  {
    if c in RandomConfigsDec(dec1, m - 1) {
      RandomConfigsDecWellFormed(dec1, m - 1, c);
    } else {
      var k :| 0 <= k < 8 - m && RandomConfigsFor(dec1, m - 1, 8 - m)[k] == c;
      RandomCheckExact(c);
    }
  }

  /** The enumerator tries 28 configurations for each of the two values of `dec1`. */
  lemma RandomConfigsCount()
    ensures |RandomConfigs()| == 56
  {
    RandomConfigsDecCount(2, 7);
    RandomConfigsDecCount(3, 7);
  }

  lemma {:induction false} RandomConfigsDecCount(dec1: int, m: int)
    requires 2 <= dec1 <= 3 && 0 <= m <= 7
    ensures 2 * |RandomConfigsDec(dec1, m)| == m * (15 - m)
  {
    if m > 0 {
      RandomConfigsDecCount(dec1, m - 1);
    }
  }

  /** Every spike start the BigSpike enumerator tries is accepted. */
  lemma BigSpikeStartsWellFormed()
    ensures |BigSpikeStarts()| == 7 && forall s :: s in BigSpikeStarts() ==> BigSpikeCheck(s).None?
  {
  }

  /** Every spike start the SmallSpike enumerator tries is accepted. */
  lemma SmallSpikeStartsWellFormed()
    ensures |SmallSpikeStarts()| == 8 && forall s :: s in SmallSpikeStarts() ==> SmallSpikeCheck(s).None?
  {
  }

  /** The enumerators only ever see `ErrNoMatch`: a configuration they try either matches or
      fails the observations, never a constraint. */
  lemma EnumeratedErrorsAreNoMatch(sellPrice: int, buys: seq<int>)
    requires Inputs(sellPrice, buys)
    ensures forall r :: r in RandomResults(sellPrice, buys, RandomConfigs()) ==> r.Ok? || r.error == ErrNoMatch
    ensures forall r :: r in BigSpikeResults(sellPrice, buys, BigSpikeStarts()) ==> r.Ok? || r.error == ErrNoMatch
    ensures FallingSpec(sellPrice, buys).Ok? || FallingSpec(sellPrice, buys).error == ErrNoMatch
    ensures forall r :: r in SmallSpikeResults(sellPrice, buys, SmallSpikeStarts()) ==> r.Ok? || r.error == ErrNoMatch
  {
    RandomConfigsWellFormed();
  }

  /** Each family yields at most one pattern per configuration tried. */
  lemma PatternCountBounds(sellPrice: int, buys: seq<int>)
    requires Inputs(sellPrice, buys)
    ensures |RandomPatterns(sellPrice, buys)| <= 56
    ensures |BigSpikePatterns(sellPrice, buys)| <= 7
    ensures |FallingPatterns(sellPrice, buys)| <= 1
    ensures |SmallSpikePatterns(sellPrice, buys)| <= 8
  {
    RandomConfigsCount();
  }

  /** No observed price at all. */
  predicate NoObservations(buys: seq<int>) {
    forall i :: 0 <= i < |buys| ==> buys[i] == 0
  }

  lemma RandomNoObservations(sellPrice: int, buys: seq<int>)
    requires Inputs(sellPrice, buys) && NoObservations(buys)
    ensures |RandomPatterns(sellPrice, buys)| == 56
  {
    RandomConfigsCount();
    RandomConfigsWellFormed();
    var rr := RandomResults(sellPrice, buys, RandomConfigs());
    forall k | 0 <= k < |rr|
      ensures rr[k].Ok?
    {
      assert RandomConfigs()[k] in RandomConfigs();
      MatchNoObservations(Random, RandomWindows(sellPrice, buys, RandomConfigs()[k]), buys);
    }
    SurvivorsAllOk(rr);
  }

  lemma BigSpikeNoObservations(sellPrice: int, buys: seq<int>)
    requires Inputs(sellPrice, buys) && NoObservations(buys)
    ensures |BigSpikePatterns(sellPrice, buys)| == 7
  {
    var br := BigSpikeResults(sellPrice, buys, BigSpikeStarts());
    forall k | 0 <= k < |br|
      ensures br[k].Ok?
    {
      MatchNoObservations(BigSpike, BigSpikeWindows(sellPrice, buys, BigSpikeStarts()[k]), buys);
    }
    SurvivorsAllOk(br);
  }

  lemma FallingNoObservations(sellPrice: int, buys: seq<int>)
    requires Inputs(sellPrice, buys) && NoObservations(buys)
    ensures |FallingPatterns(sellPrice, buys)| == 1
  {
    MatchNoObservations(Falling, FallingWindows(sellPrice, buys), buys);
    SurvivorsAllOk([FallingSpec(sellPrice, buys)]);
  }

  lemma SmallSpikeNoObservations(sellPrice: int, buys: seq<int>)
    requires Inputs(sellPrice, buys) && NoObservations(buys)
    ensures |SmallSpikePatterns(sellPrice, buys)| == 8
  {
    var sr := SmallSpikeResults(sellPrice, buys, SmallSpikeStarts());
    forall k | 0 <= k < |sr|
      ensures sr[k].Ok?
    {
      MatchNoObservations(SmallSpike, SmallSpikeWindows(sellPrice, buys, SmallSpikeStarts()[k]), buys);
    }
    SurvivorsAllOk(sr);
  }

  /** With no observed price, no configuration is rejected: 56 + 7 + 1 + 8 patterns. */
  lemma NoObservationsAllSurvive(sellPrice: int, buys: seq<int>)
    requires Inputs(sellPrice, buys) && NoObservations(buys)
    ensures |AllPatterns(sellPrice, buys)| == 72
  {
    RandomNoObservations(sellPrice, buys);
    BigSpikeNoObservations(sellPrice, buys);
    FallingNoObservations(sellPrice, buys);
    SmallSpikeNoObservations(sellPrice, buys);
  }

  // ---------------------------------------------------------------- merged bounds

  /** Every pattern has twelve slots. */
  predicate Shaped(ps: seq<Pattern>) {
    forall k :: 0 <= k < |ps| ==> |ps[k].prices| == Halfs
  }

  /** Slot `i`'s minimum folded over `ps`, from the `MaxUint32` the engine starts from. */
  function LowestMin(ps: seq<Pattern>, i: int): int
    requires Shaped(ps) && 0 <= i < Halfs
  {
    if ps == [] then MaxUint32
    else
      var m := LowestMin(ps[..|ps| - 1], i);
      var x := ps[|ps| - 1].prices[i].min;
      if x < m then x else m
  }

  /** Slot `i`'s maximum folded over `ps`, from the 0 the engine starts from. */
  function HighestMax(ps: seq<Pattern>, i: int): int
    requires Shaped(ps) && 0 <= i < Halfs
  {
    if ps == [] then 0
    else
      var m := HighestMax(ps[..|ps| - 1], i);
      var x := ps[|ps| - 1].prices[i].max;
      if x > m then x else m
  }

  /** The fold is the lowest of the minimums and `MaxUint32`: no larger than either, and equal
      to one of them. */
  lemma {:induction false} LowestMinIsMinimum(ps: seq<Pattern>, i: int)
    requires Shaped(ps) && 0 <= i < Halfs
    ensures LowestMin(ps, i) <= MaxUint32
    ensures forall k :: 0 <= k < |ps| ==> LowestMin(ps, i) <= ps[k].prices[i].min
    ensures LowestMin(ps, i) == MaxUint32 || exists k :: 0 <= k < |ps| && LowestMin(ps, i) == ps[k].prices[i].min
    decreases |ps|
  {
    if ps != [] {
      var front := ps[..|ps| - 1];
      LowestMinIsMinimum(front, i);
      forall k | 0 <= k < |front|
        ensures LowestMin(ps, i) <= ps[k].prices[i].min
      {
        assert ps[k] == front[k];
      }
      if LowestMin(ps, i) != MaxUint32 && LowestMin(ps, i) != ps[|ps| - 1].prices[i].min {
        var k :| 0 <= k < |front| && LowestMin(front, i) == front[k].prices[i].min;
        assert ps[k] == front[k];
      }
    }
  }

  /** The fold is the highest of the maximums and 0: no smaller than either, and equal to one of
      them. */
  lemma {:induction false} HighestMaxIsMaximum(ps: seq<Pattern>, i: int)
    requires Shaped(ps) && 0 <= i < Halfs
    ensures 0 <= HighestMax(ps, i)
    ensures forall k :: 0 <= k < |ps| ==> ps[k].prices[i].max <= HighestMax(ps, i)
    ensures HighestMax(ps, i) == 0 || exists k :: 0 <= k < |ps| && HighestMax(ps, i) == ps[k].prices[i].max
    decreases |ps|
  {
    if ps != [] {
      var front := ps[..|ps| - 1];
      HighestMaxIsMaximum(front, i);
      forall k | 0 <= k < |front|
        ensures ps[k].prices[i].max <= HighestMax(ps, i)
      {
        assert ps[k] == front[k];
      }
      if HighestMax(ps, i) != 0 && HighestMax(ps, i) != ps[|ps| - 1].prices[i].max {
        var k :| 0 <= k < |front| && HighestMax(front, i) == front[k].prices[i].max;
        assert ps[k] == front[k];
      }
    }
  }

  /** The per-slot bounds merged over all patterns. */
  function MergedBounds(ps: seq<Pattern>): (bs: seq<DayPrice>)
    requires Shaped(ps)
    ensures |bs| == Halfs
  {
    seq(Halfs, i requires 0 <= i < Halfs => DayPrice(LowestMin(ps, i), HighestMax(ps, i)))
  }

  /** Patterns of twelve slots survive as patterns of twelve slots. */
  lemma {:induction false} SurvivorsShaped(rs: seq<Result<Pattern>>)
    requires forall k :: 0 <= k < |rs| && rs[k].Ok? ==> |rs[k].value.prices| == Halfs
    ensures Shaped(Survivors(rs))
    decreases |rs|
  {
    if rs != [] {
      SurvivorsShaped(rs[..|rs| - 1]);
    }
  }

  /** Every generator's pattern has its twelve slots. */
  lemma SpecsShaped(sellPrice: int, buys: seq<int>)
    requires Inputs(sellPrice, buys)
    ensures forall c :: RandomSpec(sellPrice, buys, c).Ok? ==> |RandomSpec(sellPrice, buys, c).value.prices| == Halfs
    ensures forall s :: BigSpikeSpec(sellPrice, buys, s).Ok? ==> |BigSpikeSpec(sellPrice, buys, s).value.prices| == Halfs
    ensures FallingSpec(sellPrice, buys).Ok? ==> |FallingSpec(sellPrice, buys).value.prices| == Halfs
    ensures forall s :: SmallSpikeSpec(sellPrice, buys, s).Ok? ==> |SmallSpikeSpec(sellPrice, buys, s).value.prices| == Halfs
  {
  }

  lemma FamiliesShaped(sellPrice: int, buys: seq<int>)
    requires Inputs(sellPrice, buys)
    ensures Shaped(RandomPatterns(sellPrice, buys)) && Shaped(BigSpikePatterns(sellPrice, buys))
    ensures Shaped(FallingPatterns(sellPrice, buys)) && Shaped(SmallSpikePatterns(sellPrice, buys))
  {
    SpecsShaped(sellPrice, buys);
    SurvivorsShaped(RandomResults(sellPrice, buys, RandomConfigs()));
    SurvivorsShaped(BigSpikeResults(sellPrice, buys, BigSpikeStarts()));
    SurvivorsShaped([FallingSpec(sellPrice, buys)]);
    SurvivorsShaped(SmallSpikeResults(sellPrice, buys, SmallSpikeStarts()));
  }

  /** Every surviving pattern has its twelve slots. */
  lemma AllPatternsShaped(sellPrice: int, buys: seq<int>)
    requires Inputs(sellPrice, buys)
    ensures Shaped(AllPatterns(sellPrice, buys))
  {
    FamiliesShaped(sellPrice, buys);
    var rp := RandomPatterns(sellPrice, buys);
    var bp := BigSpikePatterns(sellPrice, buys);
    var fp := FallingPatterns(sellPrice, buys);
    var sp := SmallSpikePatterns(sellPrice, buys);
    ShapedConcat(rp, bp);
    ShapedConcat(rp + bp, fp);
    ShapedConcat(rp + bp + fp, sp);
  }

  lemma ShapedConcat(a: seq<Pattern>, b: seq<Pattern>)
    requires Shaped(a) && Shaped(b)
    ensures Shaped(a + b)
  {
  }
}
