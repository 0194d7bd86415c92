/** Phase configurations of the generators, the constraint checks on them, and the half-day
    ranges their phases cover. */
module Phases {
  import opened Types

  /** Lengths, in half-days, of the Random pattern's five phases:
      increase, decrease, increase, decrease, increase. */
  datatype RandomConfig = RandomConfig(inc1: U8, dec1: U8, inc2: U8, dec2: U8, inc3: U8)

  /** The first constraint the Random generator finds violated, in the order it checks them,
      with its `uint8` subtractions and sum wrapping modulo 256. An accepted configuration has a
      non-empty second increase phase and phases summing to 12, so the final sum check never
      rejects anything the earlier checks let through. */
  function RandomCheck(c: RandomConfig): (r: Option<Constraint>)
    ensures r.None? ==> c.inc2 >= 1 && c.inc1 + c.dec1 + c.inc2 + c.dec2 + c.inc3 == 12
    ensures r != Some(PhaseSum)
  {
    if c.inc1 > 6 then Some(Inc1Range)
    else if c.dec1 != 2 && c.dec1 != 3 then Some(Dec1Value)
    else if (7 - c.inc1 - c.inc3) % 0x100 != c.inc2 then Some(Inc2Value)
    else if (5 - c.dec1) % 0x100 != c.dec2 then Some(Dec2Value)
    else if c.inc3 >= (7 - c.inc1) % 0x100 then Some(Inc3Range)
    else if (c.inc1 + c.dec1 + c.inc2 + c.dec2 + c.inc3) % 0x100 != 12 then Some(PhaseSum)
    else None
  }

  /** The configurations that pass every check are exactly those with `inc1 <= 6`,
      `dec1` in {2, 3}, `inc3 < 7 - inc1`, `inc2 == 7 - inc1 - inc3` and `dec2 == 5 - dec1`. */
  lemma RandomCheckExact(c: RandomConfig)
    ensures RandomCheck(c).None? <==>
      c.inc1 <= 6 && (c.dec1 == 2 || c.dec1 == 3) && c.inc3 < 7 - c.inc1 &&
      c.inc2 == 7 - c.inc1 - c.inc3 && c.dec2 == 5 - c.dec1
  {
    if c.inc1 <= 6 && (c.dec1 == 2 || c.dec1 == 3) {
      assert (5 - c.dec1) % 0x100 == 5 - c.dec1;
      assert (7 - c.inc1) % 0x100 == 7 - c.inc1;
      if c.inc3 < 7 - c.inc1 {
        assert (7 - c.inc1 - c.inc3) % 0x100 == 7 - c.inc1 - c.inc3;
      }
    }
  }

  /** BigSpike accepts spike starts 1 through 7. */
  function BigSpikeCheck(spikeStart: U8): (r: Option<Constraint>)
    ensures r.None? <==> 1 <= spikeStart <= 7
    ensures r.Some? ==> r.value == SpikeStartRange
  {
    if spikeStart < 1 || spikeStart > 7 then Some(SpikeStartRange) else None
  }

  /** SmallSpike accepts spike starts 0 through 7. */
  function SmallSpikeCheck(spikeStart: U8): (r: Option<Constraint>)
    ensures r.None? <==> 0 <= spikeStart <= 7
    ensures r.Some? ==> r.value == SpikeStartRange
  {
    if spikeStart > 7 then Some(SpikeStartRange) else None
  }

  /** The half-open range `[lo, hi)` of slots one phase fills. */
  datatype Span = Span(lo: int, hi: int)

  predicate InSpan(s: Span, i: int) {
    s.lo <= i < s.hi
  }

  /** The spans are non-empty in number, each well-formed, each starting where the previous one
      ends, and together they run from slot 0 to slot `n`. */
  predicate Tiles(spans: seq<Span>, n: int) {
    && |spans| > 0
    && spans[0].lo == 0
    && spans[|spans| - 1].hi == n
    && (forall k :: 0 <= k < |spans| ==> spans[k].lo <= spans[k].hi)
    && (forall k :: 0 <= k < |spans| - 1 ==> spans[k].hi == spans[k + 1].lo)
  }

  function RandomPhases(c: RandomConfig): seq<Span> {
    var a := c.inc1;
    var b := a + c.dec1;
    var d := b + c.inc2;
    var e := d + c.dec2;
    [Span(0, a), Span(a, b), Span(b, d), Span(d, e), Span(e, e + c.inc3)]
  }

  /** Decreasing run, five-slot spike, tail: shared by BigSpike and SmallSpike. */
  function SpikePhases(spikeStart: int): seq<Span> {
    [Span(0, spikeStart), Span(spikeStart, spikeStart + 5), Span(spikeStart + 5, 12)]
  }

  /** Falling is one decreasing run over the whole week. */
  function FallingPhases(): seq<Span> {
    [Span(0, 12)]
  }

  /** Some span holds slot `i`. */
  predicate Covered(spans: seq<Span>, i: int) {
    exists k :: 0 <= k < |spans| && InSpan(spans[k], i)
  }

  /** Tiling spans cover each slot of `[0, n)` exactly once. */
  lemma TilesPartition(spans: seq<Span>, n: int)
    requires Tiles(spans, n)
    ensures forall i :: 0 <= i < n ==> Covered(spans, i)
    ensures forall k1, k2, i ::
      (0 <= k1 < |spans| && 0 <= k2 < |spans| && InSpan(spans[k1], i) && InSpan(spans[k2], i))
      ==> k1 == k2
  {
    forall i | 0 <= i < n
      ensures Covered(spans, i)
    {
      var k := Cover(spans, n, i);
    }
    forall k1, k2, i |
      0 <= k1 < |spans| && 0 <= k2 < |spans| && InSpan(spans[k1], i) && InSpan(spans[k2], i)
      ensures k1 == k2
    {
      if k1 < k2 {
        SpansOrdered(spans, n, k1, k2);
      } else if k2 < k1 {
        SpansOrdered(spans, n, k2, k1);
      }
    }
  }

  lemma {:induction false} SpansOrdered(spans: seq<Span>, n: int, k1: int, k2: int)
    requires Tiles(spans, n)
    requires 0 <= k1 < k2 < |spans|
    ensures spans[k1].hi <= spans[k2].lo
    decreases k2 - k1
  {
    if k1 + 1 < k2 {
      SpansOrdered(spans, n, k1 + 1, k2);
    }
  }

  lemma {:induction false} Cover(spans: seq<Span>, n: int, i: int) returns (k: int)
    requires Tiles(spans, n)
    requires 0 <= i < n
    ensures 0 <= k < |spans| && InSpan(spans[k], i)
    decreases |spans|
  {
    var last := |spans| - 1;
    if spans[last].lo <= i {
      k := last;
    } else {
      var front := spans[..last];
      assert Tiles(front, spans[last - 1].hi);
      k := Cover(front, spans[last - 1].hi, i);
    }
  }

  /** A well-formed Random configuration's five phases tile the twelve slots. */
  lemma RandomPhasesTile(c: RandomConfig)
    requires RandomCheck(c).None?
    ensures Tiles(RandomPhases(c), Halfs)
  {
    RandomCheckExact(c);
  }

  /** Any spike start accepted by BigSpike or SmallSpike gives phases tiling the twelve slots. */
  lemma SpikePhasesTile(spikeStart: U8)
    requires SmallSpikeCheck(spikeStart).None? || BigSpikeCheck(spikeStart).None?
    ensures Tiles(SpikePhases(spikeStart), Halfs)
  {
  }

  /** Falling's single phase tiles the twelve slots. */
  lemma FallingPhasesTile()
    ensures Tiles(FallingPhases(), Halfs)
  {
  }
}
