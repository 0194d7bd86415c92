/** The per-slot rule every generator applies: an observed price (0 = unknown) must lie in the
    slot's model window, and then the slot collapses to that price. */
module Slots {
  import opened Types

  /** Whether the observed price `b` is admitted by the model window `w`. */
  predicate Admits(w: DayPrice, b: int) {
    b == 0 || w.min <= b <= w.max
  }

  /** The slot's bound once the observation is taken into account. */
  function Collapse(w: DayPrice, b: int): DayPrice {
    if b == 0 then w else DayPrice(b, b)
  }

  predicate Fits(ws: seq<DayPrice>, buys: seq<int>)
    requires |ws| == |buys|
  {
    forall i :: 0 <= i < |ws| ==> Admits(ws[i], buys[i])
  }

  function Collapsed(ws: seq<DayPrice>, buys: seq<int>): (ps: seq<DayPrice>)
    requires |ws| == |buys|
    ensures |ps| == |ws|
  {
    seq(|ws|, i requires 0 <= i < |ws| => Collapse(ws[i], buys[i]))
  }

  /** The outcome of walking one configuration's model windows `ws` against the observations. */
  function Match(kind: PatternType, ws: seq<DayPrice>, buys: seq<int>): Result<Pattern>
    requires |ws| == |buys|
  {
    if Fits(ws, buys) then Ok(Pattern(kind, Collapsed(ws, buys))) else Err(ErrNoMatch)
  }

  /** A pattern iff every observed price lies in its slot's window, with every observed slot
      collapsed to its price and every other slot keeping its window; otherwise no match and no
      partial pattern. */
  lemma MatchExact(kind: PatternType, ws: seq<DayPrice>, buys: seq<int>)
    requires |ws| == |buys|
    ensures var r := Match(kind, ws, buys);
      && (r.Ok? <==> forall i :: 0 <= i < |ws| && buys[i] != 0 ==> ws[i].min <= buys[i] <= ws[i].max)
      && (r.Err? ==> r.error == ErrNoMatch)
      && (r.Ok? ==> r.value.kind == kind && |r.value.prices| == |ws|)
      && (r.Ok? ==> forall i :: 0 <= i < |ws| && buys[i] != 0 ==> r.value.prices[i] == DayPrice(buys[i], buys[i]))
      && (r.Ok? ==> forall i :: 0 <= i < |ws| && buys[i] == 0 ==> r.value.prices[i] == ws[i])
  {
  }

  predicate Ordered(p: DayPrice) {
    p.min <= p.max
  }

  /** A matched pattern has `Min <= Max` in every slot as soon as every unobserved slot's window
      is ordered (observed slots collapse to a single price). */
  lemma MatchOrdered(kind: PatternType, ws: seq<DayPrice>, buys: seq<int>)
    requires |ws| == |buys|
    requires forall i :: 0 <= i < |ws| && buys[i] == 0 ==> Ordered(ws[i])
    ensures Match(kind, ws, buys).Ok? ==>
      forall i :: 0 <= i < |ws| ==> Ordered(Match(kind, ws, buys).value.prices[i])
  {
  }

  /** With no observation at all, every configuration matches and keeps its windows. */
  lemma MatchNoObservations(kind: PatternType, ws: seq<DayPrice>, buys: seq<int>)
    requires |ws| == |buys|
    requires forall i :: 0 <= i < |buys| ==> buys[i] == 0
    ensures Match(kind, ws, buys) == Ok(Pattern(kind, ws))
  {
    assert Collapsed(ws, buys) == ws;
  }
}
