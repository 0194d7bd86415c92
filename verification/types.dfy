/** Values shared by the forecasting engine: price windows, patterns and errors. */
module Types {

  /** Largest value of a 32-bit unsigned price. */
  const MaxUint32: int := 0xFFFF_FFFF

  /** Go's `uint8` and `uint32` parameter types. */
  type U8 = x: int | 0 <= x < 0x100
  type U32 = x: int | 0 <= x <= MaxUint32

  /** Number of half-day slots in a week. */
  const Halfs: int := 12

  /** The lower and upper bound on the price of one half-day slot. */
  datatype DayPrice = DayPrice(min: int, max: int)

  /** The four price-pattern families. */
  datatype PatternType = Random | BigSpike | Falling | SmallSpike

  /** One hypothesis about the twelve half-day prices. */
  datatype Pattern = Pattern(kind: PatternType, prices: seq<DayPrice>)

  /** The internal constraints a generator checks on its configuration before walking the slots. */
  datatype Constraint =
    | Inc1Range        // increase phase 1 longer than 6 half-days
    | Dec1Value        // decrease phase 1 neither 2 nor 3 half-days
    | Inc2Value        // increase phase 2 not 7 - inc1 - inc3 (uint8 arithmetic)
    | Dec2Value        // decrease phase 2 not 5 - dec1 (uint8 arithmetic)
    | Inc3Range        // increase phase 3 not below 7 - inc1
    | PhaseSum         // the five phases do not sum to 12 (uint8 arithmetic)
    | SpikeStartRange  // spike start outside the generator's range

  datatype Error =
    | ErrSellPrice               // sell price outside [90, 110]
    | ErrBuyPrice                // an observed price above 660
    | ErrNoMatch                 // an observed price outside its slot's window
    | ErrConstraint(c: Constraint)

  datatype Result<T> = Ok(value: T) | Err(error: Error)

  datatype Option<T> = None | Some(value: T)
}
