/** Price ticks: Python's `round` (half to even) and the simulator's `round_price`,
    over exact reals. */
module Rounding {

  function RoundHalfEven(x: real): (n: int)
    ensures -0.5 <= n as real - x <= 0.5
  {
    var f := x.Floor;
    var d := x - f as real;
    if d < 0.5 then f
    else if d > 0.5 then f + 1
    else if f % 2 == 0 then f
    else f + 1
  }

  lemma RoundHalfEvenMonotone(x: real, y: real)
    requires x <= y
    ensures RoundHalfEven(x) <= RoundHalfEven(y)
  {
  }

  lemma RoundHalfEvenOfInt(n: int)
    ensures RoundHalfEven(n as real) == n
  {
  }

  function Round2(x: real): real { RoundHalfEven(x * 100.0) as real / 100.0 }
  function Round4(x: real): real { RoundHalfEven(x * 10000.0) as real / 10000.0 }
  function Round8(x: real): real { RoundHalfEven(x * 100000000.0) as real / 100000000.0 }

  /** Two decimals from one dollar up, eight below. */
  function RoundPrice(p: real): real
  {
    if p >= 1.0 then Round2(p) else Round8(p)
  }

  /** A price is on the tick grid when rounding leaves it alone. */
  predicate OnTick(p: real) { RoundPrice(p) == p }

  lemma Round2Facts(x: real, y: real)
    requires x <= y
    ensures Round2(x) <= Round2(y)
    ensures -0.005 <= Round2(x) - x <= 0.005
    ensures Round2(Round2(x)) == Round2(x)
  {
    RoundHalfEvenMonotone(x * 100.0, y * 100.0);
    RoundHalfEvenOfInt(RoundHalfEven(x * 100.0));
  }

  lemma Round4Sign(x: real)
    requires x >= 0.0
    ensures Round4(x) >= 0.0
  {
  }

  lemma Round8Facts(x: real, y: real)
    requires x <= y
    ensures Round8(x) <= Round8(y)
    ensures -0.000000005 <= Round8(x) - x <= 0.000000005
    ensures Round8(Round8(x)) == Round8(x)
  {
    RoundHalfEvenMonotone(x * 100000000.0, y * 100000000.0);
    RoundHalfEvenOfInt(RoundHalfEven(x * 100000000.0));
  }

  /** The two tick regimes meet at exactly one dollar, so the rounding is monotone
      across the boundary as well as inside each regime. */
  lemma RoundPriceMonotone(x: real, y: real)
    requires x <= y
    ensures RoundPrice(x) <= RoundPrice(y)
  {
    if x >= 1.0 {
      Round2Facts(x, y);
    } else if y < 1.0 {
      Round8Facts(x, y);
    } else {
      Round8Facts(x, 1.0);
      Round2Facts(1.0, y);
      RoundHalfEvenOfInt(100000000);
      RoundHalfEvenOfInt(100);
    }
  }

  lemma RoundPriceIdempotent(x: real)
    ensures OnTick(RoundPrice(x))
  {
  }

  /** At most half a tick: half a cent from one dollar up, half of 1e-8 below. */
  lemma RoundPriceError(x: real)
    ensures -0.005 <= RoundPrice(x) - x <= 0.005
    ensures x < 1.0 ==> -0.000000005 <= RoundPrice(x) - x <= 0.000000005
  {
  }

  /** Rounding cannot carry a price across a mark that is on the grid. */
  lemma RoundPriceKeepsSide(x: real, mark: real)
    requires OnTick(mark)
    ensures x >= mark ==> RoundPrice(x) >= mark
    ensures x <= mark ==> RoundPrice(x) <= mark
  {
    if x >= mark { RoundPriceMonotone(mark, x); }
    if x <= mark { RoundPriceMonotone(x, mark); }
  }
}
