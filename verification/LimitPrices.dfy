/** Limit orders and their limits: when the rounded price at which one is filled lies past it. */
module LimitPrices {
  import opened Basics
  import opened Rounding
  import opened Accounts
  import opened Desk
  import opened Engine
  import opened Runs
  import opened PriceHistory
  import opened OrderOutcomes

  /** Worse than the limit. */
  predicate Past(side: Side, price: real, limit: real) { if side == Buy then price > limit else price < limit }

  // ---------------------------------------------------------------- rounding past a limit

  /** Ticks to the dollar, at this price. */
  function Unit(price: real): real { if price >= 1.0 then 100.0 else 100000000.0 }

  /** The first whole number past `y`. */
  function Beyond(side: Side, y: real): int { if side == Buy then y.Floor + 1 else -((-y).Floor) - 1 }

  /** `y` lies past the middle between `m` and its neighbour before it, or on it with `m` even. */
  predicate RoundsAsFar(side: Side, y: real, m: int)
  {
    || Past(side, y, if side == Buy then m as real - 0.5 else m as real + 0.5)
    || (y == (if side == Buy then m as real - 0.5 else m as real + 0.5) && m % 2 == 0)
  }

  lemma RoundsAsFarIff(side: Side, y: real, m: int)
    ensures RoundsAsFar(side, y, m) <==> if side == Buy then RoundHalfEven(y) >= m else RoundHalfEven(y) <= m
  {
    var f := y.Floor;
    assert RoundHalfEven(y) == f || RoundHalfEven(y) == f + 1;
    if m == f + 1 {
      assert y - f as real == y - (m as real - 1.0);
    } else if m == f {
      assert y - f as real == y - m as real;
    }
  }

  /** A price, before rounding, that rounds to a tick past the limit. */
  predicate RoundsPast(side: Side, price: real, limit: real)
  {
    RoundsAsFar(side, price * Unit(price), Beyond(side, limit * Unit(price)))
  }

  lemma RoundedPastIff(side: Side, price: real, limit: real)
    ensures Past(side, RoundPrice(price), limit) <==> RoundsPast(side, price, limit)
  {
    var u := Unit(price);
    RoundsAsFarIff(side, price * u, Beyond(side, limit * u));
    assert RoundPrice(price) == RoundHalfEven(price * u) as real / u;
  }

  // ---------------------------------------------------------------- immediate fills

  /** How far averaging moves the price of a large order. */
  function Excess(limit: real, quantity: Qty): real
  {
    if quantity <= TYPICAL_VOLUME then 0.0
    else limit * 0.001 * (1.0 - TYPICAL_VOLUME / quantity) * (1.0 - TYPICAL_VOLUME / quantity)
  }

  function Moved(side: Side, limit: real, excess: real): real { if side == Buy then limit + excess else limit - excess }

  lemma AveragedMoves(limit: real, side: Side, quantity: Qty)
    ensures Averaged(limit, side, quantity) == Moved(side, limit, Excess(limit, quantity))
  {
    var r := TYPICAL_VOLUME / quantity;
    if quantity > TYPICAL_VOLUME {
      assert 0.0 < r < 1.0;
      AverageOfMoved(limit, (1.0 - r) * 0.001, r);
    }
  }

  lemma AverageOfMoved(limit: real, c: real, r: real)
    ensures limit * r + limit * (1.0 + c) * (1.0 - r) == limit + limit * c * (1.0 - r)
    ensures limit * r + limit * (1.0 - c) * (1.0 - r) == limit - limit * c * (1.0 - r)
  {
  }

  /** An immediate fill is stored at a price past its limit if and only if the limit moved by the
      excess of the order's size rounds to a tick past the limit -- for every limit, on the tick
      grid or off it, and every size. */
  lemma ImmediateFillPastIff(limit: real, side: Side, quantity: Qty)
    ensures Past(side, RoundPrice(Averaged(limit, side, quantity)), limit)
       <==> RoundsPast(side, Moved(side, limit, Excess(limit, quantity)), limit)
  {
    AveragedMoves(limit, side, quantity);
    RoundedPastIff(side, Averaged(limit, side, quantity), limit);
  }

  /** Ticks to the dollar just past a limit on the grid: below one dollar, and for a sale at one
      dollar, they are the fine ones. */
  function UnitPast(side: Side, limit: real): (u: real)
    ensures u > 0.0
  {
    if limit > 1.0 || (limit == 1.0 && side == Buy) then 100.0 else 100000000.0
  }

  /** A limit in these ticks, and a distance from it. */
  function TicksOf(side: Side, limit: real): int { RoundHalfEven(limit * UnitPast(side, limit)) }

  function InTicks(side: Side, limit: real, distance: real): real { distance * UnitPast(side, limit) }

  /** For a limit on the grid: exactly if the excess is more than half a tick, or half a tick from
      an odd one.  So no order up to 500 units, and no slightly larger one, is moved past it. */
  lemma OnTickFillPastIff(limit: real, side: Side, quantity: Qty)
    requires limit > 0.0 && OnTick(limit)
    ensures var ticks := InTicks(side, limit, Excess(limit, quantity));
            Past(side, RoundPrice(Averaged(limit, side, quantity)), limit)
            <==> ticks > 0.5 || (ticks == 0.5 && TicksOf(side, limit) % 2 == 1)
    ensures Past(side, RoundPrice(Averaged(limit, side, quantity)), limit) ==> quantity > TYPICAL_VOLUME
  {
    ImmediateFillPastIff(limit, side, quantity);
    ExcessSign(limit, quantity);
    OnTickPastIff(limit, side, Excess(limit, quantity));
  }

  lemma ExcessSign(limit: real, quantity: Qty)
    requires limit > 0.0
    ensures 0.0 <= Excess(limit, quantity) < limit
  {
    if quantity > TYPICAL_VOLUME {
      var c := 1.0 - TYPICAL_VOLUME / quantity;
      assert 0.0 < c < 1.0;
      assert 0.0 < c * c < 1.0;
      assert Excess(limit, quantity) == limit * 0.001 * (c * c);
    }
  }

  lemma OnTickPastIff(limit: real, side: Side, excess: real)
    requires limit > 0.0 && OnTick(limit) && 0.0 <= excess < limit
    ensures var ticks := InTicks(side, limit, excess);
            RoundsPast(side, Moved(side, limit, excess), limit)
            <==> ticks > 0.5 || (ticks == 0.5 && TicksOf(side, limit) % 2 == 1)
  {
    hide RoundHalfEven, RoundsAsFar, Beyond, UnitPast, Unit, OnTick, Moved, RoundsPast, TicksOf;
    var u, v := UnitPast(side, limit), Unit(Moved(side, limit, excess));
    var n := OnGrid(limit, side);
    TicksRound(side, limit, n);
    if u == v {
      var t := excess * u;
      MovedTicks(side, limit, excess, u, n as real, t);
      RoundsPastInTicks(side, Moved(side, limit, excess), limit, Moved(side, n as real, t), n as real);
      FromWhole(side, n, t);
    } else if excess == 0.0 {
      UnmovedPrice(side, limit);
    } else {
      AcrossTheDollar(side, limit, excess);
    }
  }

  /** The number of ticks of a limit on the grid. */
  lemma OnGrid(limit: real, side: Side) returns (n: int)
    requires OnTick(limit)
    ensures limit * UnitPast(side, limit) == n as real
  {
    hide RoundHalfEven;
    n := if limit == 1.0 && side == Sell then 100000000 else RoundHalfEven(limit * Unit(limit));
  }

  lemma RoundsPastInTicks(side: Side, price: real, limit: real, priceTicks: real, limitTicks: real)
    requires priceTicks == price * Unit(price) && limitTicks == limit * Unit(price)
    ensures RoundsPast(side, price, limit) <==> RoundsAsFar(side, priceTicks, Beyond(side, limitTicks))
  {
  }

  lemma MovedTicks(side: Side, limit: real, excess: real, u: real, n: real, t: real)
    requires n == limit * u && t == excess * u
    ensures Moved(side, limit, excess) * u == Moved(side, n, t)
  {
  }

  lemma TicksRound(side: Side, limit: real, n: int)
    requires limit * UnitPast(side, limit) == n as real
    ensures TicksOf(side, limit) == n
  {
    RoundHalfEvenOfInt(n);
  }

  lemma UnmovedPrice(side: Side, limit: real)
    requires OnTick(limit)
    ensures !RoundsPast(side, Moved(side, limit, 0.0), limit)
  {
    hide RoundHalfEven;
    RoundedPastIff(side, limit, limit);
  }

  /** `t` away from the whole number `n`. */
  lemma FromWhole(side: Side, n: int, t: real)
    requires t >= 0.0
    ensures RoundsAsFar(side, Moved(side, n as real, t), Beyond(side, n as real))
       <==> t > 0.5 || (t == 0.5 && n % 2 == 1)
  {
    assert (n as real).Floor == n && (-(n as real)).Floor == -n;
  }

  /** Where the price crosses one dollar it has passed the limit by a whole tick. */
  lemma AcrossTheDollar(side: Side, limit: real, excess: real)
    requires limit > 0.0 && OnTick(limit) && 0.0 < excess < limit
    requires UnitPast(side, limit) != Unit(Moved(side, limit, excess))
    ensures InTicks(side, limit, excess) > 0.5 && RoundsPast(side, Moved(side, limit, excess), limit)
  {
    hide RoundHalfEven, OnTick;
    var n := OnGrid(limit, side);
    var price := Moved(side, limit, excess);
    if side == Buy {
      assert limit < 1.0 <= price && n <= 99999999;
      NextBelow(limit * 100.0);
    } else if limit > 1.0 {
      assert price < 1.0 && n >= 101;
    }
  }

  lemma NextBelow(y: real)
    requires y < 100.0
    ensures Beyond(Buy, y) <= 100
  {
  }

  /** More than 500 units, and not past the limit: the excess rounds away. */
  lemma LargeFillAtLimit()
    ensures RoundPrice(Averaged(100.0, Buy, 501.0)) == 100.0
  {
  }

  /** One unit, and past its limit: the limit is off the grid. */
  lemma SmallFillPastLimit()
    ensures RoundPrice(Averaged(100.006, Buy, 1.0)) == 100.01 && Past(Buy, 100.01, 100.006)
  {
  }

  /** The stored price of a limit order that fills when submitted. */
  lemma SubmittedFillPastIff(cfg: Config, initial: real, st: State, req: Request, mid: real, depth: bool)
    requires Good(initial, st) && Refuses(req).None? && PricedLimit(req)
    ensures var d := Submit(cfg, st, req, mid, depth).desk;
            && st.desk.next in d.orders
            && var p := d.orders[st.desk.next];
            p.status == Filled ==>
              (Past(req.side, p.filledPrice, req.price.value)
               <==> RoundsPast(req.side, Moved(req.side, req.price.value, Excess(req.price.value, req.quantity)),
                               req.price.value))
  {
    hide Good, Submit, Refuses, RoundsPast, Excess, Averaged, RoundPrice, Past;
    SubmissionFate(cfg, initial, st, req, mid, depth);
    if req.quantity > 0.0 { ImmediateFillPastIff(req.price.value, req.side, req.quantity); }
  }

  // ---------------------------------------------------------------- resting fills

  /** Rounding alone: the fraction of a tick by which the limit lies above the one below it. */
  function Fraction(limit: real): real { limit * Unit(limit) - (limit * Unit(limit)).Floor as real }

  /** The limit itself rounds past: up for a purchase, down for a sale. */
  predicate LimitRoundsPast(side: Side, limit: real)
  {
    var (f, odd) := (Fraction(limit), (limit * Unit(limit)).Floor % 2 == 1);
    if side == Buy then f > 0.5 || (f == 0.5 && odd) else 0.0 < f < 0.5 || (f == 0.5 && !odd)
  }

  lemma LimitRoundsPastIff(side: Side, limit: real)
    ensures Past(side, RoundPrice(limit), limit) <==> LimitRoundsPast(side, limit)
    ensures OnTick(limit) <==> Fraction(limit) == 0.0
  {
    RoundedPastIff(side, limit, limit);
    if OnTick(limit) {
      assert limit * Unit(limit) == RoundHalfEven(limit * Unit(limit)) as real;
    }
  }

  /** Over any run: a limit or stop-limit order that was resting and has filled did so in full at
      its limit rounded to the tick, which is the limit itself if and only if that is on the grid,
      and lies past it if and only if it rounds that way. */
  lemma RestingFillPrice(cfg: Config, initial: real, st: State, evs: seq<Event>, id: nat)
    requires Good(initial, st) && IsPending(st.desk, id) && !st.desk.orders[id].terms.Iceberg?
    requires LimitOf(st.desk.orders[id].terms).Some?
    ensures var (o, d) := (st.desk.orders[id], Run(cfg, st, evs).desk);
            var limit := LimitOf(o.terms).value;
            && id in d.orders
            && (d.orders[id].status == Filled ==>
                  && d.orders[id].filledPrice == RoundPrice(limit) && d.orders[id].filledQuantity == o.quantity
                  && (d.orders[id].filledPrice == limit <==> Fraction(limit) == 0.0)
                  && (Past(o.side, d.orders[id].filledPrice, limit) <==> LimitRoundsPast(o.side, limit)))
  {
    hide Good, Run, Quiet, Watched, RoundPrice, LimitRoundsPast, Fraction, Past;
    var o := st.desk.orders[id];
    RunFollows(cfg, initial, st, evs, id);
    LimitRoundsPastIff(o.side, LimitOf(o.terms).value);
  }
}
