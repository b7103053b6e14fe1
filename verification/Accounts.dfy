/** One exchange account: cash, insurance fund, average-cost positions and the journal
    of everything posted to it.  The arithmetic is that of the position lifecycle and
    liquidation mixins, over exact reals. */
module Accounts {
  import opened Basics

  type Symbol = nat
  type Qty = q: real | q > 0.0 witness 1.0

  datatype Side = Buy | Sell

  function Signed(side: Side, quantity: real): real
  {
    if side == Buy then quantity else -quantity
  }

  datatype Position = Position(
    symbol: Symbol, side: Side, quantity: Qty, entry: real,
    stopLoss: real, takeProfit: real, margin: real)

  /** An executed trade as the account sees it: `price` is the rounded fill price,
      `margin` the amount locked for it (zero for a forced close). */
  datatype Fill = Fill(
    order: nat, symbol: Symbol, side: Side, quantity: Qty, price: real,
    fee: real, margin: real, stopLoss: Option<real>, takeProfit: Option<real>)

  datatype Entry = Traded(fill: Fill) | Funded(amount: real) | Covered(deficit: real)

  /** `journal` and `abandoned` are history: every posting in order, and the remainders
      of at most 1e-12 units that a closing fill leaves and the exchange forgets. */
  datatype Account = Account(
    balance: real, insurance: real, totalPnl: real, totalFees: real,
    totalTrades: nat, winningTrades: nat, positions: seq<Position>,
    journal: seq<Entry>, abandoned: seq<Position>)

  const DUST := 0.000000000001

  function Opened(initial: real): Account
  {
    Account(initial, 0.0, 0.0, 0.0, 0, 0, [], [], [])
  }

  // ---------------------------------------------------------------- position lifecycle

  /** Position of a symbol in the list, or the length of the list. */
  function IndexOf(ps: seq<Position>, s: Symbol): (i: nat)
    ensures i <= |ps|
    ensures i < |ps| ==> ps[i].symbol == s
    ensures forall j :: 0 <= j < i ==> ps[j].symbol != s
  {
    if ps == [] then 0
    else if ps[0].symbol == s then 0
    else 1 + IndexOf(ps[1..], s)
  }

  function Without(ps: seq<Position>, i: nat): seq<Position>
    requires i < |ps|
  {
    ps[..i] + ps[i + 1..]
  }

  function DefaultStop(side: Side, price: real): real
  {
    if side == Buy then price * 0.98 else price * 1.02
  }

  function DefaultTarget(side: Side, price: real): real
  {
    if side == Buy then price * 1.04 else price * 0.96
  }

  /** The part of a margin that goes with a part of a quantity. */
  function ShareOf(m: real, part: real, whole: Qty): real { m * (part / whole) }

  function NewPosition(f: Fill): Position
  {
    Position(f.symbol, f.side, f.quantity, f.price,
             if f.stopLoss.Some? then f.stopLoss.value else DefaultStop(f.side, f.price),
             if f.takeProfit.Some? then f.takeProfit.value else DefaultTarget(f.side, f.price),
             f.margin)
  }

  /** What is left of a fill after it closed a position of `closed` units. */
  function Residual(f: Fill, closed: Qty): Position
    requires f.quantity > closed
  {
    Position(f.symbol, f.side, f.quantity - closed, f.price,
             DefaultStop(f.side, f.price), DefaultTarget(f.side, f.price),
             f.margin - ShareOf(f.margin, closed, f.quantity))
  }

  /** A position after an opposite fill smaller than itself. */
  function Reduced(p: Position, f: Fill): Position
    requires f.quantity < p.quantity
  {
    p.(quantity := p.quantity - f.quantity, margin := p.margin - ShareOf(p.margin, f.quantity, p.quantity))
  }

  function AveragePrice(entry: real, quantity: Qty, price: real, more: Qty): real
  {
    (entry * quantity + price * more) / (quantity + more)
  }

  function Enlarged(p: Position, f: Fill): Position
  {
    p.(quantity := p.quantity + f.quantity,
       entry := AveragePrice(p.entry, p.quantity, f.price, f.quantity),
       margin := p.margin + f.margin)
  }

  function ClosePnl(side: Side, entry: real, price: real, closed: Qty): real
  {
    if side == Buy then (price - entry) * closed else (entry - price) * closed
  }

  function CloseAt(a: Account, i: nat, f: Fill): Account
    requires i < |a.positions|
  {
    var p := a.positions[i];
    var closed: Qty := Min(f.quantity, p.quantity);
    var pnl := ClosePnl(p.side, p.entry, f.price, closed);
    var released := ShareOf(p.margin, closed, p.quantity);
    var share := ShareOf(f.margin, closed, f.quantity);
    var paid := a.(balance := a.balance + (released + share + pnl),
                   totalPnl := a.totalPnl + pnl,
                   totalTrades := a.totalTrades + 1,
                   winningTrades := if pnl > 0.0 then a.winningTrades + 1 else a.winningTrades);
    if f.quantity < p.quantity then
      paid.(positions := a.positions[i := Reduced(p, f)])
    else
      var others := Without(a.positions, i);
      if f.quantity - closed > DUST then
        paid.(positions := others + [Residual(f, closed)])
      else if f.quantity > closed then
        paid.(positions := others, abandoned := a.abandoned + [Residual(f, closed)])
      else
        paid.(positions := others)
  }

  function UpdatePosition(a: Account, f: Fill): Account
  {
    var i := IndexOf(a.positions, f.symbol);
    if i == |a.positions| then
      a.(positions := a.positions + [NewPosition(f)])
    else if a.positions[i].side != f.side then
      CloseAt(a, i, f)
    else
      a.(positions := a.positions[i := Enlarged(a.positions[i], f)])
  }

  /** Charge the fee, lock the margin, move the position. */
  function Settle(a: Account, f: Fill): Account
  {
    UpdatePosition(a.(balance := a.balance - f.fee - f.margin, totalFees := a.totalFees + f.fee), f)
  }

  function Post(a: Account, e: Entry): Account
  {
    var b := match e
      case Traded(f) => Settle(a, f)
      case Funded(x) => a.(balance := a.balance + x)
      case Covered(d) => a.(balance := a.balance + d, insurance := a.insurance - d);
    b.(journal := a.journal + [e])
  }

  /** The insurance fund takes over a negative balance. */
  function Cover(a: Account): Account
  {
    if a.balance < 0.0 then Post(a, Covered(-a.balance)) else a
  }

  /** Longs pay shorts when the rate is positive. */
  function FundingPayment(side: Side, quantity: Qty, price: real, rate: real): real
  {
    var notional := price * quantity;
    if side == Buy then -notional * rate else notional * rate
  }

  function ChargeFunding(a: Account, ps: seq<Position>, prices: Symbol -> real, rate: real): Account
    decreases |ps|
  {
    if ps == [] then a
    else ChargeFunding(Post(a, Funded(FundingPayment(ps[0].side, ps[0].quantity, prices(ps[0].symbol), rate))),
                       ps[1..], prices, rate)
  }

  // ---------------------------------------------------------------- totals

  /** A quantity per position, summed over a list. */
  function Total(ps: seq<Position>, w: Position -> real): real
  {
    if ps == [] then 0.0 else w(ps[0]) + Total(ps[1..], w)
  }

  function Margin(p: Position): real { p.margin }
  function Cost(p: Position): real { p.entry * Signed(p.side, p.quantity) }

  /** Signed quantity weighted per symbol: with the marks it is the market value of a
      position, with a symbol's indicator the position held in that symbol. */
  function Exposure(k: Symbol -> real): Position -> real
  {
    (p: Position) => k(p.symbol) * Signed(p.side, p.quantity)
  }

  /** Funding takes the rate on the net exposure at the given prices out of the balance -- a positive
      rate costs longs what it pays shorts -- and changes nothing else. */
  lemma {:induction false} FundingOnExposure(a: Account, ps: seq<Position>, prices: Symbol -> real, rate: real)
    ensures var r := ChargeFunding(a, ps, prices, rate);
            && r == a.(balance := r.balance, journal := r.journal)
            && r.balance == a.balance - rate * Total(ps, Exposure(prices))
    decreases |ps|
  {
    if ps != [] {
      var p, w := ps[0], Exposure(prices);
      var paid := FundingPayment(p.side, p.quantity, prices(p.symbol), rate);
      assert paid == -rate * w(p);
      FundingOnExposure(Post(a, Funded(paid)), ps[1..], prices, rate);
      assert rate * (w(p) + Total(ps[1..], w)) == rate * w(p) + rate * Total(ps[1..], w);
    }
  }

  lemma {:induction false} TotalOfConcat(xs: seq<Position>, ys: seq<Position>, w: Position -> real)
    ensures Total(xs + ys, w) == Total(xs, w) + Total(ys, w)
  {
    if xs == [] {
      assert xs + ys == ys;
    } else {
      assert (xs + ys)[0] == xs[0] && (xs + ys)[1..] == xs[1..] + ys;
      TotalOfConcat(xs[1..], ys, w);
    }
  }

  // ---------------------------------------------------------------- one fill

  /** Everything the account still has to explain: open positions and abandoned remainders. */
  function Held(a: Account): seq<Position> { a.positions + a.abandoned }

  /** The positions a fill takes away and the ones it puts in their place. */
  function Removed(a: Account, f: Fill): seq<Position>
  {
    var i := IndexOf(a.positions, f.symbol);
    if i == |a.positions| then [] else [a.positions[i]]
  }

  function Added(a: Account, f: Fill): seq<Position>
  {
    var i := IndexOf(a.positions, f.symbol);
    if i == |a.positions| then [NewPosition(f)]
    else var p := a.positions[i];
      if p.side == f.side then [Enlarged(p, f)]
      else if f.quantity < p.quantity then [Reduced(p, f)]
      else if f.quantity > p.quantity then [Residual(f, p.quantity)]
      else []
  }

  /** A fill replaces the position it hits in place, or takes it out and appends what is
      left (to the forgotten remainders when that is dust). */
  ghost predicate Respliced(ps: seq<Position>, gone: seq<Position>, qs: seq<Position>, i: nat, added: seq<Position>)
    requires i <= |ps|
  {
    if i == |ps| then gone == [] && qs == ps + added
    else
      || (gone == [] && |added| == 1 && qs == ps[i := added[0]])
      || (gone == [] && qs == Without(ps, i) + added)
      || (gone == added && qs == Without(ps, i))
  }

  lemma FillSplices(a: Account, f: Fill)
    ensures var r := UpdatePosition(a, f);
            var i := IndexOf(a.positions, f.symbol);
            exists gone :: r.abandoned == a.abandoned + gone &&
              Respliced(a.positions, gone, r.positions, i, Added(a, f))
  {
    var i, r, added := IndexOf(a.positions, f.symbol), UpdatePosition(a, f), Added(a, f);
    var gone := r.abandoned[|a.abandoned|..];
    if i < |a.positions| && a.positions[i].side != f.side {
      var p := a.positions[i];
      var closed: Qty := Min(f.quantity, p.quantity);
      if f.quantity < p.quantity {
        assert r.positions == a.positions[i := Reduced(p, f)];
      } else if f.quantity == p.quantity {
        assert r.positions == Without(a.positions, i);
      } else {
        assert added == [Residual(f, closed)];
      }
    }
    assert r.abandoned == a.abandoned + gone && Respliced(a.positions, gone, r.positions, i, added);
  }

  lemma {:induction false} TotalOfUpdate(ps: seq<Position>, i: nat, p: Position, w: Position -> real)
    requires i < |ps|
    ensures Total(ps[i := p], w) == Total(ps, w) - w(ps[i]) + w(p)
    ensures Total(Without(ps, i), w) == Total(ps, w) - w(ps[i])
  {
    if i == 0 {
      assert ps[0 := p][1..] == ps[1..] && Without(ps, 0) == ps[1..];
    } else {
      assert ps[i := p][1..] == ps[1..][i - 1 := p];
      assert Without(ps, i)[0] == ps[0] && Without(ps, i)[1..] == Without(ps[1..], i - 1);
      TotalOfUpdate(ps[1..], i - 1, p, w);
    }
  }

  lemma SpliceMovesTotal(ps: seq<Position>, gone: seq<Position>, qs: seq<Position>, i: nat,
                         added: seq<Position>, w: Position -> real)
    requires i <= |ps| && Respliced(ps, gone, qs, i, added)
    ensures Total(qs, w) + Total(gone, w)
         == Total(ps, w) - (if i < |ps| then w(ps[i]) else 0.0) + Total(added, w)
  {
    if i == |ps| {
      TotalOfConcat(ps, added, w);
    } else {
      TotalOfUpdate(ps, i, if |added| == 1 then added[0] else ps[i], w);
      TotalOfConcat(Without(ps, i), added, w);
    }
  }

  /** Whatever is summed over positions, a fill changes the sum by what it added minus
      what it removed; nothing else in the list moves. */
  lemma FillMovesTotal(a: Account, f: Fill, w: Position -> real)
    ensures Total(Held(UpdatePosition(a, f)), w)
         == Total(Held(a), w) - Total(Removed(a, f), w) + Total(Added(a, f), w)
  {
    var i, r := IndexOf(a.positions, f.symbol), UpdatePosition(a, f);
    FillSplices(a, f);
    var gone :| r.abandoned == a.abandoned + gone && Respliced(a.positions, gone, r.positions, i, Added(a, f));
    SpliceMovesTotal(a.positions, gone, r.positions, i, Added(a, f), w);
    TotalOfConcat(a.positions, a.abandoned, w);
    TotalOfConcat(r.positions, r.abandoned, w);
    TotalOfConcat(a.abandoned, gone, w);
    assert Total(Removed(a, f), w) == if i < |a.positions| then w(a.positions[i]) else 0.0;
  }

  /** What a fill realises, and what it hands back to the balance beside that. */
  function Realised(a: Account, f: Fill): real { UpdatePosition(a, f).totalPnl - a.totalPnl }

  function Returned(a: Account, f: Fill): real { UpdatePosition(a, f).balance - a.balance }

  lemma EnlargedCost(p: Position, f: Fill)
    requires p.side == f.side
    ensures Cost(Enlarged(p, f)) == Cost(p) + f.price * Signed(f.side, f.quantity)
  {
  }

  /** Margin is neither created nor lost: what leaves the positions is what is returned. */
  lemma MarginOfFill(a: Account, f: Fill)
    ensures Total(Added(a, f), Margin) - Total(Removed(a, f), Margin)
         == f.margin + Realised(a, f) - Returned(a, f)
  {
    var i := IndexOf(a.positions, f.symbol);
    if i < |a.positions| && a.positions[i].side != f.side {
      var p := a.positions[i];
      var closed: Qty := Min(f.quantity, p.quantity);
      var left := if f.quantity < p.quantity then Reduced(p, f).margin
                  else if f.quantity > p.quantity then Residual(f, p.quantity).margin else 0.0;
      assert Total(Added(a, f), Margin) == left;
      assert Returned(a, f) - Realised(a, f) == p.margin * (closed / p.quantity) + f.margin * (closed / f.quantity);
      MarginSplit(p, f, closed);
    }
  }

  lemma MarginSplit(p: Position, f: Fill, closed: Qty)
    requires closed == Min(f.quantity, p.quantity)
    ensures (if f.quantity < p.quantity then Reduced(p, f).margin
             else if f.quantity > p.quantity then Residual(f, p.quantity).margin else 0.0)
         == p.margin + f.margin - p.margin * (closed / p.quantity) - f.margin * (closed / f.quantity)
  {
  }

  /** The cost basis absorbs the trade at its price plus whatever was realised. */
  lemma CostOfFill(a: Account, f: Fill)
    ensures Total(Added(a, f), Cost) - Total(Removed(a, f), Cost)
         == f.price * Signed(f.side, f.quantity) + Realised(a, f)
  {
    var i := IndexOf(a.positions, f.symbol);
    if i < |a.positions| {
      var p := a.positions[i];
      if p.side == f.side {
        EnlargedCost(p, f);
      } else if f.quantity < p.quantity {
        CostOfReduction(p, f);
      } else {
        CostOfFlip(p, f);
      }
    }
  }

  lemma CostOfReduction(p: Position, f: Fill)
    requires p.side != f.side && f.quantity < p.quantity
    ensures Cost(Reduced(p, f)) - Cost(p)
         == f.price * Signed(f.side, f.quantity) + ClosePnl(p.side, p.entry, f.price, f.quantity)
  {
  }

  lemma CostOfFlip(p: Position, f: Fill)
    requires p.side != f.side && f.quantity >= p.quantity
    ensures (if f.quantity > p.quantity then Cost(Residual(f, p.quantity)) else 0.0) - Cost(p)
         == f.price * Signed(f.side, f.quantity) + ClosePnl(p.side, p.entry, f.price, p.quantity)
  {
  }

  lemma ExposureOfFill(a: Account, f: Fill, k: Symbol -> real)
    ensures Total(Added(a, f), Exposure(k)) - Total(Removed(a, f), Exposure(k))
         == k(f.symbol) * Signed(f.side, f.quantity)
  {
    var i := IndexOf(a.positions, f.symbol);
    if i < |a.positions| {
      var p := a.positions[i];
      WeightSplits(k(f.symbol), Signed(p.side, p.quantity), Signed(f.side, f.quantity));
      assert Added(a, f) == [] || Signed(Added(a, f)[0].side, Added(a, f)[0].quantity)
                                  == Signed(p.side, p.quantity) + Signed(f.side, f.quantity);
    }
  }

  lemma WeightSplits(k: real, x: real, y: real)
    ensures k * (x + y) == k * x + k * y
  {
  }

  // The same, for everything the account holds.

  lemma FillLeaves(a: Account, f: Fill)
    ensures var r := UpdatePosition(a, f);
            r.insurance == a.insurance && r.totalFees == a.totalFees && r.journal == a.journal
  {
  }

  lemma MarginAfterFill(a: Account, f: Fill)
    ensures Total(Held(UpdatePosition(a, f)), Margin) == Total(Held(a), Margin)
         + f.margin + Realised(a, f) - Returned(a, f)
  {
    FillMovesTotal(a, f, Margin);
    MarginOfFill(a, f);
  }

  lemma CostAfterFill(a: Account, f: Fill)
    ensures Total(Held(UpdatePosition(a, f)), Cost)
         == Total(Held(a), Cost) + f.price * Signed(f.side, f.quantity) + Realised(a, f)
  {
    FillMovesTotal(a, f, Cost);
    CostOfFill(a, f);
  }

  lemma ExposureAfterFill(a: Account, f: Fill, k: Symbol -> real)
    ensures Total(Held(UpdatePosition(a, f)), Exposure(k))
         == Total(Held(a), Exposure(k)) + k(f.symbol) * Signed(f.side, f.quantity)
  {
    FillMovesTotal(a, f, Exposure(k));
    ExposureOfFill(a, f, k);
  }
}
