/** The account as the exchange keeps it: position objects updated in place, held in a list
    and in an index by symbol.  Every method is proved to do to the account's value what
    `Accounts` says a fill, a funding payment or a deficit cover does. */
module PositionLifecycle {
  import opened Basics
  import opened Accounts
  import opened Journal

  class OpenPosition {
    const symbol: Symbol
    const side: Side
    const stopLoss: real
    const takeProfit: real
    var quantity: Qty
    var entry: real
    var margin: real
    var unrealizedPnl: real

    constructor (p: Position)
      ensures Value() == p
    {
      symbol, side, stopLoss, takeProfit := p.symbol, p.side, p.stopLoss, p.takeProfit;
      quantity, entry, margin, unrealizedPnl := p.quantity, p.entry, p.margin, 0.0;
    }

    /** The position as a value; the unrealized profit is derived from it and a price. */
    function Value(): Position
      reads this
    {
      Position(symbol, side, quantity, entry, stopLoss, takeProfit, margin)
    }

    method UpdatePnl(price: real)
      modifies this`unrealizedPnl
      ensures unrealizedPnl == UnrealizedPnl(Value(), price)
    {
      if side == Buy {
        unrealizedPnl := (price - entry) * quantity;
      } else {
        unrealizedPnl := (entry - price) * quantity;
      }
    }
  }

  /** The list and the index hold the same objects, one per symbol. */
  ghost predicate Indexed(ps: seq<OpenPosition>, index: map<Symbol, OpenPosition>)
  {
    && (forall i, j :: 0 <= i < j < |ps| ==> ps[i].symbol != ps[j].symbol)
    && (forall p :: p in ps ==> p.symbol in index && index[p.symbol] == p)
    && (forall s :: s in index ==> index[s].symbol == s && index[s] in ps)
  }

  lemma IndexedOpen(ps: seq<OpenPosition>, index: map<Symbol, OpenPosition>, o: OpenPosition)
    requires Indexed(ps, index) && o.symbol !in index
    ensures Indexed(ps + [o], index[o.symbol := o])
  {
  }

  lemma IndexedDiscard(ps: seq<OpenPosition>, index: map<Symbol, OpenPosition>, i: nat)
    requires Indexed(ps, index) && i < |ps|
    ensures Indexed(ps[..i] + ps[i + 1..], index - {ps[i].symbol})
    ensures forall p :: p in ps[..i] + ps[i + 1..] ==> p in ps
  {
  }

  /** The values of the positions, in list order. */
  ghost predicate Shows(ps: seq<OpenPosition>, values: seq<Position>)
    reads ps
  {
    |values| == |ps| && forall i :: 0 <= i < |ps| ==> ps[i].Value() == values[i]
  }

  /** The index finds the position that a scan of the list would find. */
  lemma IndexFinds(ps: seq<OpenPosition>, index: map<Symbol, OpenPosition>, values: seq<Position>, s: Symbol)
    requires Indexed(ps, index) && Shows(ps, values)
    ensures var i := IndexOf(values, s);
            && (s in index <==> i < |ps|)
            && (s in index ==> ps[i] == index[s] && index[s].symbol == s && index[s].Value() == values[i])
  {
  }

  lemma ListedAt(ps: seq<OpenPosition>, index: map<Symbol, OpenPosition>, i: nat)
    requires Indexed(ps, index) && i < |ps|
    ensures ps[i].symbol in index && index[ps[i].symbol] == ps[i]
    ensures forall j :: 0 <= j < |ps| && j != i ==> ps[j] != ps[i]
  {
  }

  /** A close in its three shapes: reduced in place, gone, or gone with something left over. */
  lemma CloseCases(a: Account, f: Fill, i: nat)
    requires i == IndexOf(a.positions, f.symbol) < |a.positions| && a.positions[i].side != f.side
    ensures var p := a.positions[i];
            var closed: Qty := Min(f.quantity, p.quantity);
            var share := ShareOf(f.margin, closed, f.quantity);
            var released := ShareOf(p.margin, closed, p.quantity);
            var pnl := ClosePnl(p.side, p.entry, f.price, closed);
            var left := f.quantity - closed;
            var others := Without(a.positions, i);
            UpdatePosition(a, f) == a.(
              balance := a.balance + (released + share + pnl), totalPnl := a.totalPnl + pnl,
              totalTrades := a.totalTrades + 1,
              winningTrades := if pnl > 0.0 then a.winningTrades + 1 else a.winningTrades,
              positions := if closed < p.quantity then
                             a.positions[i := p.(quantity := p.quantity - closed, margin := p.margin - released)]
                           else if left > DUST then
                             others + [Position(f.symbol, f.side, left, f.price, DefaultStop(f.side, f.price),
                                                DefaultTarget(f.side, f.price), f.margin - share)]
                           else others,
              abandoned := if closed == p.quantity && 0.0 < left <= DUST
                           then a.abandoned + [Residual(f, closed)] else a.abandoned)
  {
  }

  class AccountBook {
    var balance: real
    var insurance: real
    var totalPnl: real
    var totalFees: real
    var totalTrades: nat
    var winningTrades: nat
    var positions: seq<OpenPosition>
    var bySymbol: map<Symbol, OpenPosition>
    ghost var values: seq<Position>
    ghost var journal: seq<Entry>
    ghost var abandoned: seq<Position>

    ghost predicate Valid()
      reads this, positions
    {
      Indexed(positions, bySymbol) && Shows(positions, values)
    }

    ghost function Objects(): set<OpenPosition>
      reads this
    {
      set p | p in positions
    }

    /** The account as a value. */
    ghost function View(): Account
      reads this
    {
      Account(balance, insurance, totalPnl, totalFees, totalTrades, winningTrades, values, journal, abandoned)
    }

    constructor (initial: real)
      ensures Valid() && View() == Opened(initial) && positions == []
    {
      balance, insurance, totalPnl, totalFees := initial, 0.0, 0.0, 0.0;
      totalTrades, winningTrades := 0, 0;
      positions, bySymbol, values := [], map[], [];
      journal, abandoned := [], [];
    }

    method Open(p: Position)
      requires Valid() && p.symbol !in bySymbol
      modifies this`positions, this`bySymbol, this`values
      ensures Valid() && values == old(values) + [p]
      ensures fresh(Objects() - old(Objects()))
    {
      hide Indexed;
      var o := new OpenPosition(p);
      IndexedOpen(positions, bySymbol, o);
      positions := positions + [o];
      bySymbol := bySymbol[p.symbol := o];
      values := values + [p];
    }

    /** Scans the list for a position object. */
    method Locate(existing: OpenPosition) returns (i: nat)
      requires Valid() && existing in positions
      ensures i < |positions| && positions[i] == existing && i == IndexOf(values, existing.symbol)
    {
      hide Indexed;
      i := 0;
      while positions[i] != existing
        invariant 0 <= i < |positions|
        invariant exists j :: i <= j < |positions| && positions[j] == existing
        decreases |positions| - i
      {
        i := i + 1;
      }
      ListedAt(positions, bySymbol, i);
      IndexFinds(positions, bySymbol, values, existing.symbol);
    }

    /** Takes a position out of the list and the index. */
    method Discard(existing: OpenPosition)
      requires Valid() && existing in positions
      modifies this`positions, this`bySymbol, this`values
      ensures Valid() && existing.symbol !in bySymbol
      ensures var i := IndexOf(old(values), existing.symbol);
              i < |old(values)| && values == Without(old(values), i)
      ensures Objects() <= old(Objects())
    {
      hide Indexed;
      var i := Locate(existing);
      IndexedDiscard(positions, bySymbol, i);
      positions := positions[..i] + positions[i + 1..];
      bySymbol := bySymbol - {existing.symbol};
      values := Without(values, i);
    }

    /** Shrinks a position in place. */
    method Reduce(existing: OpenPosition, closed: Qty, released: real)
      requires Valid() && existing in positions && closed < existing.quantity
      modifies this`values, existing
      ensures Valid()
      ensures var i := IndexOf(old(values), existing.symbol);
              i < |old(values)| && old(values)[i].quantity > closed
              && values == old(values)[i := old(values)[i].(quantity := old(values)[i].quantity - closed,
                                                           margin := old(values)[i].margin - released)]
    {
      hide Indexed;
      ghost var i := Listed(existing);
      values := values[i := values[i].(quantity := values[i].quantity - closed, margin := values[i].margin - released)];
      existing.margin := existing.margin - released;
      existing.quantity := existing.quantity - closed;
    }

    lemma Listed(existing: OpenPosition) returns (i: nat)
      requires Valid() && existing in positions
      ensures i == IndexOf(values, existing.symbol) && i < |positions| == |values| && positions[i] == existing
      ensures existing.Value() == values[i]
      ensures forall j :: 0 <= j < |positions| && j != i ==> positions[j] != existing
    {
      hide Indexed;
      i :| 0 <= i < |positions| && positions[i] == existing;
      ListedAt(positions, bySymbol, i);
      IndexFinds(positions, bySymbol, values, existing.symbol);
      i := IndexOf(values, existing.symbol);
      ListedAt(positions, bySymbol, i);
    }

    /** Closes or reduces the opposite position, and opens what the fill exceeds it by. */
    method ClosePosition(existing: OpenPosition, f: Fill)
      requires Valid() && existing in positions && existing.symbol == f.symbol && existing.side != f.side
      modifies this, existing
      ensures Valid() && View() == UpdatePosition(old(View()), f)
      ensures fresh(Objects() - old(Objects()))
    {
      hide ShareOf, ClosePnl, DefaultStop, DefaultTarget, Indexed, Shows, UpdatePosition, Residual, Without, IndexOf;
      ghost var a := View();
      ghost var i := Listed(existing);
      CloseCases(a, f, i);

      var closed: Qty := Min(f.quantity, existing.quantity);
      var pnl := ClosePnl(existing.side, existing.entry, f.price, closed);
      var released := ShareOf(existing.margin, closed, existing.quantity);
      var share := ShareOf(f.margin, closed, f.quantity);

      balance := balance + (released + share + pnl);
      totalPnl := totalPnl + pnl;
      totalTrades := totalTrades + 1;
      if pnl > 0.0 {
        winningTrades := winningTrades + 1;
      }
      if closed < existing.quantity {
        Reduce(existing, closed, released);
      } else {
        Discard(existing);
        var residual := f.quantity - closed;
        if residual > DUST {
          OpenResidual(f, residual, f.margin - share);
        } else if residual > 0.0 {
          abandoned := abandoned + [Residual(f, closed)];
        }
      }
    }

    method OpenResidual(f: Fill, quantity: Qty, margin: real)
      requires Valid() && f.symbol !in bySymbol
      modifies this`positions, this`bySymbol, this`values
      ensures Valid()
      ensures values == old(values)
                + [Position(f.symbol, f.side, quantity, f.price, DefaultStop(f.side, f.price),
                            DefaultTarget(f.side, f.price), margin)]
      ensures fresh(Objects() - old(Objects()))
    {
      var stopLoss, takeProfit;
      if f.side == Buy {
        stopLoss, takeProfit := f.price * 0.98, f.price * 1.04;
      } else {
        stopLoss, takeProfit := f.price * 1.02, f.price * 0.96;
      }
      Open(Position(f.symbol, f.side, quantity, f.price, stopLoss, takeProfit, margin));
    }

    /** Adds to a position of the same side, in place, at the average price. */
    method Enlarge(existing: OpenPosition, f: Fill)
      requires Valid() && existing in positions && existing.symbol == f.symbol
      modifies this`values, existing
      ensures Valid()
      ensures var i := IndexOf(old(values), f.symbol);
              i < |old(values)| && values == old(values)[i := Enlarged(old(values)[i], f)]
    {
      hide AveragePrice, Indexed;
      ghost var i := Listed(existing);
      values := values[i := Enlarged(values[i], f)];
      var average := AveragePrice(existing.entry, existing.quantity, f.price, f.quantity);
      existing.quantity := existing.quantity + f.quantity;
      existing.entry := average;
      existing.margin := existing.margin + f.margin;
    }

    method UpdateFor(f: Fill)
      requires Valid()
      modifies this, positions
      ensures Valid() && View() == UpdatePosition(old(View()), f)
      ensures fresh(Objects() - old(Objects()))
    {
      hide CloseAt, Enlarged, Indexed;
      IndexFinds(positions, bySymbol, values, f.symbol);
      if f.symbol in bySymbol {
        var existing := bySymbol[f.symbol];
        assert existing == positions[IndexOf(values, f.symbol)];
        if existing.side != f.side {
          ClosePosition(existing, f);
        } else {
          Enlarge(existing, f);
        }
      } else {
        var stopLoss := if f.stopLoss.Some? then f.stopLoss.value
                        else if f.side == Buy then f.price * 0.98 else f.price * 1.02;
        var takeProfit := if f.takeProfit.Some? then f.takeProfit.value
                          else if f.side == Buy then f.price * 1.04 else f.price * 0.96;
        Open(Position(f.symbol, f.side, f.quantity, f.price, stopLoss, takeProfit, f.margin));
      }
    }

    /** Charge the fee, lock the margin, move the position. */
    method Settle(f: Fill)
      requires Valid()
      modifies this, positions
      ensures Valid() && View() == Post(old(View()), Traded(f))
      ensures fresh(Objects() - old(Objects()))
    {
      hide UpdatePosition, Indexed;
      ghost var a := View();
      balance := balance - f.fee;
      totalFees := totalFees + f.fee;
      balance := balance - f.margin;
      journal := journal + [Traded(f)];
      JournalIsHistory(a, f);
      UpdateFor(f);
    }

    method ChargeFunding(prices: Symbol -> real, rate: real)
      requires Valid()
      modifies this`balance, this`journal
      ensures Valid() && View() == Accounts.ChargeFunding(old(View()), old(View()).positions, prices, rate)
    {
      hide FundingPayment, Accounts.Settle, Indexed;
      ghost var a := View();
      var i := 0;
      while i < |positions|
        invariant 0 <= i <= |positions|
        invariant Accounts.ChargeFunding(a, a.positions, prices, rate)
               == Accounts.ChargeFunding(View(), values[i..], prices, rate)
      {
        var p := positions[i];
        var payment := FundingPayment(p.side, p.quantity, prices(p.symbol), rate);
        assert values[i..][0] == p.Value() && values[i..][1..] == values[i + 1..];
        balance := balance + payment;
        journal := journal + [Funded(payment)];
        i := i + 1;
      }
    }

    method CoverDeficit()
      requires Valid()
      modifies this`balance, this`insurance, this`journal
      ensures Valid() && View() == Cover(old(View()))
    {
      hide Accounts.Settle;
      if balance < 0.0 {
        var deficit := -balance;
        insurance := insurance - deficit;
        journal := journal + [Covered(deficit)];
        balance := 0.0;
      }
    }

    /** Marks every position, then reports equity: balance plus margins plus unrealized PnL. */
    method MarkedEquity(marks: Symbol -> real) returns (equity: real)
      requires Valid()
      modifies positions
      ensures Valid() && equity == Equity(View(), marks)
    {
      equity := balance;
      var i := 0;
      while i < |positions|
        invariant 0 <= i <= |positions|
        invariant Valid()
        invariant equity + Total(values[i..], Worth(marks)) == Equity(View(), marks)
      {
        positions[i].UpdatePnl(marks(positions[i].symbol));
        equity := equity + (positions[i].margin + positions[i].unrealizedPnl);
        assert values[i..][0] == positions[i].Value() && values[i..][1..] == values[i + 1..];
        i := i + 1;
      }
    }
  }

  lemma JournalIsHistory(a: Account, f: Fill)
    ensures UpdatePosition(Charged(a, f).(journal := a.journal + [Traded(f)]), f) == Post(a, Traded(f))
  {
  }
}
